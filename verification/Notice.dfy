/** Notices over a lossy channel: the publisher numbers each notice and sends it three
    times; the channel may lose any copies but keeps their order; the client drops a
    notice whose number is that of the notice before it. */
module Notice {
  const RETRY_COUNT := 3

  datatype Notice = Notice(content: string, timestamp: int, id: nat)

  // ------------------------------------------------------------------ the publisher

  function Repeat(n: Notice, k: nat): (r: seq<Notice>)
    ensures |r| == k && forall i | 0 <= i < k :: r[i] == n
  { if k == 0 then [] else [n] + Repeat(n, k - 1) }

  function Successes(sends: seq<bool>): nat
  { if sends == [] then 0 else Successes(sends[..|sends| - 1]) + if sends[|sends| - 1] then 1 else 0 }

  lemma {:induction false} RepeatMore(n: Notice, k: nat)
    ensures Repeat(n, k) + [n] == Repeat(n, k + 1)
  {
    if k > 0 { RepeatMore(n, k - 1); }
  }

  /** It is the number of sends that succeeded. */
  lemma {:induction false} SuccessesCounts(sends: seq<bool>)
    ensures Successes(sends) == |set i | 0 <= i < |sends| && sends[i]|
  {
    var all := set i | 0 <= i < |sends| && sends[i];
    if sends == [] {
      assert all == {};
    } else {
      var m := |sends| - 1;
      var front := set i | 0 <= i < m && sends[..m][i];
      SuccessesCounts(sends[..m]);
      assert all == if sends[m] then front + {m} else front;
    }
  }

  lemma {:induction false} SuccessesBound(sends: seq<bool>)
    ensures Successes(sends) <= |sends| && (Successes(sends) > 0 <==> true in sends)
  {
    if sends != [] {
      SuccessesBound(sends[..|sends| - 1]);
      assert sends == sends[..|sends| - 1] + [sends[|sends| - 1]];
    }
  }

  /** `channel` is what the socket has taken, in order; `notices` are those published so
      far and `copies` how many copies of each were taken. */
  class PubServer {
    var started: bool
    var msgSeq: nat
    ghost var channel: seq<Notice>
    ghost var notices: seq<Notice>
    ghost var copies: seq<nat>

    ghost predicate Valid()
      reads this
    {
      && |copies| == |notices| == msgSeq && Numbered(notices, 1) && channel == Sent(notices, copies)
      && forall i | 0 <= i < |copies| :: copies[i] <= RETRY_COUNT
    }

    constructor ()
      ensures Valid() && !started && notices == []
    {
      started, msgSeq, channel, notices, copies := false, 0, [], [], [];
    }

    /** `bound` says whether the socket could be created and bound. */
    method Start(bound: bool) returns (ok: bool)
      modifies this`started
      ensures old(Valid()) ==> Valid()
      ensures ok == (!old(started) && bound) && started == (old(started) || bound)
    {
      ok := !started && bound;
      if ok {
        started := true;
      }
    }

    /** The resend loop; `sends` are the results of the three sends. */
    method Publish(n: Notice, sends: seq<bool>) returns (ok: bool)
      requires |sends| == RETRY_COUNT
      modifies this`channel
      ensures !started ==> !ok && channel == old(channel)
      ensures started ==> (ok <==> true in sends)
      ensures started ==> channel == old(channel) + Repeat(n, |set i | 0 <= i < |sends| && sends[i]|)
    {
      ok := false;
      if !started {
        return;
      }
      var i := 0;
      while i < RETRY_COUNT
        modifies this`channel
        invariant 0 <= i <= RETRY_COUNT
        invariant ok <==> true in sends[..i]
        invariant channel == old(channel) + Repeat(n, Successes(sends[..i]))
      {
        if sends[i] {
          ok := true;
          channel := channel + [n];
        }
        RepeatMore(n, Successes(sends[..i]));
        assert sends[..i + 1][..i] == sends[..i] && sends[..i + 1] == sends[..i] + [sends[i]];
        i := i + 1;
      }
      assert sends[..RETRY_COUNT] == sends;
      SuccessesCounts(sends);
    }

    /** The notice gets the next number whether or not a copy can be sent. */
    method PublishNotice(content: string, timestamp: int, sends: seq<bool>) returns (ok: bool)
      requires Valid() && |sends| == RETRY_COUNT
      modifies this`msgSeq, this`channel, this`notices, this`copies
      ensures Valid() && notices == old(notices) + [Notice(content, timestamp, |notices|)]
      ensures copies == old(copies) + [if started then |set i | 0 <= i < |sends| && sends[i]| else 0]
      ensures ok <==> started && true in sends
    {
      msgSeq := msgSeq + 1;
      var n := Notice(content, timestamp, msgSeq);
      ok := Publish(n, sends);
      ghost var k := if started then Successes(sends) else 0;
      SuccessesBound(sends);
      SuccessesCounts(sends);
      SentMore(notices, copies, n, k);
      notices, copies := notices + [n], copies + [k];
    }
  }

  /** Notices published by one thread carry the numbers from first on. */
  predicate Numbered(ns: seq<Notice>, first: nat)
  {
    forall i | 0 <= i < |ns| :: ns[i].id == first + i
  }

  /** What the socket has taken after publishing ns one after the other, copies[i] of ns[i]. */
  function Sent(ns: seq<Notice>, copies: seq<nat>): seq<Notice>
    requires |copies| == |ns|
  { if ns == [] then [] else Repeat(ns[0], copies[0]) + Sent(ns[1..], copies[1..]) }

  /** Publishing one more notice adds its copies at the end, as PublishNotice does. */
  lemma {:induction false} SentMore(ns: seq<Notice>, copies: seq<nat>, n: Notice, k: nat)
    requires |copies| == |ns|
    ensures Sent(ns + [n], copies + [k]) == Sent(ns, copies) + Repeat(n, k)
  {
    if ns == [] {
      assert Sent([n][1..], [k][1..]) == [];
      assert [] + [n] == [n] && [] + [k] == [k];
    } else {
      assert (ns + [n])[1..] == ns[1..] + [n] && (copies + [k])[1..] == copies[1..] + [k];
      SentMore(ns[1..], copies[1..], n, k);
    }
  }

  // ------------------------------------------------------------------ the client

  /** The de-duplication of the client: what it hands to its user, given the number it
      remembers. */
  function Delivered(last: nat, arrivals: seq<Notice>): seq<Notice>
    decreases |arrivals|
  {
    if arrivals == [] then []
    else if arrivals[0].id != 0 && arrivals[0].id == last then Delivered(last, arrivals[1..])
    else [arrivals[0]] + Delivered(arrivals[0].id, arrivals[1..])
  }

  function LastId(last: nat, arrivals: seq<Notice>): nat
  { if arrivals == [] then last else arrivals[|arrivals| - 1].id }

  class QuoteApi {
    const hasSpi: bool
    var lastNoticeId: nat
    var handed: seq<Notice>            // calls of OnNotice
    ghost var arrivals: seq<Notice>    // calls of OnPubMessage

    ghost predicate Valid()
      reads this
    {
      if hasSpi then handed == Delivered(0, arrivals) && lastNoticeId == LastId(0, arrivals)
      else handed == [] && lastNoticeId == 0
    }

    constructor (hasSpi: bool)
      ensures Valid() && this.hasSpi == hasSpi && arrivals == []
    {
      this.hasSpi, lastNoticeId, handed, arrivals := hasSpi, 0, [], [];
    }

    /** The callback, for one arrived notice. */
    method OnPubMessage(n: Notice)
      requires Valid()
      modifies this`lastNoticeId, this`handed, this`arrivals
      ensures Valid() && arrivals == old(arrivals) + [n]
      ensures hasSpi ==> handed == old(handed) || handed == old(handed) + [n]
    {
      DeliveredAppend(0, arrivals, [n]);
      assert Delivered(n.id, [n][1..]) == [];
      arrivals := arrivals + [n];
      if !hasSpi {
        return;
      }
      if n.id != 0 && n.id == lastNoticeId {
        return;
      }
      lastNoticeId := n.id;
      handed := handed + [n];
    }
  }

  /** Arrivals one at a time, as the callback takes them, deliver the same as all at once. */
  lemma {:induction false} DeliveredAppend(last: nat, a: seq<Notice>, b: seq<Notice>)
    ensures Delivered(last, a + b) == Delivered(last, a) + Delivered(LastId(last, a), b)
    decreases |a|
  {
    if a == [] {
      assert a + b == b;
    } else {
      assert (a + b)[1..] == a[1..] + b;
      DeliveredAppend(if a[0].id != 0 && a[0].id == last then last else a[0].id, a[1..], b);
    }
  }

  // ------------------------------------------------------------------ a lossy, ordered channel

  ghost predicate Subsequence(a: seq<Notice>, b: seq<Notice>)
  {
    if a == [] then true
    else if b == [] then false
    else (a[0] == b[0] && Subsequence(a[1..], b[1..])) || Subsequence(a, b[1..])
  }

  lemma {:induction false} SubsequenceIn(a: seq<Notice>, b: seq<Notice>, n: Notice)
    requires Subsequence(a, b) && n in a
    ensures n in b
    decreases |b|
  {
    if a[0] == b[0] && Subsequence(a[1..], b[1..]) {
      if n != a[0] {
        assert a == [a[0]] + a[1..];
        SubsequenceIn(a[1..], b[1..], n);
      }
    } else {
      SubsequenceIn(a, b[1..], n);
    }
  }

  /** What arrives begins with some of the copies of the first notice. */
  lemma {:induction false} SplitFirst(a: seq<Notice>, n: Notice, k: nat, rest: seq<Notice>) returns (j: nat)
    requires Subsequence(a, Repeat(n, k) + rest)
    ensures j <= k && j <= |a| && a[..j] == Repeat(n, j) && Subsequence(a[j..], rest)
    decreases k
  {
    var b := Repeat(n, k) + rest;
    if k == 0 || a == [] {
      j := 0;
      assert a[0..] == a && (k == 0 ==> b == rest);
    } else {
      assert b[1..] == Repeat(n, k - 1) + rest;
      if a[0] == b[0] && Subsequence(a[1..], b[1..]) {
        var i := SplitFirst(a[1..], n, k - 1, rest);
        j := i + 1;
        assert a[..j] == [n] + a[1..][..i] && a[j..] == a[1..][i..];
      } else {
        j := SplitFirst(a, n, k - 1, rest);
      }
    }
  }

  lemma {:induction false} SentNumbers(ns: seq<Notice>, copies: seq<nat>, first: nat, n: Notice)
    requires |copies| == |ns| && Numbered(ns, first) && n in Sent(ns, copies)
    ensures n.id >= first
  {
    var head, tail := Repeat(ns[0], copies[0]), Sent(ns[1..], copies[1..]);
    if n in head {
      assert n == ns[0];
    } else {
      assert n in tail;
      SentNumbers(ns[1..], copies[1..], first + 1, n);
    }
  }

  lemma {:induction false} CopiesDelivered(last: nat, n: Notice, j: nat, rest: seq<Notice>)
    requires n.id != 0 && last <= n.id
    ensures Delivered(last, Repeat(n, j) + rest)
         == if j == 0 then Delivered(last, rest)
            else if last == n.id then Delivered(n.id, rest) else [n] + Delivered(n.id, rest)
    decreases j
  {
    if j == 0 {
      assert Repeat(n, 0) + rest == rest;
    } else {
      assert (Repeat(n, j) + rest)[1..] == Repeat(n, j - 1) + rest;
      CopiesDelivered(n.id, n, j - 1, rest);
    }
  }

  // ------------------------------------------------------------------ main results

  /** The notices of which at least one copy arrived, in publishing order. */
  function Arrived(ns: seq<Notice>, arrivals: seq<Notice>): seq<Notice>
  {
    if ns == [] then []
    else (if ns[0] in arrivals then [ns[0]] else []) + Arrived(ns[1..], arrivals)
  }

  lemma {:induction false} ArrivedLater(ns: seq<Notice>, n: Notice, j: nat, later: seq<Notice>)
    requires forall i | 0 <= i < |ns| :: ns[i] != n
    ensures Arrived(ns, Repeat(n, j) + later) == Arrived(ns, later)
  {
    if ns != [] {
      var all := Repeat(n, j) + later;
      assert ns[0] in all <==> ns[0] in later by {
        if ns[0] in later {
          var i :| 0 <= i < |later| && later[i] == ns[0];
          assert all[j + i] == ns[0];
        }
      }
      ArrivedLater(ns[1..], n, j, later);
    }
  }

  /** However many copies were sent and whichever of them were lost, the client hands on
      exactly the notices of which a copy arrived: each once, in publishing order. */
  lemma {:induction false} EachOnceInOrder(ns: seq<Notice>, copies: seq<nat>, first: nat, last: nat,
                                           arrivals: seq<Notice>)
    requires |copies| == |ns| && Numbered(ns, first) && last < first
    requires Subsequence(arrivals, Sent(ns, copies))
    ensures Delivered(last, arrivals) == Arrived(ns, arrivals)
    decreases |ns|
  {
    if ns != [] {
      var n, rest := ns[0], Sent(ns[1..], copies[1..]);
      var j := SplitFirst(arrivals, n, copies[0], rest);
      var later := arrivals[j..];
      assert arrivals == Repeat(n, j) + later;
      CopiesDelivered(last, n, j, later);
      ArrivedLater(ns[1..], n, j, later);
      NotLater(ns, copies, first, later);
      assert n in arrivals <==> j > 0 by {
        if j > 0 { assert arrivals[0] == n; }
      }
      EachOnceInOrder(ns[1..], copies[1..], first + 1, if j > 0 then n.id else last, later);
    }
  }

  /** The objects: whatever one thread has published through the server and whichever
      copies the channel has lost, the client has handed on exactly the notices of which a
      copy arrived, each once and in publishing order. */
  lemma HandedOnce(server: PubServer, client: QuoteApi)
    requires server.Valid() && client.Valid() && client.hasSpi
    requires Subsequence(client.arrivals, server.channel)
    ensures client.handed == Arrived(server.notices, client.arrivals)
  {
    EachOnceInOrder(server.notices, server.copies, 1, 0, client.arrivals);
  }

  lemma NotLater(ns: seq<Notice>, copies: seq<nat>, first: nat, later: seq<Notice>)
    requires ns != [] && |copies| == |ns| && Numbered(ns, first)
    requires Subsequence(later, Sent(ns[1..], copies[1..]))
    ensures ns[0] !in later
  {
    if ns[0] in later {
      SubsequenceIn(later, Sent(ns[1..], copies[1..]), ns[0]);
      SentNumbers(ns[1..], copies[1..], first + 1, ns[0]);
    }
  }

  // ------------------------------------------------------------------ when it works at all

  ghost predicate Distinct(ns: seq<Notice>) { forall i, j | 0 <= i < j < |ns| :: ns[i].id != ns[j].id }

  /** Notices with the same number arrive next to each other. */
  ghost predicate Grouped(ns: seq<Notice>) { forall i, j, k | 0 <= i < j < k < |ns| :: Between(ns, i, j, k) }

  predicate Between(ns: seq<Notice>, i: int, j: int, k: int)
    requires 0 <= i < j < k < |ns|
  { ns[i].id == ns[k].id ==> ns[j].id == ns[i].id }

  function Ids(ns: seq<Notice>): set<nat> { set i | 0 <= i < |ns| :: ns[i].id }

  lemma IdsMore(ns: seq<Notice>, n: Notice)
    ensures Ids(ns + [n]) == Ids(ns) + {n.id}
  {
    var m := ns + [n];
    forall x | x in Ids(ns) + {n.id} ensures x in Ids(m) {
      if x == n.id {
        assert m[|ns|].id == x;
      } else {
        var i :| 0 <= i < |ns| && ns[i].id == x;
        assert m[i].id == x;
      }
    }
  }

  lemma {:induction false} DeliveredIds(arrivals: seq<Notice>)
    requires forall i | 0 <= i < |arrivals| :: arrivals[i].id != 0
    ensures Ids(Delivered(0, arrivals)) == Ids(arrivals)
  {
    if arrivals != [] {
      var m := |arrivals| - 1;
      var front, d := arrivals[..m], Delivered(0, arrivals[..m]);
      LastArrival(arrivals);
      DeliveredIds(front);
      IdsMore(front, arrivals[m]);
      assert arrivals == front + [arrivals[m]];
      if m > 0 && arrivals[m - 1].id == arrivals[m].id {
        assert front[m - 1].id in Ids(front) && d + [] == d;
      } else {
        IdsMore(d, arrivals[m]);
      }
    }
  }

  /** One more arrival is dropped exactly when it has the number of the one before. */
  lemma LastArrival(arrivals: seq<Notice>)
    requires arrivals != [] && forall i | 0 <= i < |arrivals| :: arrivals[i].id != 0
    ensures var m := |arrivals| - 1;
      Delivered(0, arrivals) == Delivered(0, arrivals[..m])
        + if m > 0 && arrivals[m - 1].id == arrivals[m].id then [] else [arrivals[m]]
  {
    var m := |arrivals| - 1;
    assert arrivals == arrivals[..m] + [arrivals[m]];
    OneMoreArrival(arrivals[..m], arrivals[m]);
  }

  lemma OneMoreArrival(front: seq<Notice>, n: Notice)
    requires n.id != 0
    ensures Delivered(0, front + [n]) == Delivered(0, front) + if n.id == LastId(0, front) then [] else [n]
  {
    DeliveredAppend(0, front, [n]);
    DeliveredOne(LastId(0, front), n);
  }

  lemma DeliveredOne(last: nat, n: Notice)
    requires n.id != 0
    ensures Delivered(last, [n]) == if n.id == last then [] else [n]
  {
    assert Delivered(n.id, [n][1..]) == [];
  }

  /** For whatever arrives, as long as it is numbered, no notice is handed on twice if and
      only if equal numbers arrive next to each other. */
  lemma {:induction false} NoRepeatsIffGrouped(arrivals: seq<Notice>)
    requires forall i | 0 <= i < |arrivals| :: arrivals[i].id != 0
    ensures Distinct(Delivered(0, arrivals)) <==> Grouped(arrivals)
  {
    if arrivals != [] {
      var m := |arrivals| - 1;
      var front := arrivals[..m];
      LastArrival(arrivals);
      NoRepeatsIffGrouped(front);
      if m > 0 && arrivals[m - 1].id == arrivals[m].id {
        GroupedSame(arrivals);
        assert Delivered(0, front) + [] == Delivered(0, front);
      } else {
        GroupedNew(arrivals);
        DeliveredIds(front);
        DistinctMore(Delivered(0, front), arrivals[m]);
      }
    }
  }

  lemma GroupedFront(a: seq<Notice>)
    requires a != [] && Grouped(a)
    ensures Grouped(a[..|a| - 1])
  {
    var f := a[..|a| - 1];
    forall i, j, k | 0 <= i < j < k < |f| ensures Between(f, i, j, k) {
      assert Between(a, i, j, k);
    }
  }

  lemma GroupedSame(a: seq<Notice>)
    requires |a| > 1 && a[|a| - 2].id == a[|a| - 1].id
    ensures Grouped(a) <==> Grouped(a[..|a| - 1])
  {
    var f := a[..|a| - 1];
    if Grouped(a) { GroupedFront(a); }
    if Grouped(f) {
      forall i, j, k | 0 <= i < j < k < |a| ensures Between(a, i, j, k) {
        if k < |f| {
          assert Between(f, i, j, k);
        } else if j < |f| - 1 {
          assert Between(f, i, j, |f| - 1);
        }
      }
    }
  }

  lemma GroupedNew(a: seq<Notice>)
    requires a != [] && (|a| > 1 ==> a[|a| - 2].id != a[|a| - 1].id)
    ensures Grouped(a) <==> Grouped(a[..|a| - 1]) && a[|a| - 1].id !in Ids(a[..|a| - 1])
  {
    var f, m := a[..|a| - 1], |a| - 1;
    if Grouped(a) {
      GroupedFront(a);
      forall i | 0 <= i < m ensures f[i].id != a[m].id {
        assert i < m - 1 ==> Between(a, i, m - 1, m);
      }
    }
    if Grouped(f) && a[m].id !in Ids(f) {
      forall i, j, k | 0 <= i < j < k < |a| ensures Between(a, i, j, k) {
        assert f[i].id in Ids(f);
        assert k < m ==> Between(f, i, j, k);
      }
    }
  }

  lemma DistinctMore(d: seq<Notice>, x: Notice)
    ensures Distinct(d + [x]) <==> Distinct(d) && x.id !in Ids(d)
  {
    var e := d + [x];
    if Distinct(e) {
      forall i, j | 0 <= i < j < |d| ensures d[i].id != d[j].id {
        assert e[i].id != e[j].id;
      }
      forall j | 0 <= j < |d| ensures d[j].id != x.id {
        assert e[j].id != e[|d|].id;
      }
    }
    if Distinct(d) && x.id !in Ids(d) {
      forall i, j | 0 <= i < j < |e| ensures e[i].id != e[j].id {
        assert d[i].id in Ids(d);
      }
    }
  }

  /** Channel z holds the copies of x and those of y, each in order, in some interleaving:
      what two threads publishing at once can send. */
  ghost predicate Interleaved(x: seq<Notice>, y: seq<Notice>, z: seq<Notice>)
    decreases |z|
  {
    if z == [] then x == [] && y == []
    else
      || (x != [] && x[0] == z[0] && Interleaved(x[1..], y, z[1..]))
      || (y != [] && y[0] == z[0] && Interleaved(x, y[1..], z[1..]))
  }

  function Alternating(a: Notice, b: Notice, k: nat): seq<Notice>
  { if k == 0 then [] else [a, b] + Alternating(a, b, k - 1) }

  lemma {:induction false} AlternatingIsInterleaved(a: Notice, b: Notice, k: nat)
    ensures Interleaved(Repeat(a, k), Repeat(b, k), Alternating(a, b, k))
  {
    if k > 0 {
      var z := Alternating(a, b, k);
      AlternatingIsInterleaved(a, b, k - 1);
      assert Repeat(a, k)[1..] == Repeat(a, k - 1) && Repeat(b, k)[1..] == Repeat(b, k - 1);
      assert z[1..][1..] == Alternating(a, b, k - 1);
      assert Interleaved(Repeat(a, k - 1), Repeat(b, k), z[1..]);
    }
  }

  lemma {:induction false} AlternatingDelivered(a: Notice, b: Notice, k: nat, last: nat)
    requires a.id != 0 && b.id != 0 && a.id != b.id && last != a.id
    ensures Delivered(last, Alternating(a, b, k)) == Alternating(a, b, k)
    decreases k
  {
    if k > 0 {
      var z := Alternating(a, b, k);
      AlternatingDelivered(a, b, k - 1, b.id);
      assert z[1..][1..] == Alternating(a, b, k - 1) && z[1..][0] == b;
      assert Delivered(a.id, z[1..]) == [b] + Delivered(b.id, z[1..][1..]);
    }
  }

  /** Two threads publishing at once can interleave their three copies; then, even if
      nothing is lost, the client hands each notice on three times. */
  lemma InterleavedRepeats(a: Notice, b: Notice) returns (channel: seq<Notice>)
    requires a.id != 0 && b.id != 0 && a.id != b.id
    ensures Interleaved(Repeat(a, RETRY_COUNT), Repeat(b, RETRY_COUNT), channel)
    ensures Delivered(0, channel) == channel == [a, b, a, b, a, b] && !Distinct(channel)
  {
    channel := Alternating(a, b, RETRY_COUNT);
    AlternatingIsInterleaved(a, b, RETRY_COUNT);
    AlternatingDelivered(a, b, RETRY_COUNT, 0);
    assert Alternating(a, b, 1) == [a, b] + Alternating(a, b, 0);
    assert Alternating(a, b, 2) == [a, b] + Alternating(a, b, 1);
    assert channel == [a, b] + Alternating(a, b, 2);
    assert channel[0].id == channel[2].id;
  }
}
