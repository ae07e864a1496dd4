/** The output side of a TCP connection on its loop thread. `Conn` is what the handlers do
    to the connection as a value, with the kernel choosing every short write; the class
    does the same on fields and an output buffer. Each handler runs to completion on the
    loop, so a run of the connection is a sequence of handler calls. */
module TcpConnection {
  import opened R = RingBuffer

  datatype Phase = Disconnected | Connecting | Connected | Disconnecting

  /** What a kernel write returns. `Reset` stands for EPIPE and ECONNRESET. */
  datatype WriteResult = Wrote(n: nat) | Reset | OtherError

  datatype Conn = Conn(
    phase: Phase,
    writing: bool,               // the channel's write interest
    output: seq<Byte>,           // the output buffer
    shut: bool,                  // the write side has been shut down
    shutdowns: nat,              // ShutdownInLoop calls on their way
    closes: nat,                 // ForceCloseInLoop calls on their way
    // history
    requested: bool,             // Shutdown took effect
    wire: seq<Byte>,             // bytes the kernel accepted
    accepted: seq<Byte>)         // bytes of messages that SendInLoop took on

  // ------------------------------------------------------------------ the handlers

  /** A kernel write of `len` bytes writes no more than that, and on a shut-down socket fails. */
  predicate Possible(c: Conn, len: nat, w: WriteResult)
  {
    if c.shut then w.Reset? else w.Wrote? ==> w.n <= len
  }

  function Buffered(c: Conn, rest: seq<Byte>): Conn
  {
    if rest == [] then c else c.(output := c.output + rest, writing := true)
  }

  function OnSend(c: Conn, data: seq<Byte>, w: WriteResult): Conn
    requires w.Wrote? ==> w.n <= |data|
  {
    if c.phase.Disconnected? then c
    else if !c.writing && c.output == [] then
      match w
      case Wrote(n) => Buffered(c.(wire := c.wire + data[..n], accepted := c.accepted + data), data[n..])
      case Reset => c                                                     // dropped whole
      case OtherError => Buffered(c.(accepted := c.accepted + data), data)
    else Buffered(c.(accepted := c.accepted + data), data)
  }

  function OnShutdown(c: Conn): Conn
  {
    if c.phase.Connected? then c.(phase := Disconnecting, requested := true, shutdowns := c.shutdowns + 1) else c
  }

  /** The body of ShutdownInLoop. */
  function ShutdownNow(c: Conn): Conn { if c.writing then c else c.(shut := true) }

  function OnShutdownInLoop(c: Conn): Conn
    requires c.shutdowns > 0
  { ShutdownNow(c.(shutdowns := c.shutdowns - 1)) }

  function OnWritable(c: Conn, w: WriteResult): Conn
    requires w.Wrote? ==> w.n <= |c.output|
  {
    if !c.writing || !w.Wrote? || w.n == 0 then c
    else
      var c' := c.(wire := c.wire + c.output[..w.n], output := c.output[w.n..]);
      if c'.output != [] then c'
      else if c.phase.Disconnecting? then ShutdownNow(c'.(writing := false))
      else c'.(writing := false)
  }

  /** HandleClose. */
  function Closed(c: Conn): Conn { c.(phase := Disconnected, writing := false) }

  function OnForceClose(c: Conn): Conn
  {
    if c.phase.Connected? || c.phase.Disconnecting? then c.(phase := Disconnecting, closes := c.closes + 1) else c
  }

  function OnForceCloseInLoop(c: Conn): Conn
    requires c.closes > 0
  {
    var c' := c.(closes := c.closes - 1);
    if c.phase.Connected? || c.phase.Disconnecting? then Closed(c') else c'
  }

  /** ConnectDestroyed. */
  function OnDestroyed(c: Conn): Conn { if c.phase.Connected? then Closed(c) else c }

  datatype Event =
    | Established
    | Send(data: seq<Byte>, w: WriteResult)
    | Writable(w: WriteResult)
    | Shutdown
    | ShutdownInLoop
    | ForceClose
    | ForceCloseInLoop
    | PeerClosed
    | Destroyed

  predicate Enabled(c: Conn, e: Event)
  {
    match e
    case Established => c.phase.Connecting?
    case Send(data, w) => !c.phase.Connecting? && (w.Wrote? ==> w.n <= |data|) && Possible(c, |data|, w)
    case Writable(w) => (w.Wrote? ==> w.n <= |c.output|) && Possible(c, |c.output|, w)
    case ShutdownInLoop => c.shutdowns > 0
    case ForceCloseInLoop => c.closes > 0
    case PeerClosed => c.phase.Connected? || c.phase.Disconnecting?
    case _ => true
  }

  function Handle(c: Conn, e: Event): Conn
    requires Enabled(c, e)
  {
    match e
    case Established => c.(phase := Connected)
    case Send(data, w) => OnSend(c, data, w)
    case Writable(w) => OnWritable(c, w)
    case Shutdown => OnShutdown(c)
    case ShutdownInLoop => OnShutdownInLoop(c)
    case ForceClose => OnForceClose(c)
    case ForceCloseInLoop => OnForceCloseInLoop(c)
    case PeerClosed => Closed(c)
    case Destroyed => OnDestroyed(c)
  }

  const START := Conn(Connecting, false, [], false, 0, 0, false, [], [])

  /** Handler calls one after the other. */
  ghost predicate Run(tr: seq<Conn>, es: seq<Event>)
  {
    && |tr| == |es| + 1 && tr[0] == START
    && forall i | 0 <= i < |es| :: Enabled(tr[i], es[i]) && tr[i + 1] == Handle(tr[i], es[i])
  }

  // ------------------------------------------------------------------ the invariant

  /** Until it is closed, the connection watches for writability exactly while it has
      output, and has none once shut down; a shutdown that was asked for has been done,
      is on its way, or waits for the output to drain. */
  predicate Inv(c: Conn)
  {
    && c.wire + c.output == c.accepted
    && (c.phase.Disconnected? ==> !c.writing)
    && (!c.phase.Disconnected? ==> (c.writing <==> c.output != []))
    && (c.shut && !c.phase.Disconnected? ==> c.output == [])
    && (c.requested ==> !c.phase.Connecting? && !c.phase.Connected?)
    && (c.shutdowns > 0 ==> c.requested)
    && (c.requested && c.phase.Disconnecting? && c.shutdowns == 0 ==> c.shut || c.output != [])
    && (c.phase.Connecting? ==> c.output == [] && c.accepted == [] && !c.shut && c.closes == 0)
    && (c.phase.Connected? ==> !c.shut)
  }

  lemma SendKeeps(c: Conn, data: seq<Byte>, w: WriteResult)
    requires Inv(c) && Enabled(c, Send(data, w))
    ensures Inv(OnSend(c, data, w))
  {
    if !c.phase.Disconnected? {
      if w.Wrote? && !c.writing && c.output == [] {
        assert c.wire + [] == c.wire;
        assert data[..w.n] + data[w.n..] == data;
        assert (c.wire + data[..w.n]) + data[w.n..] == c.wire + (data[..w.n] + data[w.n..]);
        assert c.output + data[w.n..] == data[w.n..];
      } else {
        assert c.wire + (c.output + data) == (c.wire + c.output) + data;
        if data == [] { assert c.accepted + data == c.accepted; }
      }
    }
  }

  lemma WritableKeeps(c: Conn, w: WriteResult)
    requires Inv(c) && Enabled(c, Writable(w))
    ensures Inv(OnWritable(c, w))
  {
    if c.writing && w.Wrote? && w.n > 0 {
      assert c.output == c.output[..w.n] + c.output[w.n..];
      assert (c.wire + c.output[..w.n]) + c.output[w.n..] == c.wire + (c.output[..w.n] + c.output[w.n..]);
    }
  }

  lemma HandleKeeps(c: Conn, e: Event)
    requires Inv(c) && Enabled(c, e)
    ensures Inv(Handle(c, e))
  {
    match e
    case Send(data, w) => SendKeeps(c, data, w);
    case Writable(w) => WritableKeeps(c, w);
    case _ =>
  }

  lemma {:induction false} Reachable(tr: seq<Conn>, es: seq<Event>, i: nat)
    requires Run(tr, es) && i < |tr|
    ensures Inv(tr[i])
  {
    if i > 0 {
      Reachable(tr, es, i - 1);
      HandleKeeps(tr[i - 1], es[i - 1]);
    }
  }

  // ------------------------------------------------------------------ main results

  /** Nothing accepted is lost, repeated or reordered between the messages and the wire,
      over any sends, short writes and errors. */
  lemma OutputConserved(tr: seq<Conn>, es: seq<Event>, i: nat)
    requires Run(tr, es) && i < |tr|
    ensures tr[i].wire + tr[i].output == tr[i].accepted
    ensures !tr[i].phase.Disconnected? ==> (tr[i].writing <==> tr[i].output != [])
  {
    Reachable(tr, es, i);
  }

  /** A message is dropped whole when the connection is closed, or when nothing was pending
      and the kernel reported a reset; otherwise it is taken on. */
  predicate TakesOn(c: Conn, e: Event)
  {
    e.Send? && !c.phase.Disconnected? && (c.output != [] || !e.w.Reset?)
  }

  /** The messages taken on so far, end to end. */
  function Taken(tr: seq<Conn>, es: seq<Event>, i: nat): seq<Byte>
    requires |tr| == |es| + 1 && i <= |es|
  {
    if i == 0 then []
    else if TakesOn(tr[i - 1], es[i - 1]) then Taken(tr, es, i - 1) + es[i - 1].data
    else Taken(tr, es, i - 1)
  }

  lemma AcceptedStep(c: Conn, e: Event)
    requires Inv(c) && Enabled(c, e)
    ensures Handle(c, e).accepted == if TakesOn(c, e) then c.accepted + e.data else c.accepted
  {}

  /** `accepted` is the concatenation of the messages that were not dropped. */
  lemma {:induction false} AcceptedIsTaken(tr: seq<Conn>, es: seq<Event>, i: nat)
    requires Run(tr, es) && i < |tr|
    ensures tr[i].accepted == Taken(tr, es, i)
  {
    if i > 0 {
      AcceptedIsTaken(tr, es, i - 1);
      Reachable(tr, es, i - 1);
      AcceptedStep(tr[i - 1], es[i - 1]);
    }
  }

  /** Whenever the write side is shut down, every byte accepted so far is on the wire,
      except exactly when the connection was closed before with output pending. */
  lemma ShutdownAfterFlush(tr: seq<Conn>, es: seq<Event>, i: nat)
    requires Run(tr, es) && i < |es| && !tr[i].shut && tr[i + 1].shut
    ensures tr[i + 1].wire == tr[i + 1].accepted <==> !(tr[i].phase.Disconnected? && tr[i].output != [])
  {
    Reachable(tr, es, i);
    Reachable(tr, es, i + 1);
    var c := tr[i + 1];
    if c.output == [] { assert c.wire + [] == c.wire; }
  }

  /** Once shut down, the wire never changes again. */
  lemma {:induction false} WireFinal(tr: seq<Conn>, es: seq<Event>, i: nat, j: nat)
    requires Run(tr, es) && i <= j < |tr| && tr[i].shut
    ensures tr[j].shut && tr[j].wire == tr[i].wire
  {
    if i < j {
      WireFinal(tr, es, i, j - 1);
      assert Enabled(tr[j - 1], es[j - 1]);
    }
  }

  /** The failing family exists: data is pending, the peer closes, and a shutdown asked
      for on another thread then runs on the closed connection. */
  lemma ShutdownAfterClose() returns (tr: seq<Conn>, es: seq<Event>)
    ensures Run(tr, es) && |es| == 5 && !tr[4].shut && tr[5].shut && tr[5].wire != tr[5].accepted
  {
    es := [Established, Send([1], OtherError), Shutdown, PeerClosed, ShutdownInLoop];
    var c1 := START.(phase := Connected);
    var c2 := c1.(output := [1], writing := true, accepted := [1]);
    var c3 := c2.(phase := Disconnecting, requested := true, shutdowns := 1);
    var c4 := c3.(phase := Disconnected, writing := false);
    var c5 := c4.(shutdowns := 0, shut := true);
    tr := [START, c1, c2, c3, c4, c5];
    PendingSend(c1, c2);
    assert Handle(c2, Shutdown) == c3 && Handle(c3, PeerClosed) == c4 && Handle(c4, ShutdownInLoop) == c5;
  }

  lemma PendingSend(c: Conn, c': Conn)
    requires c.phase.Connected? && !c.writing && c.output == [] && c.accepted == [] && !c.shut
    requires c' == c.(output := [1], writing := true, accepted := [1])
    ensures Enabled(c, Send([1], OtherError)) && OnSend(c, [1], OtherError) == c'
  {}

  /** A shutdown asked for while output is pending is done by the write that drains it,
      unless the connection closes first. */
  lemma DrainShutsDown(tr: seq<Conn>, es: seq<Event>, i: nat)
    requires Run(tr, es) && i < |es| && tr[i].requested && tr[i].phase.Disconnecting? && tr[i].output != []
    requires tr[i + 1].output == []
    ensures es[i].Writable? && tr[i + 1].shut && tr[i + 1].wire == tr[i].accepted
  {
    Reachable(tr, es, i);
    Reachable(tr, es, i + 1);
    var c := tr[i + 1];
    assert Enabled(tr[i], es[i]);
    assert c.wire + [] == c.wire;
  }

  /** Once asked for, the shutdown has happened, has a call on its way, or waits for
      pending output, until the connection closes. */
  lemma ShutdownNotForgotten(tr: seq<Conn>, es: seq<Event>, i: nat)
    requires Run(tr, es) && i < |tr| && tr[i].requested && !tr[i].phase.Disconnected?
    ensures tr[i].shut || tr[i].shutdowns > 0 || (tr[i].writing && tr[i].output != [])
  {
    Reachable(tr, es, i);
  }

  /** The bytes that the kernel took in one handler call: of a message sent with nothing
      pending, or of the pending output. */
  function Took(c: Conn, e: Event): seq<Byte>
    requires Enabled(c, e)
  {
    match e
    case Send(data, Wrote(n)) => if !c.phase.Disconnected? && c.output == [] then data[..n] else []
    case Writable(Wrote(n)) => if !c.phase.Disconnected? then c.output[..n] else []
    case _ => []
  }

  function TookAll(tr: seq<Conn>, es: seq<Event>, i: nat): seq<Byte>
    requires |tr| == |es| + 1 && i <= |es| && forall k | 0 <= k < i :: Enabled(tr[k], es[k])
  { if i == 0 then [] else TookAll(tr, es, i - 1) + Took(tr[i - 1], es[i - 1]) }

  lemma WireStep(c: Conn, e: Event)
    requires Inv(c) && Enabled(c, e)
    ensures Handle(c, e).wire == c.wire + Took(c, e)
  {
    assert c.wire + [] == c.wire;
    if e.Writable? && e.w.Wrote? && e.w.n == 0 { assert c.output[..0] == []; }
  }

  /** The wire is exactly what the kernel took, call after call. */
  lemma {:induction false} WireIsTaken(tr: seq<Conn>, es: seq<Event>, i: nat)
    requires Run(tr, es) && i < |tr|
    ensures tr[i].wire == TookAll(tr, es, i)
  {
    if i > 0 {
      WireIsTaken(tr, es, i - 1);
      Reachable(tr, es, i - 1);
      WireStep(tr[i - 1], es[i - 1]);
    }
  }

  // ------------------------------------------------------------------ opening and closing

  predicate Open(p: Phase) { p.Connected? || p.Disconnecting? }

  /** What each call does to the phase, whatever was called before. */
  lemma PhaseMoves(tr: seq<Conn>, es: seq<Event>, i: nat)
    requires Run(tr, es) && i < |es|
    ensures es[i].Established? ==> tr[i + 1].phase.Connected?
    ensures es[i].PeerClosed? || es[i].ForceCloseInLoop? ==> tr[i + 1].phase.Disconnected? && !tr[i + 1].writing
    ensures es[i].Destroyed? && tr[i].phase.Connected? ==> tr[i + 1].phase.Disconnected? && !tr[i + 1].writing
    ensures es[i].Shutdown? && tr[i].phase.Connected? ==>
      tr[i + 1].phase.Disconnecting? && tr[i + 1].requested && tr[i + 1].shutdowns > 0
    ensures es[i].ForceClose? && Open(tr[i].phase) ==> tr[i + 1].phase.Disconnecting? && tr[i + 1].closes > 0
    ensures es[i].ShutdownInLoop? && tr[i].output == [] ==> tr[i + 1].shut
    ensures es[i].Send? || es[i].Writable? || es[i].ShutdownInLoop? ==> tr[i + 1].phase == tr[i].phase
    ensures tr[i].phase.Disconnected? ==> tr[i + 1].phase.Disconnected?
    ensures tr[i].phase.Disconnecting? ==> tr[i + 1].phase.Disconnecting? || tr[i + 1].phase.Disconnected?
  {
    Reachable(tr, es, i);
    assert Enabled(tr[i], es[i]);
  }

  lemma CloseWaits(c: Conn, e: Event)
    requires Enabled(c, e) && c.closes > 0 && !e.ForceCloseInLoop?
    ensures Handle(c, e).closes > 0
  {}

  /** A close that was asked for on an open connection is never forgotten: the call that
      does it stays on its way until the connection is closed. */
  lemma {:induction false} CloseNotForgotten(tr: seq<Conn>, es: seq<Event>, j: nat, i: nat)
    requires Run(tr, es) && j < i < |tr| && es[j].ForceClose? && Open(tr[j].phase)
    ensures tr[i].phase.Disconnected? || (tr[i].phase.Disconnecting? && tr[i].closes > 0)
  {
    if i == j + 1 {
      PhaseMoves(tr, es, j);
    } else {
      CloseNotForgotten(tr, es, j, i - 1);
      PhaseMoves(tr, es, i - 1);
      if tr[i - 1].closes > 0 && !es[i - 1].ForceCloseInLoop? { CloseWaits(tr[i - 1], es[i - 1]); }
    }
  }

  /** Once closed, a connection stays closed, watches for nothing and takes on nothing. */
  lemma {:induction false} ClosedForGood(tr: seq<Conn>, es: seq<Event>, j: nat, i: nat)
    requires Run(tr, es) && j <= i < |tr| && tr[j].phase.Disconnected?
    ensures tr[i].phase.Disconnected? && !tr[i].writing
    ensures tr[i].wire == tr[j].wire && tr[i].accepted == tr[j].accepted
  {
    Reachable(tr, es, i);
    if j < i {
      ClosedForGood(tr, es, j, i - 1);
      PhaseMoves(tr, es, i - 1);
      Reachable(tr, es, i - 1);
      AcceptedStep(tr[i - 1], es[i - 1]);
      WireStep(tr[i - 1], es[i - 1]);
      assert tr[i - 1].wire + [] == tr[i - 1].wire;
    }
  }

  // ------------------------------------------------------------------ the connection as an object

  lemma RunOn(tr: seq<Conn>, es: seq<Event>, e: Event)
    requires Run(tr, es) && Enabled(tr[|es|], e)
    ensures Run(tr + [Handle(tr[|es|], e)], es + [e])
  {
    var tr', es' := tr + [Handle(tr[|es|], e)], es + [e];
    forall i | 0 <= i < |es'| ensures Enabled(tr'[i], es'[i]) && tr'[i + 1] == Handle(tr'[i], es'[i]) {
      if i < |es| { assert Enabled(tr[i], es[i]) && tr[i + 1] == Handle(tr[i], es[i]); }
    }
  }

  /** The connection itself. The kernel's answers are parameters; calls posted to the loop
      are counted, and run as ShutdownInLoop and ForceCloseInLoop. `Valid` says that the
      fields are the last state of a run, whose events are the calls made so far. */
  class TcpConnection {
    var phase: Phase
    var writing: bool
    const output: RingBuffer
    var shut: bool
    var shutdowns: nat
    var closes: nat
    ghost var requested: bool
    ghost var wire: seq<Byte>
    ghost var accepted: seq<Byte>
    ghost var states: seq<Conn>
    ghost var events: seq<Event>

    ghost function Fields(): Conn
      reads this, output, output.buffer
      requires output.Valid()
    { Conn(phase, writing, output.Contents(), shut, shutdowns, closes, requested, wire, accepted) }

    ghost predicate Valid()
      reads this, output, output.buffer
    { output.Valid() && Run(states, events) && states[|events|] == Fields() }

    /** What the connection is at this point of the run. */
    ghost function View(): Conn
      reads this, output, output.buffer
      requires Valid()
    { states[|events|] }

    /** Whatever calls have been made: nothing accepted is lost, repeated or reordered;
        until close, writability is watched exactly while output is pending; and none is
        pending once the write side is shut down. */
    lemma Promises()
      requires Valid()
      ensures wire + output.Contents() == accepted == Taken(states, events, |events|)
      ensures phase != Disconnected ==> (writing <==> output.Contents() != [])
      ensures shut && phase != Disconnected ==> output.Contents() == [] && wire == accepted
      ensures (forall k | 0 <= k < |events| :: Enabled(states[k], events[k]))
              && wire == TookAll(states, events, |events|)
    {
      WireIsTaken(states, events, |events|);
      Reachable(states, events, |events|);
      AcceptedIsTaken(states, events, |events|);
      if output.Contents() == [] { assert wire + [] == wire; }
    }

    constructor ()
      ensures Valid() && fresh(output) && fresh(output.buffer) && events == [] && View() == START
    {
      var out := new RingBuffer(1024);
      output := out;
      phase, writing, shut, shutdowns, closes := Connecting, false, false, 0, 0;
      requested, wire, accepted := false, [], [];
      states, events := [START], [];
    }

    /** The call is recorded as the next event of the run. */
    ghost method Record(e: Event)
      requires Run(states, events) && Enabled(states[|events|], e)
      modifies this`states, this`events
      ensures events == old(events) + [e] && states == old(states) + [Handle(old(states[|events|]), e)]
      ensures Run(states, events)
    {
      RunOn(states, events, e);
      states, events := states + [Handle(states[|events|], e)], events + [e];
    }

    method ConnectEstablished()
      requires Valid() && phase == Connecting
      modifies this
      ensures Valid() && events == old(events) + [Established] && states == old(states) + [View()]
      ensures phase == Connected
    {
      phase := Connected;
      Record(Established);
    }

    method SendInLoop(data: seq<Byte>, w: WriteResult)
      requires Valid() && Enabled(View(), Send(data, w))
      modifies this, output, output.buffer
      ensures fresh(output.buffer) || output.buffer == old(output.buffer)
      ensures Valid() && events == old(events) + [Send(data, w)] && states == old(states) + [View()]
    {
      if phase != Disconnected {
        Transmit(data, w);
      }
      Record(Send(data, w));
    }

    /** Writes at once if nothing is pending, and buffers the rest. */
    method Transmit(data: seq<Byte>, w: WriteResult)
      requires output.Valid() && phase != Disconnected && (w.Wrote? ==> w.n <= |data|)
      modifies this`writing, this`wire, this`accepted, output, output.buffer
      ensures output.Valid() && (fresh(output.buffer) || output.buffer == old(output.buffer))
      ensures Fields() == OnSend(old(Fields()), data, w)
    {
      var nwrote, remaining, faultError := 0, |data|, false;
      if !writing && output.ReadableBytes() == 0 {
        match w
        case Wrote(n) =>
          nwrote, remaining := n, |data| - n;
          wire := wire + data[..n];
        case Reset => faultError := true;
        case OtherError =>
      }
      if !faultError {
        accepted := accepted + data;
        if remaining > 0 {
          Buffer(data[nwrote..]);
        }
      }
    }

    /** What is left of a message goes to the output buffer. */
    method Buffer(rest: seq<Byte>)
      requires output.Valid() && rest != []
      modifies this`writing, output, output.buffer
      ensures output.Valid() && (fresh(output.buffer) || output.buffer == old(output.buffer))
      ensures output.Contents() == old(output.Contents()) + rest && writing
    {
      output.Append(rest);
      if !writing {
        writing := true;
      }
    }

    method HandleWrite(w: WriteResult)
      requires Valid() && Enabled(View(), Writable(w))
      modifies this, output`readIndex, output`writeIndex
      ensures Valid() && events == old(events) + [Writable(w)] && states == old(states) + [View()]
      ensures shut && !old(shut) ==> wire == accepted
    {
      Drain(w);
      Record(Writable(w));
      Reachable(states, events, |events|);
      if output.Contents() == [] { assert wire + [] == wire; }
    }

    method Drain(w: WriteResult)
      requires output.Valid() && (w.Wrote? ==> w.n <= output.ReadableBytes())
      modifies this`wire, this`writing, this`shut, output`readIndex, output`writeIndex
      ensures output.Valid() && Fields() == OnWritable(old(Fields()), w)
    {
      if writing && w.Wrote? && w.n > 0 {
        wire := wire + output.Contents()[..w.n];
        output.Retrieve(w.n);
        if output.ReadableBytes() == 0 {
          writing := false;
          if phase == Disconnecting {
            ShutdownWrite();
          }
        }
      }
    }

    method Shutdown()
      requires Valid()
      modifies this
      ensures Valid() && events == old(events) + [Event.Shutdown] && states == old(states) + [View()]
      ensures old(phase) == Connected ==> phase == Disconnecting && requested && shutdowns == old(shutdowns) + 1
      ensures old(phase) != Connected ==> phase == old(phase) && shutdowns == old(shutdowns)
    {
      if phase == Connected {
        phase := Disconnecting;
        requested := true;
        shutdowns := shutdowns + 1;
      }
      Record(Event.Shutdown);
    }

    /** The test and system call shared by ShutdownInLoop's two callers. */
    method ShutdownWrite()
      modifies this`shut
      ensures shut == (old(shut) || !writing)
    {
      if !writing {
        shut := true;
      }
    }

    method ShutdownInLoop()
      requires Valid() && shutdowns > 0
      modifies this
      ensures Valid() && events == old(events) + [Event.ShutdownInLoop] && states == old(states) + [View()]
      ensures shut && !old(shut) && phase != Disconnected ==> wire == accepted
    {
      shutdowns := shutdowns - 1;
      ShutdownWrite();
      Record(Event.ShutdownInLoop);
      Promises();
    }

    method HandleClose()
      requires Valid() && (phase == Connected || phase == Disconnecting)
      modifies this
      ensures Valid() && events == old(events) + [PeerClosed] && states == old(states) + [View()]
      ensures output.Contents() == old(output.Contents())
      ensures phase == Disconnected && !writing
    {
      Close();
      Record(PeerClosed);
    }

    /** The body of HandleClose, shared with ForceCloseInLoop. */
    method Close()
      modifies this`phase, this`writing
      ensures phase == Disconnected && !writing
    {
      phase := Disconnected;
      writing := false;
    }

    method ForceClose()
      requires Valid()
      modifies this
      ensures Valid() && events == old(events) + [Event.ForceClose] && states == old(states) + [View()]
      ensures Open(old(phase)) ==> phase == Disconnecting && closes == old(closes) + 1
      ensures !Open(old(phase)) ==> phase == old(phase) && closes == old(closes)
    {
      if phase == Connected || phase == Disconnecting {
        phase := Disconnecting;
        closes := closes + 1;
      }
      Record(Event.ForceClose);
    }

    method ForceCloseInLoop()
      requires Valid() && closes > 0
      modifies this
      ensures Valid() && events == old(events) + [Event.ForceCloseInLoop] && states == old(states) + [View()]
      ensures phase == Disconnected && !writing
    {
      closes := closes - 1;
      if phase == Connected || phase == Disconnecting {
        Close();
      }
      Record(Event.ForceCloseInLoop);
      PhaseMoves(states, events, |events| - 1);
    }

    method ConnectDestroyed()
      requires Valid()
      modifies this
      ensures Valid() && events == old(events) + [Destroyed] && states == old(states) + [View()]
      ensures old(phase) == Connected ==> phase == Disconnected && !writing
    {
      if phase == Connected {
        phase := Disconnected;
        writing := false;
      }
      Record(Destroyed);
    }
  }
}
