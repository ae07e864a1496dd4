/** The gateway's length-prefixed packets. `Parse` is what a byte stream means; the codec's
    loop over the receive buffer computes it, whatever pieces the stream arrives in, and
    printing packets is its inverse exactly for bodies that fit the length limit. */
module Codec {
  import opened R = RingBuffer

  const HEADER_LENGTH := 12
  const MAX_LENGTH := 65536          // 64 KiB, the whole packet
  const WORD := 0x1_0000_0000        // range of the 32-bit fields

  type U32 = x: int | 0 <= x < 0x1_0000_0000
  type U16 = x: int | 0 <= x < 0x1_0000

  datatype Header = Header(length: U32, cmd: U16, flag: U16, seqNo: U32)
  datatype Packet = Packet(header: Header, body: seq<Byte>)

  // ------------------------------------------------------------------ the packed header

  /** Byte i of a little-endian word, as the packed struct lies in memory. */
  function Byte32(x: U32, i: nat): Byte
    requires i < 4
  {
    if i == 0 then x % 256 else if i == 1 then x / 256 % 256 else if i == 2 then x / 65536 % 256 else x / 16777216
  }

  function Word32(b: seq<Byte>, i: nat): U32
    requires i + 4 <= |b|
  { b[i] as int + 256 * (b[i + 1] as int) + 65536 * (b[i + 2] as int) + 16777216 * (b[i + 3] as int) }

  function Word16(b: seq<Byte>, i: nat): U16
    requires i + 2 <= |b|
  { b[i] as int + 256 * (b[i + 1] as int) }

  function HeaderBytes(h: Header): (b: seq<Byte>)
    ensures |b| == HEADER_LENGTH
  {
    [Byte32(h.length, 0), Byte32(h.length, 1), Byte32(h.length, 2), Byte32(h.length, 3),
     h.cmd % 256, h.cmd / 256, h.flag % 256, h.flag / 256,
     Byte32(h.seqNo, 0), Byte32(h.seqNo, 1), Byte32(h.seqNo, 2), Byte32(h.seqNo, 3)]
  }

  function ReadHeader(b: seq<Byte>): Header
    requires |b| >= HEADER_LENGTH
  { Header(Word32(b, 0), Word16(b, 4), Word16(b, 6), Word32(b, 8)) }

  lemma Word32Bytes(x: U32)
    ensures Byte32(x, 0) as int + 256 * (Byte32(x, 1) as int) + 65536 * (Byte32(x, 2) as int)
          + 16777216 * (Byte32(x, 3) as int) == x
  {
    var q := x / 256;
    var r := q / 256;
    assert x == 256 * q + x % 256 && q == 256 * r + q % 256;
    assert x / 65536 == r && x / 16777216 == r / 256;
  }

  lemma HeaderRoundTrip(h: Header, rest: seq<Byte>)
    ensures ReadHeader(HeaderBytes(h) + rest) == h
  {
    Word32Bytes(h.length);
    Word32Bytes(h.seqNo);
  }

  /** The bytes of the packed struct, least significant byte of each field first: length,
      command, flag, sequence number. */
  lemma HeaderLayout(h: Header)
    ensures var b := HeaderBytes(h);
      && |b| == 12
      && b[0] as int + 256 * (b[1] as int) + 65536 * (b[2] as int) + 16777216 * (b[3] as int) == h.length
      && b[4] as int + 256 * (b[5] as int) == h.cmd && b[6] as int + 256 * (b[7] as int) == h.flag
      && b[8] as int + 256 * (b[9] as int) + 65536 * (b[10] as int) + 16777216 * (b[11] as int) == h.seqNo
  {
    Word32Bytes(h.length);
    Word32Bytes(h.seqNo);
  }

  // ------------------------------------------------------------------ printing

  /** `Codec::Encode`: the length field is computed in 32 bits. */
  function Encode(cmd: U16, seqNo: U32, data: seq<Byte>): Packet
  { Packet(Header((HEADER_LENGTH + |data|) % WORD, cmd, 0, seqNo), data) }

  function Wire(p: Packet): (b: seq<Byte>)
    ensures |b| == HEADER_LENGTH + |p.body|
  { HeaderBytes(p.header) + p.body }

  function WireAll(ps: seq<Packet>): seq<Byte>
  { if ps == [] then [] else Wire(ps[0]) + WireAll(ps[1..]) }

  /** The header's length is the packet's size, and within the limit. */
  predicate Fits(p: Packet) { p.header.length == HEADER_LENGTH + |p.body| <= MAX_LENGTH }

  // ------------------------------------------------------------------ parsing

  datatype Outcome =
    | NeedMore      // the rest is an incomplete packet
    | TooLong       // a header over the limit: the connection is closed
    | Stuck         // a header of length zero: the loop never gets past it

  datatype Parsed = Parsed(packets: seq<Packet>, rest: seq<Byte>, outcome: Outcome)

  /** The packet that the loop takes from bytes whose header says `length`. Lengths below
      the header size yield a packet without body. */
  function Take(b: seq<Byte>, length: nat): Packet
    requires |b| >= HEADER_LENGTH && |b| >= length
  {
    Packet(ReadHeader(b), if length > HEADER_LENGTH then b[HEADER_LENGTH..length] else [])
  }

  function Parse(b: seq<Byte>): Parsed
    decreases |b|
  {
    if |b| < HEADER_LENGTH then Parsed([], b, NeedMore)
    else
      var length := ReadHeader(b).length;
      if length > MAX_LENGTH then Parsed([], b, TooLong)
      else if length == 0 then Parsed([], b, Stuck)
      else if |b| < length then Parsed([], b, NeedMore)
      else
        var more := Parse(b[length..]);
        more.(packets := [Take(b, length)] + more.packets)
  }

  /** Packets already delivered, then the result of parsing on. */
  function Then(ps: seq<Packet>, r: Parsed): Parsed { r.(packets := ps + r.packets) }

  lemma ThenThen(ps: seq<Packet>, qs: seq<Packet>, r: Parsed)
    ensures Then(ps, Then(qs, r)) == Then(ps + qs, r) && Then([], r) == r
  {
    assert ps + (qs + r.packets) == ps + qs + r.packets;
    assert [] + r.packets == r.packets;
  }

  /** A packet is complete at the front. */
  predicate Whole(b: seq<Byte>)
  {
    |b| >= HEADER_LENGTH && 0 < ReadHeader(b).length <= MAX_LENGTH && ReadHeader(b).length <= |b|
  }

  lemma ParseWhole(b: seq<Byte>)
    requires Whole(b)
    ensures var n := ReadHeader(b).length; Parse(b) == Then([Take(b, n)], Parse(b[n..]))
  {}

  // ------------------------------------------------------------------ what parsing means

  /** The length field of a header that begins at `from`. */
  function LengthAt(b: seq<Byte>, from: nat): int
    requires from + 12 <= |b|
  {
    b[from] as int + 256 * (b[from + 1] as int) + 65536 * (b[from + 2] as int) + 16777216 * (b[from + 3] as int)
  }

  /** Bytes from .. to are the packet p: at most 64 KiB, as many as its length field says,
      the body being what follows the twelve bytes of the header. */
  ghost predicate PacketAt(b: seq<Byte>, from: nat, to: nat, p: Packet)
  {
    && from + 12 <= |b| && to <= |b| && 0 < LengthAt(b, from) <= 65536 && to == from + LengthAt(b, from)
    && p.header.length == LengthAt(b, from)
    && p.header.cmd == b[from + 4] as int + 256 * (b[from + 5] as int)
    && p.header.flag == b[from + 6] as int + 256 * (b[from + 7] as int)
    && p.header.seqNo == b[from + 8] as int + 256 * (b[from + 9] as int) + 65536 * (b[from + 10] as int)
                         + 16777216 * (b[from + 11] as int)
    && p.body == if to > from + 12 then b[from + 12..to] else []
  }

  /** Why parsing ends at `from`: too few bytes for a header or for the packet it begins, a
      length over 64 KiB, or a length of zero. */
  ghost predicate EndsAt(b: seq<Byte>, from: nat, outcome: Outcome)
  {
    && from <= |b|
    && match outcome
       case NeedMore => |b| < from + 12 || (0 < LengthAt(b, from) <= 65536 && |b| < from + LengthAt(b, from))
       case TooLong => |b| >= from + 12 && LengthAt(b, from) > 65536
       case Stuck => |b| >= from + 12 && LengthAt(b, from) == 0
  }

  /** Packet i lies between cuts i and i + 1, and parsing ends at the last cut. */
  ghost predicate CutInto(b: seq<Byte>, p: Parsed, cuts: seq<nat>)
  {
    && |cuts| == |p.packets| + 1
    && (forall i | 0 <= i < |p.packets| :: PacketAt(b, cuts[i], cuts[i + 1], p.packets[i]))
    && EndsAt(b, cuts[|p.packets|], p.outcome) && p.rest == b[cuts[|p.packets|]..]
  }

  /** Parsing cuts any byte string, from its start, into packets end to end and a rest, and
      says why the rest is no packet. */
  lemma ParseMeans(b: seq<Byte>) returns (cuts: seq<nat>)
    ensures CutInto(b, Parse(b), cuts) && cuts[0] == 0
  {
    assert b[0..] == b;
    cuts := ParseMeansFrom(b, 0);
  }

  lemma {:induction false} ParseMeansFrom(b: seq<Byte>, from: nat) returns (cuts: seq<nat>)
    requires from <= |b|
    ensures CutInto(b, Parse(b[from..]), cuts) && cuts[0] == from
    decreases |b| - from
  {
    if Whole(b[from..]) {
      var to := from + ReadHeader(b[from..]).length;
      WholeAt(b, from, to);
      var more := ParseMeansFrom(b, to);
      cuts := [from] + more;
      CutBefore(b, from, to, Take(b[from..], to - from), Parse(b[to..]), more);
    } else {
      NothingAt(b, from);
      cuts := [from];
    }
  }

  lemma WholeAt(b: seq<Byte>, from: nat, to: nat)
    requires from <= |b| && Whole(b[from..]) && to == from + ReadHeader(b[from..]).length
    ensures from < to <= |b| && PacketAt(b, from, to, Take(b[from..], to - from))
    ensures Parse(b[from..]) == Then([Take(b[from..], to - from)], Parse(b[to..]))
  {
    var rest := b[from..];
    ParseWhole(rest);
    assert rest[to - from..] == b[to..];
    assert to > from + 12 ==> rest[12..to - from] == b[from + 12..to];
  }

  lemma NothingAt(b: seq<Byte>, from: nat)
    requires from <= |b| && !Whole(b[from..])
    ensures var p := Parse(b[from..]); p.packets == [] && p.rest == b[from..] && EndsAt(b, from, p.outcome)
  {}

  lemma CutBefore(b: seq<Byte>, from: nat, to: nat, p: Packet, more: Parsed, cuts: seq<nat>)
    requires PacketAt(b, from, to, p) && CutInto(b, more, cuts) && cuts[0] == to
    ensures CutInto(b, Then([p], more), [from] + cuts)
  {
    var all, cuts' := Then([p], more), [from] + cuts;
    forall i | 0 <= i < |all.packets| ensures PacketAt(b, cuts'[i], cuts'[i + 1], all.packets[i]) {
      if i > 0 { assert PacketAt(b, cuts[i - 1], cuts[i], more.packets[i - 1]); }
    }
  }

  // ------------------------------------------------------------------ the receive loop

  /** Where the loop stands: the bytes still buffered and the packets delivered. */
  datatype Loop =
    | Running(bytes: seq<Byte>, delivered: seq<Packet>)
    | Stopped(bytes: seq<Byte>, delivered: seq<Packet>, forceClose: bool)

  /** One iteration: its test, then its body. A header of length zero is delivered too, and
      nothing is taken from the buffer. */
  function Iteration(b: seq<Byte>, delivered: seq<Packet>): Loop
  {
    if |b| < HEADER_LENGTH then Stopped(b, delivered, false)
    else
      var length := ReadHeader(b).length;
      if length > MAX_LENGTH then Stopped(b, delivered, true)
      else if |b| >= length then Running(b[length..], delivered + [Take(b, length)])
      else Stopped(b, delivered, false)
  }

  function Iterate(l: Loop, n: nat): Loop
    decreases n
  { if n == 0 || l.Stopped? then l else Iterate(Iteration(l.bytes, l.delivered), n - 1) }

  /** What an iteration has to do with parsing, unless the length is zero. */
  lemma IterationParses(b: seq<Byte>, delivered: seq<Packet>)
    ensures var l := Iteration(b, delivered);
      && (l.Stopped? ==> l.bytes == b && l.delivered == delivered
                         && Parse(b) == Parsed([], b, if l.forceClose then TooLong else NeedMore))
      && (l.Running? && !Whole(b) ==> l.bytes == b && Parse(b) == Parsed([], b, Stuck))
      && (l.Running? && Whole(b) ==>
            |l.bytes| < |b| && Then(l.delivered, Parse(l.bytes)) == Then(delivered, Parse(b)))
  {
    if Whole(b) {
      var n := ReadHeader(b).length;
      ParseWhole(b);
      ThenThen(delivered, [Take(b, n)], Parse(b[n..]));
    } else if |b| >= HEADER_LENGTH && ReadHeader(b).length == 0 {
      assert b[0..] == b;
    }
  }

  /** One iteration on the buffer, for any contents. */
  method Round(buf: RingBuffer, delivered: seq<Packet>) returns (more: bool, packets: seq<Packet>, forceClose: bool)
    requires buf.Valid()
    modifies buf`readIndex, buf`writeIndex
    ensures buf.Valid()
    ensures Iteration(old(buf.Contents()), delivered)
         == if more then Running(buf.Contents(), packets) else Stopped(buf.Contents(), packets, forceClose)
  {
    more, packets, forceClose := false, delivered, false;
    if buf.ReadableBytes() >= HEADER_LENGTH {
      var header := PeekHeader(buf);
      if header.length > MAX_LENGTH {
        forceClose := true;
      } else if buf.ReadableBytes() >= header.length {
        var packet := PeekPacket(buf, header);
        buf.Retrieve(header.length);
        more, packets := true, packets + [packet];
      }
    }
  }

  /** `Codec::OnMessage`, on any buffered bytes from which the loop returns. */
  method OnMessage(buf: RingBuffer) returns (packets: seq<Packet>, forceClose: bool)
    requires buf.Valid() && !Parse(buf.Contents()).outcome.Stuck?
    modifies buf`readIndex, buf`writeIndex
    ensures buf.Valid()
    ensures Parsed(packets, buf.Contents(), if forceClose then TooLong else NeedMore) == Parse(old(buf.Contents()))
  {
    packets, forceClose := [], false;
    ghost var all := Parse(buf.Contents());
    ThenThen([], [], all);
    var more := true;
    while more
      invariant buf.Valid() && !all.outcome.Stuck?
      invariant more ==> all == Then(packets, Parse(buf.Contents()))
      invariant !more ==> all == Parsed(packets, buf.Contents(), if forceClose then TooLong else NeedMore)
      decreases more, buf.ReadableBytes()
    {
      more, packets, forceClose := RoundOn(buf, packets, all);
    }
  }

  /** A round of the loop in terms of parsing: what is still to come plus what has been
      delivered stays the same. */
  method RoundOn(buf: RingBuffer, delivered: seq<Packet>, ghost all: Parsed)
    returns (more: bool, packets: seq<Packet>, forceClose: bool)
    requires buf.Valid() && all == Then(delivered, Parse(buf.Contents())) && !all.outcome.Stuck?
    modifies buf`readIndex, buf`writeIndex
    ensures buf.Valid()
    ensures more ==> all == Then(packets, Parse(buf.Contents())) && buf.ReadableBytes() < old(buf.ReadableBytes())
    ensures !more ==> all == Parsed(packets, buf.Contents(), if forceClose then TooLong else NeedMore)
  {
    IterationParses(buf.Contents(), delivered);
    assert delivered + [] == delivered;
    more, packets, forceClose := Round(buf, delivered);
  }

  /** The same loop on any contents whatsoever, observed after n iterations. */
  method OnMessageFor(buf: RingBuffer, n: nat) returns (more: bool, packets: seq<Packet>, forceClose: bool)
    requires buf.Valid()
    modifies buf`readIndex, buf`writeIndex
    ensures buf.Valid()
    ensures Iterate(Running(old(buf.Contents()), []), n)
         == if more then Running(buf.Contents(), packets) else Stopped(buf.Contents(), packets, forceClose)
  {
    more, packets, forceClose := true, [], false;
    ghost var start := Running(buf.Contents(), []);
    ghost var now, path := start, [start];
    var i := 0;
    while i < n && more
      invariant 0 <= i <= n && buf.Valid() && |path| == i + 1 && Path(path) && path[0] == start && path[i] == now
      invariant now == if more then Running(buf.Contents(), packets) else Stopped(buf.Contents(), packets, forceClose)
      decreases n - i
    {
      more, packets, forceClose, now := RoundFrom(buf, now, packets);
      PathMore(path, now);
      i, path := i + 1, path + [now];
    }
    PathIterates(path, n);
  }

  /** Iterations one after the other. */
  ghost predicate Path(ls: seq<Loop>)
  { forall k | 0 <= k < |ls| - 1 :: Follows(ls[k], ls[k + 1]) }

  ghost predicate Follows(l: Loop, l': Loop) { l.Running? && l' == Iteration(l.bytes, l.delivered) }

  lemma PathMore(ls: seq<Loop>, l: Loop)
    requires ls != [] && Path(ls) && Follows(ls[|ls| - 1], l)
    ensures Path(ls + [l])
  {
    forall k | 0 <= k < |ls + [l]| - 1 ensures Follows((ls + [l])[k], (ls + [l])[k + 1]) {
      if k < |ls| - 1 { assert Follows(ls[k], ls[k + 1]); }
    }
  }

  lemma {:induction false} PathIterates(ls: seq<Loop>, n: nat)
    requires ls != [] && Path(ls) && |ls| <= n + 1 && (|ls| == n + 1 || ls[|ls| - 1].Stopped?)
    ensures Iterate(ls[0], n) == ls[|ls| - 1]
    decreases n
  {
    if |ls| > 1 {
      assert Follows(ls[0], ls[1]);
      forall k | 0 <= k < |ls[1..]| - 1 ensures Follows(ls[1..][k], ls[1..][k + 1]) {
        assert Follows(ls[k + 1], ls[k + 2]);
      }
      PathIterates(ls[1..], n - 1);
    }
  }

  method RoundFrom(buf: RingBuffer, ghost now: Loop, delivered: seq<Packet>)
    returns (more: bool, packets: seq<Packet>, forceClose: bool, ghost then_: Loop)
    requires buf.Valid() && now == Running(buf.Contents(), delivered)
    modifies buf`readIndex, buf`writeIndex
    ensures buf.Valid() && Follows(now, then_)
    ensures then_ == if more then Running(buf.Contents(), packets) else Stopped(buf.Contents(), packets, forceClose)
  {
    then_ := Iteration(now.bytes, now.delivered);
    more, packets, forceClose := Round(buf, delivered);
  }

  method PeekHeader(buf: RingBuffer) returns (header: Header)
    requires buf.Valid() && buf.ReadableBytes() >= HEADER_LENGTH
    ensures header == ReadHeader(buf.Contents())
  {
    header := ReadHeader(buf.buffer[buf.readIndex..buf.writeIndex]);
  }

  method PeekPacket(buf: RingBuffer, header: Header) returns (packet: Packet)
    requires buf.Valid() && buf.ReadableBytes() >= HEADER_LENGTH && buf.ReadableBytes() >= header.length
    requires header == ReadHeader(buf.Contents())
    ensures packet == Take(buf.Contents(), header.length)
  {
    packet := Packet(header, []);
    if header.length > HEADER_LENGTH {
      packet := packet.(body := buf.buffer[buf.readIndex..buf.writeIndex][HEADER_LENGTH..header.length]);
    }
  }

  /** `Codec::SendPacket`, up to handing the bytes to the connection. */
  method SendPacket(packet: Packet) returns (bytes: seq<Byte>)
    requires packet.header.length >= HEADER_LENGTH
    ensures bytes == Wire(packet)
  {
    var buf := new RingBuffer(1024);
    var header := HeaderBytes(packet.header);
    buf.Append(header);
    assert buf.Contents() == header;
    if packet.body != [] {
      buf.Append(packet.body);
    }
    assert buf.Contents() == header + packet.body;
    bytes := buf.RetrieveAllAsString();
  }

  // ------------------------------------------------------------------ when the loop ends

  ghost predicate Ends(b: seq<Byte>) { exists n :: Iterate(Running(b, []), n).Stopped? }

  lemma {:induction false} IterateMore(l: Loop, m: nat, n: nat)
    ensures Iterate(l, m + n) == Iterate(Iterate(l, m), n)
    decreases m
  {
    if m > 0 && l.Running? { IterateMore(Iteration(l.bytes, l.delivered), m - 1, n); }
  }

  function Copies(p: Packet, n: nat): (r: seq<Packet>)
    ensures |r| == n && forall i | 0 <= i < n :: r[i] == p
  { if n == 0 then [] else [p] + Copies(p, n - 1) }

  /** The packet of a header of length zero, delivered over and over. */
  function HeaderOnly(b: seq<Byte>): Packet
    requires |b| >= HEADER_LENGTH
  { Packet(ReadHeader(b), []) }

  /** Up to the zero-length header the loop delivers what parsing yields. */
  lemma {:induction false} ReachesStuck(b: seq<Byte>, d: seq<Packet>)
    requires Parse(b).outcome.Stuck?
    ensures Iterate(Running(b, d), |Parse(b).packets|) == Running(Parse(b).rest, d + Parse(b).packets)
    ensures |Parse(b).rest| >= HEADER_LENGTH && ReadHeader(Parse(b).rest).length == 0
    decreases |b|
  {
    if Whole(b) {
      var n := ReadHeader(b).length;
      var d' := d + [Take(b, n)];
      ParseWhole(b);
      ReachesStuck(b[n..], d');
      OneMore(b, d, n, |Parse(b[n..]).packets|);
      assert d + ([Take(b, n)] + Parse(b[n..]).packets) == d' + Parse(b[n..]).packets;
    } else {
      assert d + [] == d;
    }
  }

  lemma OneMore(b: seq<Byte>, d: seq<Packet>, n: nat, m: nat)
    requires Whole(b) && n == ReadHeader(b).length
    ensures Iterate(Running(b, d), m + 1) == Iterate(Running(b[n..], d + [Take(b, n)]), m)
  {}

  /** From there on every iteration delivers the header again and takes nothing. */
  lemma {:induction false} StaysStuck(b: seq<Byte>, d: seq<Packet>, n: nat)
    requires |b| >= HEADER_LENGTH && ReadHeader(b).length == 0
    ensures Iterate(Running(b, d), n) == Running(b, d + Copies(HeaderOnly(b), n))
    decreases n
  {
    if n > 0 {
      assert b[0..] == b;
      StaysStuck(b, d + [HeaderOnly(b)], n - 1);
      assert d + ([HeaderOnly(b)] + Copies(HeaderOnly(b), n - 1)) == d + [HeaderOnly(b)] + Copies(HeaderOnly(b), n - 1);
    } else {
      assert d + [] == d;
    }
  }

  /** On a stream with a zero-length header the loop delivers the packets before it, and
      then without bound the header alone. */
  lemma StuckDeliversForever(b: seq<Byte>, n: nat)
    requires Parse(b).outcome.Stuck?
    ensures var p := Parse(b);
      && |p.rest| >= HEADER_LENGTH
      && Iterate(Running(b, []), |p.packets| + n) == Running(p.rest, p.packets + Copies(HeaderOnly(p.rest), n))
  {
    var p := Parse(b);
    ReachesStuck(b, []);
    assert [] + p.packets == p.packets;
    StaysStuck(p.rest, p.packets, n);
    IterateMore(Running(b, []), |p.packets|, n);
  }

  lemma {:induction false} OtherwiseStops(b: seq<Byte>, d: seq<Packet>) returns (n: nat)
    requires !Parse(b).outcome.Stuck?
    ensures Iterate(Running(b, d), n) == Stopped(Parse(b).rest, d + Parse(b).packets, Parse(b).outcome.TooLong?)
    decreases |b|
  {
    IterationParses(b, d);
    var l := Iteration(b, d);
    if l.Stopped? {
      n := 1;
      assert d + [] == d && Iterate(l, 0) == l;
    } else {
      var m := OtherwiseStops(l.bytes, l.delivered);
      n := m + 1;
    }
  }

  /** The receive loop comes to an end exactly when parsing meets no header of length zero. */
  lemma LoopEnds(b: seq<Byte>)
    ensures Ends(b) <==> !Parse(b).outcome.Stuck?
  {
    if Parse(b).outcome.Stuck? {
      forall n: nat ensures !Iterate(Running(b, []), n).Stopped? {
        StuckDeliversForever(b, n);
        IterateMore(Running(b, []), n, |Parse(b).packets|);
      }
    } else {
      var n := OtherwiseStops(b, []);
    }
  }

  /** The smallest buffer that the loop never leaves: twelve zero bytes. */
  lemma ZeroHeaderNeverEnds()
    ensures !Ends(HeaderBytes(Header(0, 0, 0, 0)))
  {
    var b := HeaderBytes(Header(0, 0, 0, 0));
    HeaderRoundTrip(Header(0, 0, 0, 0), []);
    assert b + [] == b;
    LoopEnds(b);
  }

  // ------------------------------------------------------------------ chunks

  /** What a parse that stopped becomes when more bytes arrive. */
  function Resume(p: Parsed, b: seq<Byte>): Parsed
  {
    if p.outcome.NeedMore? then Then(p.packets, Parse(p.rest + b)) else Parsed(p.packets, p.rest + b, p.outcome)
  }

  /** Parsing goes on from where it stopped for want of bytes, and nowhere else. */
  lemma {:induction false} ParseAppend(a: seq<Byte>, b: seq<Byte>)
    ensures Parse(a + b) == Resume(Parse(a), b)
    decreases |a|
  {
    if Whole(a) {
      var n, first := ReadHeader(a).length, [Take(a, ReadHeader(a).length)];
      SameFront(a, b);
      ParseWhole(a);
      ParseWhole(a + b);
      ParseAppend(a[n..], b);
      ThenThen(first, Parse(a[n..]).packets, Parse(Parse(a[n..]).rest + b));
    } else {
      NotWhole(a, b);
    }
  }

  lemma SameFront(a: seq<Byte>, b: seq<Byte>)
    requires Whole(a)
    ensures var n := ReadHeader(a).length;
      Whole(a + b) && ReadHeader(a + b).length == n && Take(a + b, n) == Take(a, n) && (a + b)[n..] == a[n..] + b
  {
    SameHeader(a, b);
    var n := ReadHeader(a).length;
    assert n > HEADER_LENGTH ==> (a + b)[HEADER_LENGTH..n] == a[HEADER_LENGTH..n];
  }

  lemma NotWhole(a: seq<Byte>, b: seq<Byte>)
    requires !Whole(a)
    ensures Parse(a + b) == Resume(Parse(a), b)
  {
    ThenThen([], [], Parse(a + b));
    if |a| >= HEADER_LENGTH { SameHeader(a, b); }
  }

  lemma SameHeader(a: seq<Byte>, b: seq<Byte>)
    requires |a| >= HEADER_LENGTH
    ensures ReadHeader(a + b) == ReadHeader(a)
  {}

  function Concat(chunks: seq<seq<Byte>>): seq<Byte>
  { if chunks == [] then [] else chunks[0] + Concat(chunks[1..]) }

  /** What the codec has delivered and kept after the chunks arrived one by one: each is
      appended to the buffer and the loop is run. On a chunk that makes the loop run
      forever the later chunks are never read; the packets are then those delivered
      before the zero-length header (StuckDeliversForever says what follows them). */
  function Feed(buffered: seq<Byte>, chunks: seq<seq<Byte>>): Parsed
    decreases |chunks|
  {
    if chunks == [] then Parse(buffered)
    else
      var now := Parse(buffered + chunks[0]);
      if now.outcome.Stuck? then now else Then(now.packets, Feed(now.rest, chunks[1..]))
  }

  /** Bytes on which a run of the loop stopped yield nothing more by themselves. */
  lemma {:induction false} ParseRest(b: seq<Byte>)
    ensures Parse(Parse(b).rest) == Parsed([], Parse(b).rest, Parse(b).outcome)
    decreases |b|
  {
    if Whole(b) {
      ParseWhole(b);
      ParseRest(b[ReadHeader(b).length..]);
    }
  }

  /** The same packets and the same fate; and the same bytes kept, as far as the loop has
      read the stream. */
  ghost predicate SameDelivery(f: Parsed, p: Parsed)
  {
    && f.packets == p.packets && f.outcome == p.outcome && f.rest <= p.rest
    && (!p.outcome.Stuck? ==> f.rest == p.rest)
  }

  /** However a stream is cut into chunks, the receiver delivers the packets of parsing it
      whole, keeps the same bytes and meets the same fate: it waits for more, closes the
      connection, or runs into a zero-length header for good. */
  lemma {:induction false} ChunksDoNotMatter(buffered: seq<Byte>, chunks: seq<seq<Byte>>)
    ensures SameDelivery(Feed(buffered, chunks), Parse(buffered + Concat(chunks)))
    decreases |chunks|
  {
    if chunks == [] {
      assert buffered + [] == buffered;
    } else {
      var a, b := buffered + chunks[0], Concat(chunks[1..]);
      assert buffered + Concat(chunks) == a + b;
      ParseAppend(a, b);
      if !Parse(a).outcome.Stuck? {
        ChunksDoNotMatter(Parse(a).rest, chunks[1..]);
        RestGoesOn(a, b);
      }
    }
  }

  lemma RestGoesOn(a: seq<Byte>, b: seq<Byte>)
    requires !Parse(a).outcome.Stuck?
    ensures Parse(a + b) == Then(Parse(a).packets, Parse(Parse(a).rest + b))
  {
    ParseAppend(a, b);
    ParseRest(a);
    ParseAppend(Parse(a).rest, b);
    assert Parse(a).packets + [] == Parse(a).packets;
  }

  function Min(a: nat, b: nat): nat { if a < b then a else b }

  /** The handler of a readable socket: one scatter read, then one run of `OnMessage`. The
      end of the stream closes the connection, an error leaves everything as it was. */
  method HandleRead(buf: RingBuffer, result: ReadResult) returns (packets: seq<Packet>, forceClose: bool, closes: bool)
    requires buf.Valid()
    requires result.Delivered? ==>
      |result.bytes| <= ReadLimit(buf.WritableBytes()) && !Parse(buf.Contents() + result.bytes).outcome.Stuck?
    modifies buf, buf.buffer
    ensures buf.Valid() && (fresh(buf.buffer) || buf.buffer == old(buf.buffer))
    ensures closes <==> result == Delivered([])
    ensures result.Delivered? && result.bytes != [] ==>
      Parsed(packets, buf.Contents(), if forceClose then TooLong else NeedMore)
      == Parse(old(buf.Contents()) + result.bytes)
    ensures result.Failed? || result.bytes == [] ==>
      packets == [] && !forceClose && buf.Contents() == old(buf.Contents())
  {
    packets, forceClose := [], false;
    var n := buf.ReadFd(result);
    closes := n == 0;
    if n > 0 {
      packets, forceClose := OnMessage(buf);
    }
  }

  /** The receiver as the loop thread runs it, whenever the socket is readable. The kernel
      delivers the stream in pieces of its own choosing, each at most what the read has
      room for. */
  method Receive(buf: RingBuffer, stream: seq<Byte>, sizes: seq<nat>)
    returns (packets: seq<Packet>, forceClose: bool, ghost chunks: seq<seq<Byte>>)
    requires buf.Valid() && Parse(buf.Contents()) == Parsed([], buf.Contents(), NeedMore)
    requires !Parse(buf.Contents() + stream).outcome.Stuck?
    modifies buf, buf.buffer
    ensures buf.Valid() && |chunks| == |sizes| && Concat(chunks) <= stream
    ensures Parsed(packets, buf.Contents(), if forceClose then TooLong else NeedMore)
         == Feed(old(buf.Contents()), chunks)
  {
    packets, forceClose, chunks := [], false, [];
    ghost var before, all := buf.Contents(), buf.Contents() + stream;
    ghost var seen := before;
    assert seen == before + Concat(chunks);
    var left, i := stream, 0;
    while i < |sizes|
      modifies buf, buf.buffer
      invariant buf.Valid() && (fresh(buf.buffer) || buf.buffer == old(buf.buffer))
      invariant 0 <= i <= |sizes| && |chunks| == i && seen == before + Concat(chunks)
      invariant seen + left == all && Concat(chunks) + left == stream
      invariant Parsed(packets, buf.Contents(), if forceClose then TooLong else NeedMore) == Parse(seen)
    {
      var n := Min(Min(sizes[i], |left|), ReadLimit(buf.WritableBytes()));
      var chunk := left[..n];
      NextChunk(before, seen, left, n, chunks);
      if n > 0 {
        var more, force, _ := HandleRead(buf, Delivered(chunk));
        packets, forceClose := packets + more, force;
      }
      assert n == 0 ==> seen + chunk == seen;
      chunks, seen := chunks + [chunk], seen + chunk;
      left, i := left[n..], i + 1;
    }
    ChunksDoNotMatter(before, chunks);
    NotStuckBefore(seen, left);
  }

  lemma NotStuckBefore(a: seq<Byte>, b: seq<Byte>)
    requires !Parse(a + b).outcome.Stuck?
    ensures !Parse(a).outcome.Stuck?
  {
    ParseAppend(a, b);
  }

  /** What arrives next, and what the loop then makes of it. */
  lemma NextChunk(before: seq<Byte>, seen: seq<Byte>, left: seq<Byte>, n: nat, chunks: seq<seq<Byte>>)
    requires n <= |left| && !Parse(seen + left).outcome.Stuck? && seen == before + Concat(chunks)
    ensures var chunk := left[..n];
      && seen + chunk == before + Concat(chunks + [chunk]) && seen + left == (seen + chunk) + left[n..]
      && Concat(chunks) + left == Concat(chunks + [chunk]) + left[n..]
      && !Parse(Parse(seen).rest + chunk).outcome.Stuck?
      && Parse(seen + chunk) == Then(Parse(seen).packets, Parse(Parse(seen).rest + chunk))
  {
    var chunk := left[..n];
    ConcatMore(chunks, chunk);
    Pieces(before, Concat(chunks), left, n);
    NotStuckBefore(seen + chunk, left[n..]);
    NotStuckBefore(seen, chunk);
    RestGoesOn(seen, chunk);
  }

  lemma Pieces(before: seq<Byte>, got: seq<Byte>, left: seq<Byte>, n: nat)
    requires n <= |left|
    ensures before + got + left[..n] == before + (got + left[..n])
    ensures before + got + left == before + got + left[..n] + left[n..]
    ensures got + left == got + left[..n] + left[n..]
  {
    assert left == left[..n] + left[n..];
  }

  lemma {:induction false} ConcatMore(chunks: seq<seq<Byte>>, chunk: seq<Byte>)
    ensures Concat(chunks + [chunk]) == Concat(chunks) + chunk
  {
    if chunks == [] {
      assert [] + [chunk] == [chunk] && Concat([chunk]) == chunk + Concat([chunk][1..]);
    } else {
      assert (chunks + [chunk])[1..] == chunks[1..] + [chunk];
      ConcatMore(chunks[1..], chunk);
    }
  }

  // ------------------------------------------------------------------ round trip

  lemma ParseWire(p: Packet, rest: seq<Byte>)
    requires Fits(p)
    ensures Parse(Wire(p) + rest) == Then([p], Parse(rest))
  {
    var b := Wire(p) + rest;
    assert b == HeaderBytes(p.header) + (p.body + rest);
    HeaderRoundTrip(p.header, p.body + rest);
    assert b[HEADER_LENGTH..p.header.length] == p.body && b[p.header.length..] == rest;
  }

  lemma WireSplit(ps: seq<Packet>, rest: seq<Byte>)
    requires ps != []
    ensures WireAll(ps) + rest == Wire(ps[0]) + (WireAll(ps[1..]) + rest)
  {}

  lemma {:induction false} ParseWireAll(ps: seq<Packet>, rest: seq<Byte>)
    requires forall i | 0 <= i < |ps| :: Fits(ps[i])
    ensures Parse(WireAll(ps) + rest) == Then(ps, Parse(rest))
  {
    ThenThen([], [], Parse(rest));
    if ps == [] {
      assert WireAll(ps) + rest == rest;
    } else {
      var more := WireAll(ps[1..]) + rest;
      WireSplit(ps, rest);
      ParseWire(ps[0], more);
      ParseWireAll(ps[1..], rest);
      ThenThen([ps[0]], ps[1..], Parse(rest));
      assert [ps[0]] + ps[1..] == ps;
    }
  }

  /** Every packet the loop delivers has a body of at most 64 KiB less the header. */
  lemma {:induction false} BodiesBounded(b: seq<Byte>, i: nat)
    requires i < |Parse(b).packets|
    ensures |Parse(b).packets[i].body| <= MAX_LENGTH - HEADER_LENGTH
    decreases |b|
  {
    if i > 0 { BodiesBounded(b[ReadHeader(b).length..], i - 1); }
  }

  datatype Message = Message(cmd: U16, seqNo: U32, data: seq<Byte>)

  predicate Short(m: Message) { |m.data| <= 65524 }

  predicate AllShort(ms: seq<Message>) { forall i | 0 <= i < |ms| :: Short(ms[i]) }

  /** Packet p is message m: its size, command, no flag, sequence number and bytes. */
  predicate Carries(p: Packet, m: Message)
  {
    && p.header.length == 12 + |m.data| && p.header.cmd == m.cmd && p.header.flag == 0
    && p.header.seqNo == m.seqNo && p.body == m.data
  }

  /** The receiver has the messages, in order, and nothing else. */
  ghost predicate AllArrive(r: Parsed, ms: seq<Message>)
  {
    && r.rest == [] && r.outcome.NeedMore? && |r.packets| == |ms|
    && forall i | 0 <= i < |ms| :: Carries(r.packets[i], ms[i])
  }

  function EncodeAll(ms: seq<Message>): (ps: seq<Packet>)
    ensures |ps| == |ms| && forall i | 0 <= i < |ms| :: ps[i].body == ms[i].data
    ensures forall i | 0 <= i < |ms| && Short(ms[i]) :: Fits(ps[i]) && Carries(ps[i], ms[i])
  {
    if ms == [] then [] else [Encode(ms[0].cmd, ms[0].seqNo, ms[0].data)] + EncodeAll(ms[1..])
  }

  lemma ShortArrives(ms: seq<Message>)
    requires AllShort(ms)
    ensures Parse(WireAll(EncodeAll(ms))) == Parsed(EncodeAll(ms), [], NeedMore)
  {
    var ps := EncodeAll(ms);
    ParseWireAll(ps, []);
    assert WireAll(ps) + [] == WireAll(ps) && ps + [] == ps;
  }

  lemma ArrivedIsShort(ms: seq<Message>, b: seq<Byte>)
    requires |Parse(b).packets| == |ms| && forall i | 0 <= i < |ms| :: Parse(b).packets[i].body == ms[i].data
    ensures AllShort(ms)
  {
    forall i | 0 <= i < |ms| ensures Short(ms[i]) {
      BodiesBounded(b, i);
    }
  }

  /** Encoding messages and feeding the bytes to the receiver in any pieces delivers
      exactly those messages, each with its command and sequence number, in order and with
      nothing left over, if and only if no message is longer than 65524 bytes. */
  lemma RoundTrip(ms: seq<Message>, chunks: seq<seq<Byte>>)
    requires Concat(chunks) == WireAll(EncodeAll(ms))
    ensures AllArrive(Feed([], chunks), ms) <==> AllShort(ms)
    ensures Feed([], chunks) == Parsed(EncodeAll(ms), [], NeedMore) <==> AllShort(ms)
  {
    ChunksDoNotMatter([], chunks);
    assert [] + Concat(chunks) == Concat(chunks);
    if AllShort(ms) { ShortArrives(ms); }
    if AllArrive(Feed([], chunks), ms) || Feed([], chunks).packets == EncodeAll(ms) {
      ArrivedIsShort(ms, Concat(chunks));
    }
  }

  lemma ParseCut(p: Packet, cut: nat)
    requires Fits(p) && cut < |Wire(p)|
    ensures Parse(Wire(p)[..cut]) == Parsed([], Wire(p)[..cut], NeedMore)
  {
    var b := Wire(p)[..cut];
    if cut >= HEADER_LENGTH {
      var body := p.body[..cut - HEADER_LENGTH];
      assert b == HeaderBytes(p.header) + body;
      HeaderRoundTrip(p.header, body);
    }
  }

  /** Anywhere the stream may have been cut, the receiver has delivered the packets sent
      whole and keeps a proper prefix of the next one. */
  lemma LeftoverIsPrefix(ps: seq<Packet>, next: Packet, cut: nat)
    requires (forall i | 0 <= i < |ps| :: Fits(ps[i])) && Fits(next) && cut < |Wire(next)|
    ensures Parse(WireAll(ps) + Wire(next)[..cut]) == Parsed(ps, Wire(next)[..cut], NeedMore)
  {
    ParseWireAll(ps, Wire(next)[..cut]);
    ParseCut(next, cut);
    assert ps + [] == ps;
  }
}
