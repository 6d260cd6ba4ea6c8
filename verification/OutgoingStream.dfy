// The send side of an RTP channel: the ring of outgoing buffers and the counters
// that stamp sequence numbers and timestamps on them.

module OutgoingStream {
  import opened Common
  import opened JitterBuffer
  import opened JitterSafety

  const G711PAYLOADBYTES := 160
  const ILBC20PAYLOADBYTES := 38
  const ILBC30PAYLOADBYTES := 50
  const RTP_HEADER := 12

  datatype OutPacket = OutPacket(ssrc: u32, payloadtype: nat, sn: u16, ts: u32, length: nat)

  /** reachable: we have received from, or been told, where to send to. */
  datatype Out = Out(
    ring: seq<OutPacket>,
    index: nat,
    ssrc: u32,
    codec: nat,
    seqout: u16,
    tsout: u32,
    reachable: bool,
    sent: seq<OutPacket>
  )

  ghost predicate Usable(o: Out) { |o.ring| == BUFFERPACKETCOUNT && o.index < BUFFERPACKETCOUNT }

  /** The default length setpayloadtype gives a packet. */
  function DefaultLength(codec: nat): nat {
    if codec == ILBC20PAYLOADBYTES then RTP_HEADER + ILBC20PAYLOADBYTES
    else if codec == ILBC30PAYLOADBYTES then RTP_HEADER + ILBC30PAYLOADBYTES
    else RTP_HEADER + G711PAYLOADBYTES
  }

  /** gettempoutbuf: stamp the next buffer of the ring and move the counters on. */
  function TakeBuffer(o: Out, skip: u32): (p: Out)
    requires Usable(o)
    ensures Usable(p)
  {
    var sn := (o.seqout + skip) % U16_RANGE;
    var ts := if skip > 0 then (o.tsout + G711PAYLOADBYTES * skip) % U32_RANGE else o.tsout;
    o.(ring := o.ring[o.index := OutPacket(o.ssrc, o.codec % 128, sn, ts, DefaultLength(o.codec))],
       index := (o.index + 1) % BUFFERPACKETCOUNT,
       seqout := (sn + 1) % U16_RANGE,
       tsout := ts)
  }

  /** The codec worker fills the buffer: all that matters here is the resulting length. */
  function Fill(o: Out, at: nat, length: nat): Out
    requires at < |o.ring|
  {
    o.(ring := o.ring[at := o.ring[at].(length := length)])
  }

  /** writepacket: send, and set the clock to the packet's next timestamp. */
  function WriteBuffer(o: Out, at: nat): Out
    requires at < |o.ring|
  {
    if o.ring[at].length == 0 || !o.reachable then o
    else o.(tsout := (o.ring[at].ts + G711PAYLOADBYTES) % U32_RANGE, sent := o.sent + [o.ring[at]])
  }

  /** processrtpdata when exactly two channels are mixed. */
  function Forward(o: Out, r: Release, length: nat): (p: Out)
    requires Usable(o)
    ensures Usable(p)
  {
    WriteBuffer(Fill(TakeBuffer(o, r.skip), o.index, length), o.index)
  }

  class Sender {
    const outrtpdata: array<OutPacket>
    var rtpoutindex: nat
    var ssrcout: u32
    var selectedcodec: nat
    var seqout: u16
    var tsout: u32
    var reachable: bool
    var sent: seq<OutPacket>

    ghost predicate Valid()
      reads this, outrtpdata
    {
      Usable(Abstract())
    }

    ghost function Abstract(): Out
      reads this, outrtpdata
    {
      Out(outrtpdata[..], rtpoutindex, ssrcout, selectedcodec, seqout, tsout, reachable, sent)
    }

    constructor (ssrc: u32, ts: u32, codec: nat)
      ensures Valid() && fresh(outrtpdata)
      ensures seqout == 0 && tsout == ts && ssrcout == ssrc && selectedcodec == codec && sent == [] && !reachable
    {
      outrtpdata := new OutPacket[BUFFERPACKETCOUNT](_ => OutPacket(0, 0, 0, 0, 0));
      rtpoutindex, ssrcout, selectedcodec, seqout, tsout := 0, ssrc, codec, 0, ts;
      reachable, sent := false, [];
    }

    method GetTempOutBuf(skipcount: u32) returns (at: nat)
      requires Valid()
      modifies this, outrtpdata
      ensures Valid() && Abstract() == TakeBuffer(old(Abstract()), skipcount) && at == old(rtpoutindex)
    {
      ghost var was := outrtpdata[..];
      at := rtpoutindex;
      rtpoutindex := (rtpoutindex + 1) % BUFFERPACKETCOUNT;
      seqout := (seqout + skipcount) % U16_RANGE;
      var sn := seqout;
      if skipcount > 0 {
        tsout := (tsout + G711PAYLOADBYTES * skipcount) % U32_RANGE;
      }
      outrtpdata[at] := OutPacket(ssrcout, selectedcodec % 128, sn, tsout, DefaultLength(selectedcodec));
      assert outrtpdata[..] == was[at := outrtpdata[at]];
      seqout := (seqout + 1) % U16_RANGE;
    }

    method WritePacket(at: nat)
      requires Valid() && at < BUFFERPACKETCOUNT
      modifies this
      ensures Valid() && Abstract() == WriteBuffer(old(Abstract()), at)
    {
      if outrtpdata[at].length == 0 { return; }
      if reachable {
        tsout := (outrtpdata[at].ts + G711PAYLOADBYTES) % U32_RANGE;
        sent := sent + [outrtpdata[at]];
      }
    }

    /** One released packet of the other channel, transcoded to this many bytes. */
    method ProcessRtpData(r: Release, length: nat)
      requires Valid()
      modifies this, outrtpdata
      ensures Valid() && Abstract() == Forward(old(Abstract()), r, length)
    {
      var dst := GetTempOutBuf(r.skip);
      ghost var was := outrtpdata[..];
      outrtpdata[dst] := outrtpdata[dst].(length := length);
      assert outrtpdata[..] == was[dst := was[dst].(length := length)];
      WritePacket(dst);
    }
  }

  /** The channel after the first n of these releases; lengths[i] is the size of the i-th. */
  function ForwardAll(o: Out, rs: seq<Release>, lengths: seq<nat>, n: nat): (p: Out)
    requires Usable(o) && |lengths| == |rs| && n <= |rs|
    ensures Usable(p)
  {
    if n == 0 then o else Forward(ForwardAll(o, rs, lengths, n - 1), rs[n - 1], lengths[n - 1])
  }

  /** The packet a release goes out as. */
  function Stamped(o: Out, skip: u32, length: nat): OutPacket {
    OutPacket(o.ssrc, o.codec % 128, (o.seqout + skip) % U16_RANGE, (o.tsout + G711PAYLOADBYTES * skip) % U32_RANGE, length)
  }

  /** Both counters are one step past the stamps of the last packet sent. */
  ghost predicate InLock(o: Out, last: OutPacket) {
    o.seqout == (last.sn + 1) % U16_RANGE && o.tsout == (last.ts + G711PAYLOADBYTES) % U32_RANGE
  }

  /** With somewhere to send to and something to send, a release goes out and leaves
      the counters in step. */
  lemma ForwardSends(o: Out, r: Release, length: nat)
    requires Usable(o) && o.reachable && length > 0
    ensures var p, x := Forward(o, r, length), Stamped(o, r.skip, length);
      p.reachable && p.sent == o.sent + [x] && InLock(p, x)
  {
  }

  /** Not even a buffer that has not been filled is held back: it goes out with the length its
      codec gives it. */
  lemma UnfilledIsSent(o: Out, skip: u32)
    requires Usable(o) && o.reachable
    ensures WriteBuffer(TakeBuffer(o, skip), o.index).sent
         == o.sent + [Stamped(o, skip, if o.codec == 38 then 50 else if o.codec == 50 then 62 else 172)]
  {
  }

  /** The packet the k-th release goes out as. */
  ghost function StampAt(o: Out, rs: seq<Release>, lengths: seq<nat>, k: nat): OutPacket
    requires Usable(o) && |lengths| == |rs| && k < |rs|
  {
    Stamped(ForwardAll(o, rs, lengths, k), rs[k].skip, lengths[k])
  }

  predicate AllFull(lengths: seq<nat>) { forall i :: 0 <= i < |lengths| ==> lengths[i] > 0 }

  lemma {:induction false} EachIsSent(o: Out, rs: seq<Release>, lengths: seq<nat>, n: nat)
    requires Usable(o) && o.reachable && |lengths| == |rs| && n <= |rs| && AllFull(lengths)
    ensures var p := ForwardAll(o, rs, lengths, n);
      && p.reachable && |p.sent| == |o.sent| + n
      && (n > 0 ==> InLock(p, StampAt(o, rs, lengths, n - 1)))
      && forall k :: 0 <= k < n ==> p.sent[|o.sent| + k] == StampAt(o, rs, lengths, k)
  {
    if n > 0 {
      EachIsSent(o, rs, lengths, n - 1);
      ForwardSends(ForwardAll(o, rs, lengths, n - 1), rs[n - 1], lengths[n - 1]);
    }
  }

  // ---- whatever is sent or not

  function Skips(rs: seq<Release>, n: nat): nat
    requires n <= |rs|
  {
    if n == 0 then 0 else Skips(rs, n - 1) + rs[n - 1].skip
  }

  /** How many of the first n releases go out: those with something in them, to a target. */
  function Going(o: Out, lengths: seq<nat>, n: nat): nat
    requires n <= |lengths|
  {
    if n == 0 then 0 else Going(o, lengths, n - 1) + if o.reachable && lengths[n - 1] > 0 then 1 else 0
  }

  /** One release more, in any case. */
  lemma ForwardCounts(o: Out, r: Release, length: nat)
    requires Usable(o)
    ensures var p := Forward(o, r, length); var goes := o.reachable && length > 0;
      && p.reachable == o.reachable && p.ssrc == o.ssrc && p.codec == o.codec
      && p.ring == o.ring[o.index := Stamped(o, r.skip, length)]
      && p.index == (o.index + 1) % BUFFERPACKETCOUNT
      && p.seqout == (o.seqout + r.skip + 1) % U16_RANGE
      && p.tsout == (o.tsout + G711PAYLOADBYTES * (r.skip + if goes then 1 else 0)) % U32_RANGE
      && p.sent == if goes then o.sent + [Stamped(o, r.skip, length)] else o.sent
  {
    MovesOn(o.seqout + r.skip, U16_RANGE);
    Sum32(o.tsout + G711PAYLOADBYTES * r.skip, G711PAYLOADBYTES);
  }

  /** Over any releases: the sequence moves on by one for each and by what was skipped, sent or not,
      while the clock moves by 160 for each one sent and each one skipped, so that it falls
      behind by 160 for each that is not sent. */
  lemma {:induction false} CountersAfter(o: Out, rs: seq<Release>, lengths: seq<nat>, n: nat)
    requires Usable(o) && |lengths| == |rs| && n <= |rs|
    ensures var p := ForwardAll(o, rs, lengths, n);
      && p.reachable == o.reachable && |p.sent| == |o.sent| + Going(o, lengths, n)
      && p.seqout == (o.seqout + Skips(rs, n) + n) % U16_RANGE
      && p.tsout == (o.tsout + G711PAYLOADBYTES * (Skips(rs, n) + Going(o, lengths, n))) % U32_RANGE
      && p.index == (o.index + n) % BUFFERPACKETCOUNT
  {
    hide Forward;
    if n > 0 {
      var q, r, length := ForwardAll(o, rs, lengths, n - 1), rs[n - 1], lengths[n - 1];
      CountersAfter(o, rs, lengths, n - 1);
      ForwardCounts(q, r, length);
      MovesOn(o.index + n - 1, BUFFERPACKETCOUNT);
      Sum16(o.seqout + Skips(rs, n - 1) + n - 1, r.skip + 1);
      Sum32(o.tsout + G711PAYLOADBYTES * (Skips(rs, n - 1) + Going(o, lengths, n - 1)),
            G711PAYLOADBYTES * (r.skip + if o.reachable && length > 0 then 1 else 0));
    } else {
      InRange(o);
    }
  }

  lemma InRange(o: Out)
    requires Usable(o)
    ensures o.seqout % U16_RANGE == o.seqout && o.tsout % U32_RANGE == o.tsout && o.index % BUFFERPACKETCOUNT == o.index
  {
  }

  /** The last 20 packets made are all still in the ring, sent or not. */
  lemma {:induction false} RingKeepsLast20(o: Out, rs: seq<Release>, lengths: seq<nat>, n: nat, k: nat)
    requires Usable(o) && |lengths| == |rs| && k < n <= |rs| && n <= k + BUFFERPACKETCOUNT
    ensures ForwardAll(o, rs, lengths, n).ring[(o.index + k) % BUFFERPACKETCOUNT] == StampAt(o, rs, lengths, k)
  {
    hide Forward, Stamped;
    CountersAfter(o, rs, lengths, n - 1);
    ForwardCounts(ForwardAll(o, rs, lengths, n - 1), rs[n - 1], lengths[n - 1]);
    if k < n - 1 {
      RingKeepsLast20(o, rs, lengths, n - 1, k);
      OtherBuffer(o.index + k, o.index + n - 1);
    }
  }

  lemma OtherBuffer(x: nat, y: nat)
    requires x < y < x + BUFFERPACKETCOUNT
    ensures x % BUFFERPACKETCOUNT != y % BUFFERPACKETCOUNT
  {
  }

  /** How far the outgoing stamps are from the position a packet was released at and its
      clock. Positions go on past 65535; a packet's number is its position modulo 65536. */
  function SequenceOffset(x: OutPacket, p: int): int { (x.sn - p) % U16_RANGE }
  function ClockOffset(x: OutPacket, p: int): int { (x.ts - G711PAYLOADBYTES * p) % U32_RANGE }

  lemma Sum16(a: int, b: int)
    ensures (a % U16_RANGE + b) % U16_RANGE == (a + b) % U16_RANGE
  {
    assert a + b == (a % U16_RANGE + b) + U16_RANGE * (a / U16_RANGE);
  }

  lemma Sum32(a: int, b: int)
    ensures (a % U32_RANGE + b) % U32_RANGE == (a + b) % U32_RANGE
  {
    assert a + b == (a % U32_RANGE + b) + U32_RANGE * (a / U32_RANGE);
  }

  /** The difference of two numbers is that of their positions, modulo 65536. */
  lemma NumbersApart(p: int, q: int)
    ensures Sub16(q % U16_RANGE, p % U16_RANGE) == (q - p) % U16_RANGE
  {
    Sum16(q, -(p % U16_RANGE));
    var k := p / U16_RANGE;
    assert q - p % U16_RANGE == q - p + U16_RANGE * k;
    AddMultiple(q - p, U16_RANGE, k);
  }

  /** The skip count of a packet whose number is d on from the last. */
  lemma SkipModulo(d: u16)
    ensures ((d - 1) % U32_RANGE) % U16_RANGE == (d - 1) % U16_RANGE
  {
    if d == 0 { assert (d - 1) % U32_RANGE == U32_RANGE - 1; }
  }

  lemma SequenceStep(p: int, q: int, out: u16)
    ensures (((out + 1) % U16_RANGE + SkipCount(q % U16_RANGE, p % U16_RANGE)) % U16_RANGE - q) % U16_RANGE
         == (out - p) % U16_RANGE
  {
    var d := (q - p) % U16_RANGE;
    var skip: int := (d - 1) % U32_RANGE;
    NumbersApart(p, q);
    assert SkipCount(q % U16_RANGE, p % U16_RANGE) == skip;
    SkipModulo(d);
    calc {
      (((out + 1) % U16_RANGE + skip) % U16_RANGE - q) % U16_RANGE;
    == { Sum16(out + 1, skip); Sum16(out + 1 + skip, -q); }
      (skip + (out + 1 - q)) % U16_RANGE;
    == { Sum16(skip, out + 1 - q); Sum16(d - 1, out + 1 - q); }
      (d + (out - q)) % U16_RANGE;
    == { Sum16(q - p, out - q); }
      (out - p) % U16_RANGE;
    }
  }

  lemma TwoSums32(x: int, y: int, z: int)
    ensures ((x % U32_RANGE + y) % U32_RANGE - z) % U32_RANGE == (x + y - z) % U32_RANGE
  {
    Sum32(x, y);
    Sum32(x + y, -z);
  }

  lemma ClockStep(p: int, q: int, ts: u32)
    requires p < q < p + U16_RANGE
    ensures (((ts + G711PAYLOADBYTES) % U32_RANGE + G711PAYLOADBYTES * SkipCount(q % U16_RANGE, p % U16_RANGE)) % U32_RANGE
               - G711PAYLOADBYTES * q) % U32_RANGE == (ts - G711PAYLOADBYTES * p) % U32_RANGE
  {
    var skip: int := q - p - 1;
    NumbersApart(p, q);
    assert SkipCount(q % U16_RANGE, p % U16_RANGE) == skip;
    calc {
      (((ts + G711PAYLOADBYTES) % U32_RANGE + G711PAYLOADBYTES * skip) % U32_RANGE - G711PAYLOADBYTES * q) % U32_RANGE;
    == { TwoSums32(ts + G711PAYLOADBYTES, G711PAYLOADBYTES * skip, G711PAYLOADBYTES * q); }
      (ts + G711PAYLOADBYTES + G711PAYLOADBYTES * skip - G711PAYLOADBYTES * q) % U32_RANGE;
    == { assert G711PAYLOADBYTES + G711PAYLOADBYTES * skip - G711PAYLOADBYTES * q == -G711PAYLOADBYTES * p; }
      (ts - G711PAYLOADBYTES * p) % U32_RANGE;
    }
  }

  /** From a channel in step, the next packet is at the same offsets as the last. */
  lemma NextKeepsOffsets(o: Out, last: OutPacket, p: int, q: int, r: Release, length: nat)
    requires InLock(o, last) && p < q && r.skip == SkipCount(q % U16_RANGE, p % U16_RANGE)
    ensures SequenceOffset(Stamped(o, r.skip, length), q) == SequenceOffset(last, p)
    ensures q < p + U16_RANGE ==> ClockOffset(Stamped(o, r.skip, length), q) == ClockOffset(last, p)
  {
    SequenceStep(p, q, last.sn);
    if q < p + U16_RANGE { ClockStep(p, q, last.ts); }
  }

  /** Releases at rising positions, each skip count the gap to the one before. */
  ghost predicate Placed(rs: seq<Release>, at: seq<int>) {
    && Chained(rs) && NumbersOf(at, rs)
    && forall i, j :: 0 <= i < j < |at| ==> at[i] < at[j]
  }

  /** Successive releases are less than 65536 apart. */
  predicate Close(at: seq<int>) { forall i :: 0 < i < |at| ==> at[i] < at[i - 1] + U16_RANGE }

  /** The outgoing stamps stay at a fixed offset from the positions. */
  lemma {:induction false} OffsetsFixed(o: Out, rs: seq<Release>, at: seq<int>, lengths: seq<nat>, i: nat, j: nat)
    requires Usable(o) && o.reachable && |lengths| == |rs| && AllFull(lengths)
    requires Placed(rs, at) && i <= j < |rs|
    ensures SequenceOffset(StampAt(o, rs, lengths, i), at[i]) == SequenceOffset(StampAt(o, rs, lengths, j), at[j])
    ensures Close(at) ==> ClockOffset(StampAt(o, rs, lengths, i), at[i]) == ClockOffset(StampAt(o, rs, lengths, j), at[j])
    decreases j
  {
    if i < j {
      OffsetsFixed(o, rs, at, lengths, i, j - 1);
      EachIsSent(o, rs, lengths, j);
      NextKeepsOffsets(ForwardAll(o, rs, lengths, j), StampAt(o, rs, lengths, j - 1), at[j - 1], at[j], rs[j], lengths[j]);
    }
  }

  lemma ShiftModulo16(a: int, m: int, b: int, n: int)
    requires (a - m) % U16_RANGE == (b - n) % U16_RANGE
    ensures (b - a) % U16_RANGE == (n - m) % U16_RANGE
  {
    var k := (b - n) / U16_RANGE - (a - m) / U16_RANGE;
    assert b - a == (n - m) + U16_RANGE * k;
  }

  lemma ShiftModulo32(a: int, m: int, b: int, n: int)
    requires (a - m) % U32_RANGE == (b - n) % U32_RANGE
    ensures (b - a) % U32_RANGE == (n - m) % U32_RANGE
  {
    var k := (b - n) / U32_RANGE - (a - m) / U32_RANGE;
    assert b - a == (n - m) + U32_RANGE * k;
  }

  /** y is as far from x in sequence, and in clock, as position q is from position p. */
  predicate SequenceApart(x: OutPacket, y: OutPacket, p: int, q: int) {
    (y.sn - x.sn) % U16_RANGE == (q - p) % U16_RANGE
  }

  predicate ClockApart(x: OutPacket, y: OutPacket, p: int, q: int) {
    (y.ts - x.ts) % U32_RANGE == (G711PAYLOADBYTES * (q - p)) % U32_RANGE
  }

  lemma ForwardedDistances(o: Out, rs: seq<Release>, at: seq<int>, lengths: seq<nat>, i: nat, j: nat)
    requires Usable(o) && o.reachable && |lengths| == |rs| && AllFull(lengths)
    requires Placed(rs, at) && i <= j < |rs|
    ensures SequenceApart(StampAt(o, rs, lengths, i), StampAt(o, rs, lengths, j), at[i], at[j])
    ensures Close(at) ==> ClockApart(StampAt(o, rs, lengths, i), StampAt(o, rs, lengths, j), at[i], at[j])
  {
    hide StampAt;
    OffsetsFixed(o, rs, at, lengths, i, j);
    var x, y := StampAt(o, rs, lengths, i), StampAt(o, rs, lengths, j);
    ShiftModulo16(x.sn, at[i], y.sn, at[j]);
    if Close(at) { ShiftModulo32(x.ts, G711PAYLOADBYTES * at[i], y.ts, G711PAYLOADBYTES * at[j]); }
  }

  /** Every pair of packets sent is as far apart in sequence, or in clock, as the positions. */
  ghost predicate SequenceKept(sent: seq<OutPacket>, at: seq<int>)
    requires |sent| == |at|
  {
    forall i, j :: 0 <= i <= j < |at| ==> SequenceApart(sent[i], sent[j], at[i], at[j])
  }

  ghost predicate ClockKept(sent: seq<OutPacket>, at: seq<int>)
    requires |sent| == |at|
  {
    forall i, j :: 0 <= i <= j < |at| ==> ClockApart(sent[i], sent[j], at[i], at[j])
  }

  /** Main result: over any run of the receiving channel, wraps, losses and strangers
      included, every release goes out. Sequence differences out equal the differences of
      the positions modulo 2^16 exactly when each skip count is the gap to the release before
      it, as it is in every run without discards; and then, if successive releases are less
      than 65536 apart, timestamp differences out are 160 times those modulo 2^32 (section
      5.1 of RFC 3550). */
  lemma MixedChannelsStayLocked(es: seq<Event>, o: Out, lengths: seq<nat>)
    requires Usable(o) && o.reachable && |lengths| == |Run(es).processed| && AllFull(lengths)
    ensures var at, all := ReleasePositions(es), ForwardAll(o, Run(es).processed, lengths, |lengths|).sent;
      && |all| == |o.sent| + |lengths| && |at| == |lengths|
      && (SequenceKept(all[|o.sent|..], at) <==> Chained(Run(es).processed))
      && (Chained(Run(es).processed) && Close(at) ==> ClockKept(all[|o.sent|..], at))
      && (NoDiscard(es) ==> Chained(Run(es).processed))
  {
    hide Chained, Close, StampAt, ForwardAll, Placed, SequenceKept, ClockKept, NoDiscard;
    var rs, at := Run(es).processed, ReleasePositions(es);
    ReleasesMoveForward(es);
    SkipsInRange(es);
    EachIsSent(o, rs, lengths, |rs|);
    var all := ForwardAll(o, rs, lengths, |lengths|).sent;
    var sent := all[|o.sent|..];
    if NoDiscard(es) { UndiscardedRunsChain(es); }
    if Chained(rs) {
      PlacedIs(rs, at, Position(es));
      SentDistances(o, rs, at, lengths, sent);
    }
    if SequenceKept(sent, at) { KeptIsChained(o, rs, at, lengths, sent); }
  }

  lemma PlacedIs(rs: seq<Release>, at: seq<int>, below: int)
    requires Chained(rs) && NumbersOf(at, rs) && Increasing(at, below)
    ensures Placed(rs, at)
  {
  }

  /** A skip count is one less than a difference of two numbers. */
  predicate SkipInRange(r: Release) { (r.skip + 1) % U32_RANGE < U16_RANGE }

  lemma {:induction false} SkipsInRange(es: seq<Event>)
    ensures forall i :: 0 <= i < |Run(es).processed| ==> SkipInRange(Run(es).processed[i])
  {
    if es != [] {
      var s, e := Run(es[..|es| - 1]), es[|es| - 1];
      SkipsInRange(es[..|es| - 1]);
      NextSkipInRange(s, e);
    }
  }

  lemma NextSkipInRange(s: State, e: Event)
    requires WellFormed(s) && forall i :: 0 <= i < |s.processed| ==> SkipInRange(s.processed[i])
    ensures forall i :: 0 <= i < |Step(s, e).processed| ==> SkipInRange(Step(s, e).processed[i])
  {
    if e.WorkCall? && Ready(s) { SkipCountInRange(Bottom(s).sn, s.lastsn); }
  }

  lemma SkipCountInRange(sn: u16, last: u16)
    ensures (SkipCount(sn, last) + 1) % U32_RANGE == Sub16(sn, last)
  {
  }

  /** A skip count that keeps the sequence is the gap to the last release. */
  lemma OnlyTheGap(p: int, q: int, out: u16, skip: u32)
    requires (skip + 1) % U32_RANGE < U16_RANGE
    requires (((out + 1) % U16_RANGE + skip) % U16_RANGE - out) % U16_RANGE == (q - p) % U16_RANGE
    ensures skip == SkipCount(q % U16_RANGE, p % U16_RANGE)
  {
    NumbersApart(p, q);
    SkipOnly(out, skip);
    SkipBack(skip, (q - p) % U16_RANGE);
  }

  lemma SkipOnly(out: u16, skip: u32)
    ensures (((out + 1) % U16_RANGE + skip) % U16_RANGE - out) % U16_RANGE == (skip + 1) % U16_RANGE
  {
    Sum16(out + 1, skip);
    Sum16(out + 1 + skip, 0 - out);
  }

  lemma SkipBack(skip: u32, d: u16)
    requires (skip + 1) % U32_RANGE < U16_RANGE && (skip + 1) % U16_RANGE == d
    ensures skip == (d - 1) % U32_RANGE
  {
    if skip == U32_RANGE - 1 { assert U32_RANGE % U16_RANGE == 0; }
  }

  lemma KeptIsChained(o: Out, rs: seq<Release>, at: seq<int>, lengths: seq<nat>, sent: seq<OutPacket>)
    requires Usable(o) && o.reachable && |lengths| == |rs| == |sent| == |at| && AllFull(lengths)
    requires NumbersOf(at, rs) && SequenceKept(sent, at)
    requires forall k :: 0 <= k < |rs| ==> SkipInRange(rs[k]) && sent[k] == StampAt(o, rs, lengths, k)
    ensures Chained(rs)
  {
    forall i | 0 < i < |rs| ensures rs[i].skip == SkipCount(rs[i].packet.sn, rs[i - 1].packet.sn) {
      EachIsSent(o, rs, lengths, i);
      assert SequenceApart(sent[i - 1], sent[i], at[i - 1], at[i]);
      hide SequenceKept, ForwardAll, SequenceApart, Stamped, InLock;
      assert sent[i] == Stamped(ForwardAll(o, rs, lengths, i), rs[i].skip, lengths[i]);
      NextIsChained(ForwardAll(o, rs, lengths, i), sent[i - 1], at[i - 1], at[i], rs[i], lengths[i]);
    }
  }

  lemma NextIsChained(o: Out, last: OutPacket, p: int, q: int, r: Release, length: nat)
    requires InLock(o, last) && SkipInRange(r) && SequenceApart(last, Stamped(o, r.skip, length), p, q)
    ensures r.skip == SkipCount(q % U16_RANGE, p % U16_RANGE)
  {
    OnlyTheGap(p, q, last.sn, r.skip);
  }

  lemma SentDistances(o: Out, rs: seq<Release>, at: seq<int>, lengths: seq<nat>, sent: seq<OutPacket>)
    requires Usable(o) && o.reachable && |lengths| == |rs| == |sent| && AllFull(lengths) && Placed(rs, at)
    requires forall k :: 0 <= k < |rs| ==> sent[k] == StampAt(o, rs, lengths, k)
    ensures SequenceKept(sent, at)
    ensures Close(at) ==> ClockKept(sent, at)
  {
    hide StampAt, Close, SequenceApart, ClockApart;
    forall i, j | 0 <= i <= j < |rs|
      ensures SequenceApart(sent[i], sent[j], at[i], at[j])
      ensures Close(at) ==> ClockApart(sent[i], sent[j], at[i], at[j])
    {
      ForwardedDistances(o, rs, at, lengths, i, j);
    }
  }

  /** Without a wrap the positions are the numbers themselves, and never that far apart. */
  lemma UnwrappedIsClose(es: seq<Event>)
    requires NeverWraps(es)
    ensures var at, out := ReleasePositions(es), Run(es).processed;
      Close(at) && |at| == |out| && forall i :: 0 <= i < |at| ==> at[i] == out[i].packet.sn
  {
    ReleasesMoveForward(es);
    assert Position(es) < U16_RANGE;
    FirstLap(ReleasePositions(es), Run(es).processed, Position(es));
  }

  lemma FirstLap(at: seq<int>, out: seq<Release>, below: int)
    requires JitterSafety.Increasing(at, below) && NumbersOf(at, out) && below < U16_RANGE
    ensures Close(at) && forall i :: 0 <= i < |at| ==> at[i] == out[i].packet.sn
  {
    forall i | 0 <= i < |at| ensures at[i] == out[i].packet.sn { assert 0 <= at[i] < U16_RANGE; }
  }
}
