// The sizes 10 and 20 are tight: with one more place of reordering, and nothing lost or
// duplicated on the way, a packet is lost in the buffer.

module JitterTight {
  import opened Common
  import opened JitterBuffer
  import opened JitterReorder
  import Safety = JitterSafety

  /** The window of bounded reordering, one place wider: packet m only arrives after every
      number below m - 10. */
  ghost predicate InWiderWindow(a: seq<Packet>) {
    && (a != [] ==> a[0].sn > BUFFERPACKETCOUNT)
    && (forall i :: 0 <= i < |a| ==> a[0].sn <= a[i].sn)
    && (forall i, j :: 0 <= i < j < |a| ==> a[i].sn != a[j].sn)
    && (forall i, q :: 0 <= i < |a| && a[0].sn <= q < a[i].sn - BUFFERDELAYCOUNT ==> Seen(a, i, q))
  }

  /** 30, 41, 31, 42, 32 and so on up to 50, 40, 51. */
  function NumberAt(k: nat): (r: u16)
    requires k < 22
  {
    if k % 2 == 1 then 41 + k / 2 else 30 + k / 2
  }

  function Zigzag(n: nat): (a: seq<Packet>)
    requires n <= 22
    ensures |a| == n && forall k :: 0 <= k < n ==> a[k] == Packet(NumberAt(k), [])
  {
    seq(n, k requires 0 <= k < n => Packet(NumberAt(k), []))
  }

  lemma ZigzagIsInWiderWindow()
    ensures InWiderWindow(Zigzag(22))
  {
    var a := Zigzag(22);
    forall i, q | 0 <= i < |a| && a[0].sn <= q < a[i].sn - BUFFERDELAYCOUNT ensures Seen(a, i, q) {
      var j := 2 * (q - 30);
      assert a[j].sn == q;
    }
  }

  /** The one buffer with number 41 is buffer 1, and 41 has not been released. */
  ghost predicate FortyOneWaits(s: State)
    requires WellFormed(s)
  {
    && (forall k :: 0 <= k < BUFFERPACKETCOUNT ==> (s.rtpdata[k].sn == 41 <==> k == 1))
    && (forall k :: 0 <= k < |s.processed| ==> s.processed[k].packet.sn != 41)
  }

  /** The bottom slot and the next buffer after i pairs, counted round the rings. */
  function BottomAt(i: nat): nat { if i <= 8 then 11 + i else i - 9 }
  function IndexAt(i: nat): nat { if i <= 9 then 2 * i + 1 else 1 }

  lemma RoundTheRings(i: nat)
    requires 1 <= i <= 9
    ensures (31 + i) % BUFFERPACKETCOUNT == BottomAt(i) && (BottomAt(i) + 1) % BUFFERPACKETCOUNT == BottomAt(i + 1)
    ensures (41 + i) % BUFFERPACKETCOUNT == i + 1
    ensures (IndexAt(i) + 1) % BUFFERPACKETCOUNT == (if i == 9 then 0 else 2 * i + 2)
    ensures (if i == 9 then 0 else 2 * i + 2) + 1 == IndexAt(i + 1)
  {
  }

  /** After 30 and i pairs: 30 to 29+i are gone, 30+i has come, 41 to 40+i wait. */
  ghost predicate AfterPairs(s: State, i: nat, src: Endpoint) {
    && WellFormed(s) && s.received && s.reading && s.confirmed == src
    && s.indexin == IndexAt(i)
    && s.maxsn == 40 + i && s.minsn == 31 + i && s.bottom == BottomAt(i)
    && (forall k :: 0 <= k < BUFFERPACKETCOUNT ==> s.ordered[k] == if 1 <= k <= i then Some(2 * k - 1) else None)
    && FortyOneWaits(s)
  }

  /** Feeding one more of the zigzag. */
  lemma FeedNext(n: nat, src: Endpoint)
    requires n < 22
    ensures WellFormed(Arrive(Feed(Zigzag(n), src), Packet(NumberAt(n), []), src))
    ensures Feed(Zigzag(n + 1), src) == Drain(Arrive(Feed(Zigzag(n), src), Packet(NumberAt(n), []), src))
  {
    assert Zigzag(n + 1)[..n] == Zigzag(n);
    ArriveWellFormed(Feed(Zigzag(n), src), Packet(NumberAt(n), []), src);
  }

  /** The high half of a pair waits: the slot at the bottom is empty. */
  lemma HighWaits(s: State, i: nat, src: Endpoint)
    requires 1 <= i <= 9 && AfterPairs(s, i, src)
    ensures var t := Arrive(s, Packet(41 + i, []), src);
            && WellFormed(t) && Drain(t) == t
            && t == s.(rtpdata := t.rtpdata, ordered := s.ordered[i + 1 := Some(2 * i + 1)], maxsn := 41 + i,
                       indexin := if i == 9 then 0 else 2 * i + 2)
            && FortyOneWaits(t)
  {
    var t := Arrive(s, Packet(41 + i, []), src);
    RoundTheRings(i);
    assert t.ordered[t.bottom].None?;
  }

  /** The low half of a pair goes to the bottom, and is old enough. */
  lemma LowArrives(t: State, pk: Packet, src: Endpoint)
    requires WellFormed(t) && t.received && t.reading && t.confirmed == src
    requires t.minsn == pk.sn && t.bottom == pk.sn % BUFFERPACKETCOUNT && t.maxsn == pk.sn + BUFFERDELAYCOUNT
    ensures var u := Arrive(t, pk, src);
            && WellFormed(u) && Ready(u)
            && Work(u) == t.(rtpdata := t.rtpdata[t.indexin := pk], ordered := t.ordered[t.bottom := None],
                             indexin := (t.indexin + 1) % BUFFERPACKETCOUNT, lastsn := pk.sn,
                             minsn := (pk.sn + 1) % U16_RANGE, bottom := (t.bottom + 1) % BUFFERPACKETCOUNT,
                             processed := t.processed + [Release(pk, SkipCount(pk.sn, t.lastsn))])
  {
    var u := Arrive(t, pk, src);
    assert u.ordered[u.bottom] == Some(t.indexin) && Bottom(u) == pk;
    assert u.ordered[u.bottom := None] == t.ordered[t.bottom := None];
  }

  /** It is released at once, and then the next slot is empty or too young. */
  lemma LowGoes(s: State, i: nat, src: Endpoint, t: State)
    requires 1 <= i <= 9 && AfterPairs(s, i, src) && t == Arrive(s, Packet(41 + i, []), src)
    ensures WellFormed(t) && Drain(t) == t && WellFormed(Arrive(t, Packet(31 + i, []), src))
    ensures AfterPairs(Drain(Arrive(t, Packet(31 + i, []), src)), i + 1, src)
  {
    HighWaits(s, i, src);
    RoundTheRings(i);
    hide Arrive, Drain, Ready;
    LowArrives(t, Packet(31 + i, []), src);
    var w := Work(Arrive(t, Packet(31 + i, []), src));
    hide Work;
    assert w.bottom == BottomAt(i + 1) && w.rtpdata == t.rtpdata[t.indexin := Packet(31 + i, [])];
    SlotsAfter(s, i, src, t, w);
    StillWaits(t, w, t.indexin, Release(Packet(31 + i, []), SkipCount(31 + i, t.lastsn)));
    assert w.rtpdata[1].sn == 41;
    hide FortyOneWaits, SkipCount;
    NextIsYoung(w, i + 1);
  }

  lemma StillWaits(t: State, w: State, at: nat, r: Release)
    requires WellFormed(t) && WellFormed(w) && FortyOneWaits(t) && at < BUFFERPACKETCOUNT && at != 1
    requires r.packet.sn != 41 && w.rtpdata == t.rtpdata[at := r.packet] && w.processed == t.processed + [r]
    ensures FortyOneWaits(w)
  {
  }

  lemma SlotsAfter(s: State, i: nat, src: Endpoint, t: State, w: State)
    requires 1 <= i <= 9 && AfterPairs(s, i, src) && WellFormed(t) && WellFormed(w)
    requires t.ordered == s.ordered[i + 1 := Some(2 * i + 1)] && w.ordered == t.ordered[BottomAt(i) := None]
    ensures forall k :: 0 <= k < BUFFERPACKETCOUNT ==> w.ordered[k] == if 1 <= k <= i + 1 then Some(2 * k - 1) else None
  {
  }

  lemma NextIsYoung(w: State, i: nat)
    requires 2 <= i <= 10 && WellFormed(w) && w.maxsn == 40 + i && w.bottom == BottomAt(i)
    requires forall k :: 0 <= k < BUFFERPACKETCOUNT ==> w.ordered[k] == if 1 <= k <= i then Some(2 * k - 1) else None
    requires w.rtpdata[1].sn == 41
    ensures !Ready(w) && Drain(w) == w
  {
    if i == 10 { assert w.bottom == 1 && Bottom(w).sn == 41; }
  }

  lemma FirstArrives(src: Endpoint)
    ensures var s := Arrive(Fresh(), Packet(30, []), src);
            && WellFormed(s) && Drain(s) == s && s.received && s.reading && s.confirmed == src && s.indexin == 1
            && s.minsn == 30 && s.maxsn == 30 && s.bottom == 10 && s.processed == []
            && s.rtpdata == Fresh().rtpdata[0 := Packet(30, [])] && s.ordered == Fresh().ordered[10 := Some(0)]
  {
  }

  lemma SecondArrives(s: State, src: Endpoint)
    requires WellFormed(s) && s == Arrive(Fresh(), Packet(30, []), src)
    ensures var t := Arrive(s, Packet(41, []), src);
            && WellFormed(t) && Drain(t) == Work(t)
            && Work(t).received && Work(t).reading && Work(t).confirmed == src && Work(t).indexin == 2
            && Work(t).minsn == 31 && Work(t).maxsn == 41 && Work(t).bottom == 11
            && |Work(t).processed| == 1 && Work(t).processed[0].packet.sn == 30
            && Work(t).rtpdata == s.rtpdata[1 := Packet(41, [])] && Work(t).ordered == Fresh().ordered[1 := Some(1)]
  {
    FirstArrives(src);
    var t := Arrive(s, Packet(41, []), src);
    assert Bottom(t).sn == 30 && Ready(t);
    assert Work(t).ordered == Fresh().ordered[1 := Some(1)];
    assert !Ready(Work(t));
  }

  lemma ThirdGoes(t: State, src: Endpoint)
    requires WellFormed(t) && t.received && t.reading && t.confirmed == src && t.indexin == 2
    requires t.minsn == 31 && t.maxsn == 41 && t.bottom == 11
    requires |t.processed| == 1 && t.processed[0].packet.sn == 30
    requires t.rtpdata == Fresh().rtpdata[0 := Packet(30, [])][1 := Packet(41, [])]
    requires t.ordered == Fresh().ordered[1 := Some(1)]
    ensures WellFormed(Arrive(t, Packet(31, []), src))
    ensures AfterPairs(Drain(Arrive(t, Packet(31, []), src)), 1, src)
  {
    LowArrives(t, Packet(31, []), src);
    var w := Work(Arrive(t, Packet(31, []), src));
    assert w.ordered[w.bottom].None? && Drain(w) == w;
  }

  lemma FirstPairFed(src: Endpoint)
    ensures AfterPairs(Feed(Zigzag(3), src), 1, src)
  {
    assert NumberAt(0) == 30 && NumberAt(1) == 41 && NumberAt(2) == 31;
    NothingFed(src);
    hide Arrive, Drain, Work, AfterPairs, Feed, Zigzag, NumberAt, Fresh;
    FeedNext(0, src);
    FeedNext(1, src);
    FeedNext(2, src);
    var s := Arrive(Fresh(), Packet(30, []), src);
    FirstArrives(src);
    SecondArrives(s, src);
    ThirdGoes(Work(Arrive(s, Packet(41, []), src)), src);
  }

  lemma PairNumbers(n: nat, i: nat)
    requires n == 2 * i + 1 && i <= 9
    ensures NumberAt(n) == 41 + i && NumberAt(n + 1) == 31 + i
  {
    assert n % 2 == 1 && n / 2 == i;
    assert (n + 1) % 2 == 0 && (n + 1) / 2 == i + 1;
  }

  lemma NextPairFed(n: nat, i: nat, src: Endpoint)
    requires 1 <= i <= 9 && n == 2 * i + 1 && AfterPairs(Feed(Zigzag(n), src), i, src)
    ensures AfterPairs(Feed(Zigzag(n + 2), src), i + 1, src)
  {
    hide *;
    PairNumbers(n, i);
    FeedNext(n, src);
    FeedNext(n + 1, src);
    var s := Feed(Zigzag(n), src);
    LowGoes(s, i, src, Arrive(s, Packet(41 + i, []), src));
  }

  lemma {:induction false} PairsFed(i: nat, src: Endpoint)
    requires 1 <= i <= 10
    ensures AfterPairs(Feed(Zigzag(2 * i + 1), src), i, src)
  {
    hide AfterPairs, Feed, Zigzag;
    if i == 1 {
      FirstPairFed(src);
    } else {
      PairsFed(i - 1, src);
      NextPairFed(2 * i - 1, i - 1, src);
    }
  }

  lemma NothingFed(src: Endpoint)
    ensures Feed(Zigzag(0), src) == Fresh()
  {
  }

  lemma LastArrives(s: State, src: Endpoint)
    requires AfterPairs(s, 10, src)
    ensures var t := Arrive(s, Packet(51, []), src);
            && WellFormed(t) && Drain(t) == t && t.processed == s.processed
            && t.rtpdata == s.rtpdata[1 := Packet(51, [])]
  {
    var t := Arrive(s, Packet(51, []), src);
    assert t.bottom == 1 && t.ordered[1] == Some(1) && Bottom(t).sn == 51;
    assert !Ready(t);
  }

  /** Tightness: every number from 30 to 51 arrives exactly once, each at most one place
      outside the window, and when 51 has come 41 has been neither released nor kept:
      51 was read into its buffer. */
  lemma OnePlaceMoreLosesAPacket(src: Endpoint)
    ensures var a := Zigzag(22); var s := Feed(a, src);
            && InWiderWindow(a) && Packet(41, []) in a && Packet(51, []) in a
            && (forall k :: 0 <= k < |s.processed| ==> s.processed[k].packet.sn != 41)
            && (forall k :: 0 <= k < BUFFERPACKETCOUNT ==> s.rtpdata[k].sn != 41)
  {
    var a := Zigzag(22);
    ZigzagIsInWiderWindow();
    assert a[1] == Packet(41, []) && a[21] == Packet(51, []);
    assert NumberAt(21) == 51;
    hide Arrive, Drain, Feed, Zigzag, InWiderWindow;
    PairsFed(10, src);
    FeedNext(21, src);
    LastArrives(Feed(Zigzag(21), src), src);
  }

  /** open() on a used channel: the pointers are those of a fresh one exactly when the ten
      that it does not clear were already empty. */
  lemma ReopenedIsFreshIff(s: State)
    requires WellFormed(s)
    ensures Reopen(s).ordered == Fresh().ordered <==>
              forall k :: BUFFERDELAYCOUNT <= k < BUFFERPACKETCOUNT ==> s.ordered[k].None?
  {
    if Reopen(s).ordered == Fresh().ordered {
      forall k | BUFFERDELAYCOUNT <= k < BUFFERPACKETCOUNT ensures s.ordered[k].None? {
        assert Reopen(s).ordered[k] == s.ordered[k];
      }
    }
  }

  // ---- a channel used again

  ghost function RunFrom(s: State, es: seq<Safety.Event>): (t: State)
    requires WellFormed(s)
    ensures WellFormed(t)
  {
    if es == [] then s else Safety.Step(RunFrom(s, es[..|es| - 1]), es[|es| - 1])
  }

  /** s goes on where t does, whatever buffers it has left over, after having released old. */
  ghost predicate GoesOnAs(s: State, t: State, past: seq<Release>)
    requires WellFormed(s) && WellFormed(t)
  {
    && s.ordered == t.ordered && s.minsn == t.minsn && s.maxsn == t.maxsn && s.bottom == t.bottom && s.lastsn == t.lastsn
    && s.indexin == t.indexin && s.received == t.received && s.reading == t.reading
    && (s.received ==> s.confirmed == t.confirmed)
    && (forall k :: 0 <= k < BUFFERPACKETCOUNT && t.ordered[k].Some? ==> s.rtpdata[t.ordered[k].value] == t.rtpdata[t.ordered[k].value])
    && s.processed == past + t.processed
  }

  lemma ArriveGoesOn(s: State, t: State, pk: Packet, src: Endpoint, past: seq<Release>)
    requires WellFormed(s) && WellFormed(t) && GoesOnAs(s, t, past)
    ensures WellFormed(Arrive(s, pk, src)) && WellFormed(Arrive(t, pk, src))
    ensures GoesOnAs(Arrive(s, pk, src), Arrive(t, pk, src), past)
  {
  }

  lemma WorkGoesOn(s: State, t: State, past: seq<Release>)
    requires WellFormed(s) && WellFormed(t) && GoesOnAs(s, t, past)
    ensures GoesOnAs(Work(s), Work(t), past)
  {
    assert Ready(s) == Ready(t);
  }

  /** A channel opened again with none of the pointers left over that open does not clear does
      from then on exactly what a fresh one does. */
  lemma {:induction false} ReopenedGoesOnAsFresh(s: State, es: seq<Safety.Event>)
    requires WellFormed(s) && forall k :: BUFFERDELAYCOUNT <= k < BUFFERPACKETCOUNT ==> s.ordered[k].None?
    ensures WellFormed(Reopen(s)) && GoesOnAs(RunFrom(Reopen(s), es), Safety.Run(es), s.processed)
  {
    hide Arrive, Work, GoesOnAs;
    if es == [] {
      ReopenedIsFreshIff(s);
      assert GoesOnAs(Reopen(s), Fresh(), s.processed) by { ReopenedStarts(s); }
    } else {
      ReopenedGoesOnAsFresh(s, es[..|es| - 1]);
      var r, t := RunFrom(Reopen(s), es[..|es| - 1]), Safety.Run(es[..|es| - 1]);
      match es[|es| - 1]
      case Datagram(pk, src) => ArriveGoesOn(r, t, pk, src, s.processed);
      case WorkCall => WorkGoesOn(r, t, s.processed);
    }
  }

  lemma ReopenedStarts(s: State)
    requires WellFormed(s) && forall k :: BUFFERDELAYCOUNT <= k < BUFFERPACKETCOUNT ==> s.ordered[k].None?
    ensures WellFormed(Reopen(s)) && GoesOnAs(Reopen(s), Fresh(), s.processed)
  {
    ReopenedIsFreshIff(s);
  }
}
