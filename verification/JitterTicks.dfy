// Packets arrive at any time, and the buffer is drained when the channel ticks: what holds
// when several packets come between two ticks.

module JitterTicks {
  import opened Common
  import opened JitterBuffer
  import opened JitterReorder

  datatype Moment = Arrival(pk: Packet) | Tick

  function Arrivals(ms: seq<Moment>): seq<Packet> {
    if ms == [] then []
    else
      var before, m := Arrivals(ms[..|ms| - 1]), ms[|ms| - 1];
      if m.Tick? then before else before + [m.pk]
  }

  /** What had arrived by the last tick. */
  function Ticked(ms: seq<Moment>): seq<Packet> {
    if ms == [] then []
    else if ms[|ms| - 1].Tick? then Arrivals(ms)
    else Ticked(ms[..|ms| - 1])
  }

  /** The first number not overtaken by 10 at the last tick. */
  function Due(a: seq<Packet>, ticked: seq<Packet>): int
    requires a != []
  {
    if ticked == [] || Highest(ticked) - BUFFERDELAYCOUNT < a[0].sn then a[0].sn
    else Highest(ticked) - BUFFERDELAYCOUNT + 1
  }

  ghost function FeedTicks(ms: seq<Moment>, src: Endpoint): (s: State)
    ensures WellFormed(s)
  {
    if ms == [] then Fresh()
    else
      var s, m := FeedTicks(ms[..|ms| - 1], src), ms[|ms| - 1];
      match m
      case Arrival(pk) => (ArriveWellFormed(s, pk, src); Arrive(s, pk, src))
      case Tick => Drain(s)
  }

  /** The first number is 0 or above 20, each packet fits as things stand since the last
      tick, and at each tick nothing is missing that has been overtaken by 10. */
  ghost predicate Timely(ms: seq<Moment>) {
    ms == [] ||
    (var before := ms[..|ms| - 1];
     Timely(before) && TimelyNext(Arrivals(before), Ticked(before), ms[|ms| - 1]))
  }

  ghost predicate TimelyNext(a: seq<Packet>, ticked: seq<Packet>, m: Moment) {
    match m
    case Arrival(pk) => if a == [] then GoodStart([pk]) else Fits(Due(a, ticked), a, pk)
    case Tick => a != [] ==> AllCome(a)
  }

  /** In step, and everything due at the last tick has gone. */
  ghost predicate UpToDate(s: State, a: seq<Packet>, ticked: seq<Packet>, src: Endpoint) {
    if a == [] then s == Fresh() && ticked == []
    else Buffered(s, a, src) && s.minsn == Due(a, ticked)
  }

  lemma DrainCatchesUp(s: State, a: seq<Packet>, src: Endpoint)
    requires a != [] && Buffered(s, a, src) && AllCome(a)
    ensures UpToDate(Drain(s), a, a, src)
  {
    DrainBuffered(s, a, src);
  }

  lemma ArrivalKeepsUp(s: State, a: seq<Packet>, ticked: seq<Packet>, pk: Packet, src: Endpoint)
    requires UpToDate(s, a, ticked, src) && TimelyNext(a, ticked, Arrival(pk)) && WellFormed(s)
    ensures UpToDate(Arrive(s, pk, src), a + [pk], ticked, src)
  {
    if a == [] {
      FirstArrival(pk, src);
      assert a + [pk] == [pk];
    } else {
      hide Fits, Highest;
      ArriveBuffered(s, a, pk, src);
      StoredOnly(s, a, pk, src);
    }
  }

  lemma StoredOnly(s: State, a: seq<Packet>, pk: Packet, src: Endpoint)
    requires Buffered(s, a, src) && Fits(s.minsn, a, pk)
    ensures Arrive(s, pk, src).minsn == s.minsn && (a + [pk])[0] == a[0]
  {
  }

  lemma {:induction false} TicksKeepUp(ms: seq<Moment>, src: Endpoint)
    requires Timely(ms)
    ensures UpToDate(FeedTicks(ms, src), Arrivals(ms), Ticked(ms), src)
    decreases |ms|
  {
    hide Arrive, Drain, Buffered, Due, AllCome, Fits;
    if ms != [] {
      var before, m := ms[..|ms| - 1], ms[|ms| - 1];
      TicksKeepUp(before, src);
      var s, a := FeedTicks(before, src), Arrivals(before);
      match m
      case Arrival(pk) => ArrivalKeepsUp(s, a, Ticked(before), pk, src);
      case Tick => if a == [] { FreshDrains(); } else { DrainCatchesUp(s, a, src); }
    }
  }

  lemma FreshDrains()
    ensures Drain(Fresh()) == Fresh()
  {
  }

  /** Main result. Whenever the ticks come: as long as each packet fits and nothing overtaken
      by 10 is missing at a tick, exactly what had been overtaken by 10 at the last tick has
      been released, each number once, in order, unaltered, with nothing skipped. */
  lemma TimelyReorderingIsRepaired(ms: seq<Moment>, src: Endpoint)
    requires Timely(ms) && Arrivals(ms) != []
    ensures var a, out := Arrivals(ms), FeedTicks(ms, src).processed;
      && |out| == Due(a, Ticked(ms)) - a[0].sn
      && forall k :: 0 <= k < |out| ==> out[k].packet in a && out[k].packet.sn == a[0].sn + k && out[k].skip == 0
  {
    TicksKeepUp(ms, src);
  }

  // ---- in order, in bursts

  /** In order from first, with at most ten packets between two ticks. */
  ghost predicate Bursts(ms: seq<Moment>, first: u16) {
    ms == [] ||
    (var before, m := ms[..|ms| - 1], ms[|ms| - 1];
     Bursts(before, first)
     && (m.Arrival? ==> m.pk.sn == first + |Arrivals(before)| && |Arrivals(before)| - |Ticked(before)| < BUFFERDELAYCOUNT))
  }

  ghost predicate Consecutive(a: seq<Packet>, first: u16) { forall k :: 0 <= k < |a| ==> a[k].sn == first + k }

  lemma {:induction false} BurstsAreConsecutive(ms: seq<Moment>, first: u16)
    requires Bursts(ms, first)
    ensures Consecutive(Arrivals(ms), first) && Ticked(ms) <= Arrivals(ms)
    ensures |Arrivals(ms)| - |Ticked(ms)| <= BUFFERDELAYCOUNT
    decreases |ms|
  {
    if ms != [] { BurstsAreConsecutive(ms[..|ms| - 1], first); }
  }

  lemma ConsecutiveHighest(a: seq<Packet>, first: u16)
    requires Consecutive(a, first) && a != []
    ensures Highest(a) == first + |a| - 1 && AllCome(a)
  {
    assert a[|a| - 1].sn == first + |a| - 1;
    forall q | first <= q <= Highest(a) - BUFFERDELAYCOUNT ensures Seen(a, |a|, q) { assert a[q - first].sn == q; }
  }

  lemma NextFits(a: seq<Packet>, ticked: seq<Packet>, first: u16, pk: Packet)
    requires Consecutive(a, first) && a != [] && ticked <= a && pk.sn == first + |a|
    requires |a| - |ticked| < BUFFERDELAYCOUNT
    ensures Fits(Due(a, ticked), a, pk)
  {
    if ticked != [] { ConsecutiveHighest(ticked, first); }
    assert a[0].sn == first;
    var due := Due(a, ticked);
    forall j | 0 <= j < |a| && a[j].sn >= due ensures |a| - j < BUFFERPACKETCOUNT { assert a[j].sn == first + j; }
  }

  /** So an in-order stream may come in bursts of up to ten packets between ticks. */
  lemma {:induction false} BurstsAreTimely(ms: seq<Moment>, first: u16)
    requires Bursts(ms, first) && (first == 0 || first > BUFFERPACKETCOUNT)
    ensures Timely(ms)
    decreases |ms|
  {
    hide Fits, Due, AllCome;
    if ms != [] {
      var before, m := ms[..|ms| - 1], ms[|ms| - 1];
      BurstsAreTimely(before, first);
      BurstsAreConsecutive(before, first);
      if Arrivals(before) != [] {
        if m.Tick? { ConsecutiveHighest(Arrivals(before), first); }
        else { NextFits(Arrivals(before), Ticked(before), first, m.pk); }
      }
    }
  }

  /** Ten is tight: the eleventh packet since a tick takes the slot of the one that is due, so
      the next tick releases nothing. */
  lemma ElevenAreTooMany(ms: seq<Moment>, first: u16, pk: Packet, src: Endpoint)
    requires Bursts(ms, first) && (first == 0 || first > BUFFERPACKETCOUNT)
    requires |Ticked(ms)| >= BUFFERDELAYCOUNT && |Arrivals(ms)| == |Ticked(ms)| + BUFFERDELAYCOUNT
    requires pk.sn == first + |Arrivals(ms)|
    ensures var t := FeedTicks(ms + [Arrival(pk)], src);
      && t.ordered[t.bottom].Some? && Bottom(t) == pk && pk.sn == t.minsn + BUFFERPACKETCOUNT
      && FeedTicks(ms + [Arrival(pk), Tick], src) == t
  {
    hide *;
    var s, a := FeedTicks(ms, src), Arrivals(ms);
    AfterTenMore(ms, first, src);
    NextMoment(ms, Arrival(pk), src);
    NextMoment(ms + [Arrival(pk)], Tick, src);
    assert ms + [Arrival(pk)] + [Tick] == ms + [Arrival(pk), Tick];
    SlotTaken(s, a, pk, src);
  }

  lemma AfterTenMore(ms: seq<Moment>, first: u16, src: Endpoint)
    requires Bursts(ms, first) && (first == 0 || first > BUFFERPACKETCOUNT)
    requires |Ticked(ms)| >= BUFFERDELAYCOUNT && |Arrivals(ms)| == |Ticked(ms)| + BUFFERDELAYCOUNT
    ensures var s, a := FeedTicks(ms, src), Arrivals(ms);
      && InStep(s, a, src) && Highest(a) == first + |a| - 1
      && s.minsn + BUFFERPACKETCOUNT == first + |a|
  {
    var a, ticked := Arrivals(ms), Ticked(ms);
    hide *;
    BurstsAreTimely(ms, first);
    BurstsAreConsecutive(ms, first);
    TicksKeepUp(ms, src);
    DueAfterTen(FeedTicks(ms, src), Arrivals(ms), Ticked(ms), first, src);
  }

  lemma DueAfterTen(s: State, a: seq<Packet>, ticked: seq<Packet>, first: u16, src: Endpoint)
    requires UpToDate(s, a, ticked, src) && Consecutive(a, first) && ticked <= a
    requires |ticked| >= BUFFERDELAYCOUNT && |a| == |ticked| + BUFFERDELAYCOUNT
    ensures InStep(s, a, src) && Highest(a) == first + |a| - 1 && s.minsn + BUFFERPACKETCOUNT == first + |a|
  {
    hide Highest, AllHeld, NoStray, Released, AllCome;
    assert a[0].sn == first && Consecutive(ticked, first);
    ConsecutiveHighest(ticked, first);
    ConsecutiveHighest(a, first);
  }

  lemma NextMoment(ms: seq<Moment>, m: Moment, src: Endpoint)
    ensures WellFormed(FeedTicks(ms, src))
    ensures m.Arrival? ==> FeedTicks(ms + [m], src) == Arrive(FeedTicks(ms, src), m.pk, src)
    ensures m.Tick? ==> FeedTicks(ms + [m], src) == Drain(FeedTicks(ms, src))
  {
    assert (ms + [m])[..|ms|] == ms;
  }

  lemma SlotTaken(s: State, a: seq<Packet>, pk: Packet, src: Endpoint)
    requires InStep(s, a, src) && pk.sn == s.minsn + BUFFERPACKETCOUNT && Highest(a) < pk.sn
    ensures var t := Arrive(s, pk, src);
      && WellFormed(t) && t.ordered[t.bottom].Some? && Bottom(t) == pk && t.minsn == s.minsn && Drain(t) == t
  {
    var t := Arrive(s, pk, src);
    ArriveEffect(s, pk, src);
    hide Arrive, Ready, Drain, Highest;
    AddMultiple(s.minsn, BUFFERPACKETCOUNT, 1);
    assert SlotOf(pk) == t.bottom && Bottom(t) == pk;
    assert t.maxsn == pk.sn;
    NewestIsYoung(t);
  }
}
