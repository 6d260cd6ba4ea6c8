// What every run of the jitter buffer keeps, whatever is lost, duplicated or
// reordered and however the work calls are interleaved with arrivals.

module JitterSafety {
  import opened Common
  import opened JitterBuffer

  datatype Event = Datagram(pk: Packet, src: Endpoint) | WorkCall

  ghost function Step(s: State, e: Event): (t: State)
    requires WellFormed(s)
    ensures WellFormed(t)
  {
    match e
    case Datagram(pk, src) => Arrive(s, pk, src)
    case WorkCall => Work(s)
  }

  ghost function Run(es: seq<Event>): (s: State)
    ensures WellFormed(s)
  {
    if es == [] then Fresh() else Step(Run(es[..|es| - 1]), es[|es| - 1])
  }

  /** The packets accepted and ordered: those that found a read outstanding and
      came from the confirmed endpoint, in arrival order. */
  ghost function Accepted(es: seq<Event>): seq<Packet> {
    if es == [] then [] else
    var before, e := es[..|es| - 1], es[|es| - 1];
    if e.Datagram? && Accepts(Run(before), e.src) then Accepted(before) + [e.pk] else Accepted(before)
  }

  predicate Accepts(s: State, src: Endpoint) {
    s.reading && (s.received ==> s.confirmed == src)
  }

  /** The lower bound never steps past 65535 in this run. */
  ghost predicate NeverWraps(es: seq<Event>) {
    es == [] || (NeverWraps(es[..|es| - 1]) && !(es[|es| - 1].WorkCall? && Wraps(Run(es[..|es| - 1]))))
  }

  predicate Wraps(s: State)
    requires WellFormed(s)
  {
    Ready(s) && s.minsn == U16_RANGE - 1
  }

  /** A caller's guarantee against wrapping: numbers and steps together stay below 65536. */
  lemma {:induction false} ShortRunsNeverWrap(es: seq<Event>, top: nat)
    requires forall i :: 0 <= i < |es| && es[i].Datagram? ==> es[i].pk.sn <= top
    requires top + |es| < U16_RANGE
    ensures NeverWraps(es) && Run(es).minsn <= top + |es|
  {
    if es != [] {
      ShortRunsNeverWrap(es[..|es| - 1], top);
      BoundStep(Run(es[..|es| - 1]), es[|es| - 1]);
    }
  }

  lemma BoundStep(s: State, e: Event)
    requires WellFormed(s)
    ensures Step(s, e).minsn <= s.minsn + 1 || (e.Datagram? && Step(s, e).minsn == e.pk.sn)
  {
  }

  predicate Aligned(s: State) { s.bottom == s.minsn % BUFFERPACKETCOUNT }

  /** The exact condition under which one step keeps bottom in line with the lower
      bound: 65536 is not a multiple of 20, so it is lost by the step that wraps. */
  lemma AlignmentLostExactlyByWrap(s: State, e: Event)
    requires WellFormed(s) && Aligned(s)
    ensures Aligned(Step(s, e)) <==> !(e.WorkCall? && Wraps(s))
  {
    BothUpOne(s.bottom, s.minsn);
  }

  lemma BothUpOne(b: nat, m: nat)
    requires b < BUFFERPACKETCOUNT
    ensures (b + 1) % BUFFERPACKETCOUNT == (m + 1) % BUFFERPACKETCOUNT <==> b == m % BUFFERPACKETCOUNT
  {
  }

  /** The packets that completed a read: the accepted ones, and the one from
      another endpoint, if any, after which no read is started. */
  ghost function Heard(es: seq<Event>): seq<Packet> {
    if es == [] then [] else
    var before, e := es[..|es| - 1], es[|es| - 1];
    if e.Datagram? && Run(before).reading then Heard(before) + [e.pk] else Heard(before)
  }

  /** Pointer k was last set by the n-th accepted packet. */
  ghost predicate SetBy(s: State, a: seq<Packet>, k: nat, n: nat)
    requires WellFormed(s) && k < BUFFERPACKETCOUNT && n < |a|
  {
    && SlotOf(a[n]) == k
    && s.ordered[k] == Some(n % BUFFERPACKETCOUNT)
    && (forall m :: n < m < |a| ==> SlotOf(a[m]) != k)
  }

  /** The last 19 accepted packets are all still in the arrival ring. */
  ghost predicate RingIntact(s: State, a: seq<Packet>)
    requires WellFormed(s)
  {
    && s.indexin == |a| % BUFFERPACKETCOUNT
    && (forall n :: 0 <= n < |a| && |a| - n < BUFFERPACKETCOUNT ==> s.rtpdata[n % BUFFERPACKETCOUNT] == a[n])
  }

  ghost predicate Written(s: State, a: seq<Packet>, k: nat)
    requires WellFormed(s) && k < BUFFERPACKETCOUNT
  {
    exists n :: 0 <= n < |a| && SetBy(s, a, k, n)
  }

  ghost predicate PointersSet(s: State, a: seq<Packet>)
    requires WellFormed(s)
  {
    forall k :: 0 <= k < BUFFERPACKETCOUNT && s.ordered[k].Some? ==> Written(s, a, k)
  }

  lemma StoreKeepsRing(s: State, t: State, a: seq<Packet>, pk: Packet)
    requires WellFormed(s) && WellFormed(t) && RingIntact(s, a)
    requires t.rtpdata == s.rtpdata[s.indexin := pk]
    requires t.indexin == (s.indexin + 1) % BUFFERPACKETCOUNT
    ensures RingIntact(t, a + [pk])
  {
    var b := a + [pk];
    forall n | 0 <= n < |b| && |b| - n < BUFFERPACKETCOUNT
      ensures t.rtpdata[n % BUFFERPACKETCOUNT] == b[n]
    {
      if n < |a| {
        assert b[n] == a[n] && s.rtpdata[n % BUFFERPACKETCOUNT] == a[n];
        assert n % BUFFERPACKETCOUNT != s.indexin;
      }
    }
  }

  /** A datagram from elsewhere only reaches the buffer that is next to be filled. */
  lemma StrayKeepsRing(s: State, t: State, a: seq<Packet>, pk: Packet)
    requires WellFormed(s) && WellFormed(t) && RingIntact(s, a) && PointersSet(s, a)
    requires t.rtpdata == s.rtpdata[s.indexin := pk]
    requires t.indexin == s.indexin && t.ordered == s.ordered
    ensures RingIntact(t, a) && PointersSet(t, a)
  {
    forall n | 0 <= n < |a| && |a| - n < BUFFERPACKETCOUNT
      ensures t.rtpdata[n % BUFFERPACKETCOUNT] == a[n]
    {
      assert s.rtpdata[n % BUFFERPACKETCOUNT] == a[n];
      assert n % BUFFERPACKETCOUNT != s.indexin;
    }
    forall k | 0 <= k < BUFFERPACKETCOUNT && t.ordered[k].Some?
      ensures Written(t, a, k)
    {
      assert Written(s, a, k);
      var n :| 0 <= n < |a| && SetBy(s, a, k, n);
      assert SetBy(t, a, k, n);
    }
  }

  lemma StoreKeepsPointers(s: State, t: State, a: seq<Packet>, pk: Packet)
    requires WellFormed(s) && WellFormed(t) && PointersSet(s, a)
    requires s.indexin == |a| % BUFFERPACKETCOUNT
    requires t.ordered == s.ordered[SlotOf(pk) := Some(s.indexin)]
    ensures PointersSet(t, a + [pk])
  {
    var b := a + [pk];
    forall k | 0 <= k < BUFFERPACKETCOUNT && t.ordered[k].Some?
      ensures Written(t, b, k)
    {
      if k == SlotOf(pk) {
        assert b[|a|] == pk && SetBy(t, b, k, |a|);
      } else {
        assert Written(s, a, k);
        var n :| 0 <= n < |a| && SetBy(s, a, k, n);
        assert SetBy(t, b, k, n);
      }
    }
  }

  lemma ClearKeepsPointers(s: State, t: State, a: seq<Packet>)
    requires WellFormed(s) && WellFormed(t) && PointersSet(s, a)
    requires t.ordered == s.ordered[s.bottom := None]
    ensures PointersSet(t, a)
  {
    forall k | 0 <= k < BUFFERPACKETCOUNT && t.ordered[k].Some?
      ensures Written(t, a, k)
    {
      assert Written(s, a, k);
      var n :| 0 <= n < |a| && SetBy(s, a, k, n);
      assert SetBy(t, a, k, n);
    }
  }

  lemma {:induction false} RingInvariant(es: seq<Event>)
    ensures RingIntact(Run(es), Accepted(es)) && PointersSet(Run(es), Accepted(es))
  {
    if es != [] {
      var before, e := es[..|es| - 1], es[|es| - 1];
      RingInvariant(before);
      var s, t := Run(before), Run(es);
      match e
      case WorkCall =>
        if Ready(s) {
          ClearKeepsPointers(s, t, Accepted(es));
        }
      case Datagram(pk, src) =>
        if Accepts(s, src) {
          StoreKeepsRing(s, t, Accepted(before), pk);
          StoreKeepsPointers(s, t, Accepted(before), pk);
        } else if s.reading {
          StrayKeepsRing(s, t, Accepted(before), pk);
        }
    }
  }

  /** Ring invariant, in every reachable state: a pointer leads to the buffer of the
      last accepted packet that maps to its slot, and if fewer than 20 packets have
      been accepted since, that packet is still in it. */
  lemma PointersAreTrue(es: seq<Event>, k: nat) returns (n: nat)
    requires k < BUFFERPACKETCOUNT && Run(es).ordered[k].Some?
    ensures n < |Accepted(es)| && SetBy(Run(es), Accepted(es), k, n)
    ensures |Accepted(es)| - n < BUFFERPACKETCOUNT ==>
              Run(es).rtpdata[Run(es).ordered[k].value] == Accepted(es)[n]
  {
    RingInvariant(es);
    var s, a := Run(es), Accepted(es);
    assert Written(s, a, k);
    n :| 0 <= n < |a| && SetBy(s, a, k, n);
    assert |a| - n < BUFFERPACKETCOUNT ==> s.rtpdata[n % BUFFERPACKETCOUNT] == a[n];
  }

  /** The bounds: bottom in line, and the largest accepted number within 20 of the lower bound. */
  ghost predicate BoundsHold(s: State, a: seq<Packet>) {
    && Aligned(s)
    && s.maxsn <= s.minsn + BUFFERPACKETCOUNT
    && (forall n :: 0 <= n < |a| ==> a[n].sn <= s.maxsn)
    && (s.maxsn > 0 ==> exists n :: 0 <= n < |a| && a[n].sn == s.maxsn)
  }

  lemma {:induction false} BoundsInvariant(es: seq<Event>)
    requires NeverWraps(es)
    ensures BoundsHold(Run(es), Accepted(es))
  {
    if es != [] {
      var before, e := es[..|es| - 1], es[|es| - 1];
      BoundsInvariant(before);
      BoundsStep(Run(before), Accepted(before), e);
    }
  }

  lemma BoundsStep(s: State, a: seq<Packet>, e: Event)
    requires WellFormed(s) && BoundsHold(s, a) && !(e.WorkCall? && Wraps(s))
    ensures BoundsHold(Step(s, e), if e.Datagram? && Accepts(s, e.src) then a + [e.pk] else a)
  {
    AlignmentLostExactlyByWrap(s, e);
    if e.Datagram? && Accepts(s, e.src) { BoundsAfterStore(s, a, e.pk, e.src); }
  }

  lemma BoundsAfterStore(s: State, a: seq<Packet>, pk: Packet, src: Endpoint)
    requires WellFormed(s) && BoundsHold(s, a) && Accepts(s, src)
    ensures BoundsHold(Arrive(s, pk, src), a + [pk])
  {
    var b, t := a + [pk], Arrive(s, pk, src);
    assert b[|a|] == pk;
    assert forall n :: 0 <= n < |a| ==> b[n] == a[n];
    assert t.maxsn == if pk.sn > s.maxsn then pk.sn else s.maxsn;
  }

  /** How often the lower bound has wrapped. */
  ghost function Laps(es: seq<Event>): (n: nat)
    ensures NeverWraps(es) ==> n == 0
  {
    if es == [] then 0 else
    var before := es[..|es| - 1];
    Laps(before) + (if es[|es| - 1].WorkCall? && Wraps(Run(before)) then 1 else 0)
  }

  /** The lower bound counted on past its wraps, and its value at each release. */
  ghost function Position(es: seq<Event>): int { Laps(es) * U16_RANGE + Run(es).minsn }

  ghost function ReleasePositions(es: seq<Event>): seq<int> {
    if es == [] then [] else
    var before := es[..|es| - 1];
    if |Run(es).processed| > |Run(before).processed| then ReleasePositions(before) + [Position(before)]
    else ReleasePositions(before)
  }

  ghost predicate Increasing(at: seq<int>, below: int) {
    && (forall i, j :: 0 <= i < j < |at| ==> at[i] < at[j])
    && (forall i :: 0 <= i < |at| ==> 0 <= at[i] < below)
  }

  ghost predicate NumbersOf(at: seq<int>, out: seq<Release>) {
    |at| == |out| && forall i :: 0 <= i < |at| ==> out[i].packet.sn == at[i] % U16_RANGE
  }

  lemma StillIncreasing(at: seq<int>, out: seq<Release>, p: int, next: seq<Release>, q: int)
    requires Increasing(at, p) && NumbersOf(at, out) && 0 <= p
    requires if |next| > |out| then next == out + [next[|out|]] && next[|out|].packet.sn == p % U16_RANGE && p < q
             else next == out && p <= q
    ensures var grown := if |next| > |out| then at + [p] else at;
      Increasing(grown, q) && NumbersOf(grown, next)
  {
  }

  lemma PositionResidue(es: seq<Event>)
    ensures 0 <= Position(es) && Position(es) % U16_RANGE == Run(es).minsn
  {
    hide Laps, Run;
    LapResidue(Laps(es), Run(es).minsn);
  }

  lemma LapResidue(laps: nat, m: u16)
    ensures (laps * U16_RANGE + m) % U16_RANGE == m && laps * U16_RANGE + m >= 0
  {
    AddMultiple(m, U16_RANGE, laps);
  }

  /** A step adds at most one release, of the number at the lower bound. */
  lemma StepReleases(s: State, e: Event)
    requires WellFormed(s)
    ensures var out, next := s.processed, Step(s, e).processed;
      next == out || (e.WorkCall? && Ready(s) && |next| == |out| + 1 && next == out + [next[|out|]]
                      && next[|out|].packet.sn == s.minsn)
  {
  }

  /** In every run, wraps included, each packet is released at a later position than
      the one before it, and its number is that position's. */
  lemma {:induction false} ReleasesMoveForward(es: seq<Event>)
    ensures Increasing(ReleasePositions(es), Position(es))
    ensures NumbersOf(ReleasePositions(es), Run(es).processed)
  {
    if es != [] {
      var before, e := es[..|es| - 1], es[|es| - 1];
      ReleasesMoveForward(before);
      PositionGrows(es);
      PositionResidue(before);
      StepReleases(Run(before), e);
      StillIncreasing(ReleasePositions(before), Run(before).processed, Position(before), Run(es).processed, Position(es));
    }
  }

  /** Under any loss, duplication and reordering, the numbers handed to processrtpdata
      strictly increase as long as the lower bound does not wrap. */
  lemma ReleasesIncrease(es: seq<Event>)
    requires NeverWraps(es)
    ensures var out := Run(es).processed;
      forall i, j :: 0 <= i < j < |out| ==> out[i].packet.sn < out[j].packet.sn
  {
    ReleasesMoveForward(es);
    var at, out := ReleasePositions(es), Run(es).processed;
    FirstLapNumbers(at, out, Position(es));
  }

  lemma FirstLapNumbers(at: seq<int>, out: seq<Release>, p: int)
    requires NumbersOf(at, out) && Increasing(at, p) && p < U16_RANGE
    ensures forall i, j :: 0 <= i < j < |out| ==> out[i].packet.sn < out[j].packet.sn
  {
    forall i | 0 <= i < |at|
      ensures out[i].packet.sn == at[i]
    {
      assert 0 <= at[i] < U16_RANGE;
    }
  }

  lemma PositionGrows(es: seq<Event>)
    requires es != []
    ensures var before := es[..|es| - 1];
      if es[|es| - 1].WorkCall? && Ready(Run(before)) then Position(es) == Position(before) + 1
      else Position(es) >= Position(before)
  {
    var s, e := Run(es[..|es| - 1]), es[|es| - 1];
    BoundGrows(s, e);
    hide Run, Step, Wraps, Ready;
    assert Run(es) == Step(s, e);
    assert Laps(es) == Laps(es[..|es| - 1]) + if e.WorkCall? && Wraps(s) then 1 else 0;
  }

  lemma BoundGrows(s: State, e: Event)
    requires WellFormed(s)
    ensures if e.WorkCall? && Wraps(s) then s.minsn == U16_RANGE - 1 && Step(s, e).minsn == 0 && Ready(s)
            else if e.WorkCall? && Ready(s) then Step(s, e).minsn == s.minsn + 1
            else Step(s, e).minsn >= s.minsn
  {
  }

  ghost predicate FromOn(s: State, first: u16) {
    s.minsn >= first && forall i :: 0 <= i < |s.processed| ==> s.processed[i].packet.sn >= first
  }

  lemma StaysFromOn(s: State, e: Event, first: u16)
    requires WellFormed(s) && FromOn(s, first) && !(e.WorkCall? && Wraps(s))
    ensures FromOn(Step(s, e), first)
  {
    BoundGrows(s, e);
    StepReleases(s, e);
  }

  /** The first packet has to be the lowest: if its number is above 20, nothing below it is
      ever released, as long as the lower bound does not wrap. */
  lemma {:induction false} BelowFirstIsLost(es: seq<Event>)
    requires NeverWraps(es) && Accepted(es) != [] && Accepted(es)[0].sn > BUFFERPACKETCOUNT
    ensures FromOn(Run(es), Accepted(es)[0].sn)
  {
    var before, e := es[..|es| - 1], es[|es| - 1];
    if Accepted(before) == [] {
      Untouched(before);
      assert e.Datagram? && Accepted(es) == [e.pk];
    } else {
      BelowFirstIsLost(before);
      StaysFromOn(Run(before), e, Accepted(es)[0].sn);
    }
  }

  /** Until a packet has been accepted nothing has happened. */
  lemma {:induction false} Untouched(es: seq<Event>)
    requires Accepted(es) == []
    ensures Run(es) == Fresh()
  {
    if es != [] {
      var before, e := es[..|es| - 1], es[|es| - 1];
      Untouched(before);
      assert Accepts(Fresh(), 0) && forall src :: Accepts(Fresh(), src);
    }
  }

  /** A pointer never leads to a buffer that has not been filled. */
  ghost predicate PointersHeard(s: State, h: seq<Packet>)
    requires WellFormed(s)
  {
    forall k :: 0 <= k < BUFFERPACKETCOUNT && s.ordered[k].Some? ==> s.rtpdata[s.ordered[k].value] in h
  }

  lemma ArriveKeepsHeard(s: State, h: seq<Packet>, pk: Packet, src: Endpoint)
    requires WellFormed(s) && PointersHeard(s, h) && s.reading
    ensures WellFormed(Arrive(s, pk, src)) && PointersHeard(Arrive(s, pk, src), h + [pk])
  {
    assert forall x :: x in h ==> x in h + [pk];
    assert pk in h + [pk];
  }

  ghost predicate ReleasesHeard(s: State, h: seq<Packet>) {
    forall i :: 0 <= i < |s.processed| ==> s.processed[i].packet in h
  }

  lemma {:induction false} HeardInvariant(es: seq<Event>)
    ensures PointersHeard(Run(es), Heard(es)) && ReleasesHeard(Run(es), Heard(es))
  {
    if es != [] {
      var before, e := es[..|es| - 1], es[|es| - 1];
      HeardInvariant(before);
      if e.Datagram? && Run(before).reading {
        ArriveKeepsHeard(Run(before), Heard(before), e.pk, e.src);
        assert Run(es).processed == Run(before).processed;
      }
    }
  }

  /** All datagrams come from one endpoint. */
  ghost predicate OneSender(es: seq<Event>, src: Endpoint) {
    forall i :: 0 <= i < |es| && es[i].Datagram? ==> es[i].src == src
  }

  lemma {:induction false} OneSenderAccepted(es: seq<Event>, src: Endpoint)
    requires OneSender(es, src)
    ensures Heard(es) == Accepted(es)
    ensures Run(es).reading && (Run(es).received ==> Run(es).confirmed == src)
  {
    hide Step;
    if es != [] {
      OneSenderAccepted(es[..|es| - 1], src);
      OneSenderStep(Run(es[..|es| - 1]), es[|es| - 1], src);
    }
  }

  lemma OneSenderStep(s: State, e: Event, src: Endpoint)
    requires WellFormed(s) && Accepts(s, src) && (e.Datagram? ==> e.src == src)
    ensures Accepts(Step(s, e), src)
  {
  }

  /** No read is outstanding: whatever comes, nothing is stored or accepted any more. */
  lemma {:induction false} DeafStays(es: seq<Event>, more: seq<Event>)
    requires !Run(es).reading
    ensures !Run(es + more).reading && Run(es + more).rtpdata == Run(es).rtpdata
    ensures Accepted(es + more) == Accepted(es) && Heard(es + more) == Heard(es)
  {
    if more == [] {
      assert es + more == es;
    } else {
      DeafStays(es, more[..|more| - 1]);
      assert (es + more)[..|es + more| - 1] == es + more[..|more| - 1];
      DeafStep(Run(es + more[..|more| - 1]), more[|more| - 1]);
    }
  }

  lemma DeafStep(s: State, e: Event)
    requires WellFormed(s) && !s.reading
    ensures !Step(s, e).reading && Step(s, e).rtpdata == s.rtpdata
  {
  }

  /** One datagram from another endpoint ends the reading for good: it is in the buffer that was
      next to be filled, all others keep what they have, and no packet is accepted any more. */
  lemma StrangerEndsReading(es: seq<Event>, pk: Packet, src: Endpoint, more: seq<Event>)
    requires Run(es).received && Run(es).confirmed != src && Run(es).reading
    ensures var s, t := Run(es), Run(es + [Datagram(pk, src)] + more);
      && !t.reading && t.rtpdata == s.rtpdata[|Accepted(es)| % BUFFERPACKETCOUNT := pk]
      && Accepted(es + [Datagram(pk, src)] + more) == Accepted(es)
      && Heard(es + [Datagram(pk, src)] + more) == Heard(es) + [pk]
  {
    var next := es + [Datagram(pk, src)];
    assert next[..|es|] == es;
    RingInvariant(es);
    DeafStays(next, more);
  }

  ghost predicate OvertakenBy10(a: seq<Packet>, pk: Packet) {
    pk in a && exists n :: 0 <= n < |a| && a[n].sn >= pk.sn + BUFFERDELAYCOUNT
  }

  /** With one sender, every packet handed over was really received, and only after a
      number at least 10 above it was. Stale and aliased pointers never break this. */
  lemma {:induction false} ReleasedLate(es: seq<Event>, src: Endpoint)
    requires NeverWraps(es) && OneSender(es, src)
    ensures forall i :: 0 <= i < |Run(es).processed| ==> OvertakenBy10(Accepted(es), Run(es).processed[i].packet)
  {
    if es != [] {
      var before, e := es[..|es| - 1], es[|es| - 1];
      ReleasedLate(before, src);
      BoundsInvariant(before);
      HeardInvariant(before);
      OneSenderAccepted(before, src);
      var a, b := Accepted(before), Accepted(es);
      assert forall n :: 0 <= n < |a| ==> b[n] == a[n];
      forall i | 0 <= i < |Run(es).processed|
        ensures OvertakenBy10(b, Run(es).processed[i].packet)
      {
        if i < |Run(before).processed| {
          assert Run(es).processed[i] == Run(before).processed[i];
          assert OvertakenBy10(a, Run(before).processed[i].packet);
        } else {
          JustReleasedLate(Run(before), a);
        }
      }
    }
  }

  lemma JustReleasedLate(s: State, a: seq<Packet>)
    requires WellFormed(s) && BoundsHold(s, a) && PointersHeard(s, a) && Ready(s)
    ensures OvertakenBy10(a, Bottom(s))
  {
    assert Bottom(s) in a;
  }

  /** Every packet the work call takes from the bottom is the expected one. */
  ghost predicate NoDiscard(es: seq<Event>) {
    es == [] ||
    (NoDiscard(es[..|es| - 1]) &&
     (es[|es| - 1].WorkCall? && Ready(Run(es[..|es| - 1])) ==>
        Bottom(Run(es[..|es| - 1])).sn == Run(es[..|es| - 1]).minsn))
  }

  /** Each skip count is the gap left since the release before it. */
  predicate Chained(out: seq<Release>) {
    forall i :: 0 < i < |out| ==> out[i].skip == SkipCount(out[i].packet.sn, out[i - 1].packet.sn)
  }

  /** Each skip count is a true gap, and the next will be measured from the last release. */
  ghost predicate ChainedTo(s: State) {
    && Chained(s.processed)
    && (s.processed != [] ==> s.received && s.lastsn == s.processed[|s.processed| - 1].packet.sn)
  }

  lemma WorkChains(s: State)
    requires WellFormed(s) && ChainedTo(s)
    requires Ready(s) ==> Bottom(s).sn == s.minsn
    ensures ChainedTo(Work(s))
  {
    if Ready(s) {
      var r := Release(Bottom(s), SkipCount(Bottom(s).sn, s.lastsn));
      assert Work(s).processed == s.processed + [r];
    }
  }

  lemma {:induction false} UndiscardedRunsChain(es: seq<Event>)
    requires NoDiscard(es)
    ensures ChainedTo(Run(es))
  {
    if es != [] {
      var before, e := es[..|es| - 1], es[|es| - 1];
      UndiscardedRunsChain(before);
      if e.WorkCall? {
        WorkChains(Run(before));
      } else {
        assert Run(es).processed == Run(before).processed;
      }
    }
  }

  /** A discarded packet breaks the chain exactly when its number is not that of the last
      release: the skip count of the next one is then measured from the discarded number. */
  lemma SkipMeasuredFromDiscarded(s: State)
    requires WellFormed(s) && ChainedTo(s) && s.processed != []
    requires Ready(s) && Bottom(s).sn != s.minsn
    requires Ready(Work(s)) && Bottom(Work(s)).sn == Work(s).minsn
    ensures Chained(Work(Work(s)).processed) <==> Bottom(s).sn == s.processed[|s.processed| - 1].packet.sn
  {
    var last, t := s.processed[|s.processed| - 1].packet.sn, Work(s);
    Discarded(s);
    ReleasedNext(t);
    ChainGrows(s.processed, Release(Bottom(t), SkipCount(t.minsn, t.lastsn)));
    SkipCountsDiffer(t.minsn, t.lastsn, last);
  }

  lemma Discarded(s: State)
    requires WellFormed(s) && Ready(s) && Bottom(s).sn != s.minsn
    ensures Work(s).processed == s.processed && Work(s).lastsn == Bottom(s).sn
  {
  }

  lemma ReleasedNext(t: State)
    requires WellFormed(t) && Ready(t) && Bottom(t).sn == t.minsn
    ensures Work(t).processed == t.processed + [Release(Bottom(t), SkipCount(t.minsn, t.lastsn))]
  {
  }

  lemma SkipCountsDiffer(sn: u16, x: u16, y: u16)
    ensures SkipCount(sn, x) == SkipCount(sn, y) <==> x == y
  {
    if SkipCount(sn, x) == SkipCount(sn, y) { SkipCountBack(sn, x); SkipCountBack(sn, y); }
  }

  lemma SkipCountBack(sn: u16, x: u16)
    ensures (SkipCount(sn, x) + 1) % U32_RANGE == Sub16(sn, x) && x == Sub16(sn, Sub16(sn, x))
  {
  }

  lemma ChainGrows(out: seq<Release>, r: Release)
    requires Chained(out) && out != []
    ensures Chained(out + [r]) <==> r.skip == SkipCount(r.packet.sn, out[|out| - 1].packet.sn)
  {
    var next := out + [r];
    assert next[|out|] == r && next[|out| - 1] == out[|out| - 1];
  }
}
