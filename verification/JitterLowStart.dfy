// What happens to a stream whose first number is one of 1..20: the lower bound stays at 0
// until the first number above 20 restarts the buffer, so nothing up to 20 is released.

module JitterLowStart {
  import opened Common
  import opened JitterBuffer
  import opened JitterReorder

  /** Distinct numbers from 1 to top, in any order, the first of them at most 20. */
  ghost predicate LowStart(a: seq<Packet>, top: int) {
    && a != [] && a[0].sn <= BUFFERPACKETCOUNT
    && (forall i :: 0 <= i < |a| ==> 1 <= a[i].sn <= top)
    && (forall i, j :: 0 <= i < j < |a| ==> a[i].sn != a[j].sn)
  }

  predicate Listening(s: State, src: Endpoint) { s.received && s.reading && s.confirmed == src }

  predicate AllLow(a: seq<Packet>) { forall i :: 0 <= i < |a| ==> a[i].sn <= BUFFERPACKETCOUNT }

  /** Before the restart: a pointer at the bottom is that of number 20, which is too young. */
  ghost predicate Stalled(s: State, n: nat, src: Endpoint) {
    && WellFormed(s) && Listening(s, src) && s.processed == []
    && s.minsn == 0 && s.bottom == 0 && s.maxsn <= BUFFERPACKETCOUNT
    && n <= BUFFERPACKETCOUNT && s.indexin == n % BUFFERPACKETCOUNT
    && (s.ordered[0].Some? ==> s.ordered[0].value < n && Bottom(s).sn == BUFFERPACKETCOUNT == s.maxsn)
  }

  ghost predicate AllAbove20(out: seq<Release>) {
    forall i :: 0 <= i < |out| ==> out[i].packet.sn > BUFFERPACKETCOUNT
  }

  /** From the restart on: the lower bound is past 20, and too far from 65536 for the set
      pointers to carry it there. */
  ghost predicate Restarted(s: State, n: nat, src: Endpoint, top: int) {
    && WellFormed(s) && Listening(s, src) && AllAbove20(s.processed)
    && s.minsn > BUFFERPACKETCOUNT
    && s.minsn + Occupied(s.ordered) <= top + n
  }

  lemma {:induction false} SettingAddsOne(ring: seq<Option<nat>>, k: nat, v: nat)
    requires k < |ring|
    ensures Occupied(ring[k := Some(v)]) <= Occupied(ring) + 1
  {
    var n := |ring| - 1;
    if k == n {
      assert ring[k := Some(v)][..n] == ring[..n];
    } else {
      assert ring[k := Some(v)][..n] == ring[..n][k := Some(v)];
      SettingAddsOne(ring[..n], k, v);
    }
  }

  lemma FreshIsEmpty()
    ensures Occupied(Fresh().ordered) == 0
  {
    NoneIsEmpty(Fresh().ordered);
  }

  lemma {:induction false} NoneIsEmpty(ring: seq<Option<nat>>)
    requires forall k :: 0 <= k < |ring| ==> ring[k].None?
    ensures Occupied(ring) == 0
  {
    if ring != [] { NoneIsEmpty(ring[..|ring| - 1]); }
  }

  lemma {:induction false} LowNumbersFit(a: seq<Packet>, top: int)
    requires LowStart(a, top) && AllLow(a)
    ensures |a| <= BUFFERPACKETCOUNT
  {
    var numbers := seq(|a|, k requires 0 <= k < |a| => a[k].sn as int);
    DistinctFit(numbers, Interval(1, BUFFERPACKETCOUNT + 1));
  }

  /** A channel that counts its pointers: no more of them than packets. */
  ghost predicate Counted(s: State, n: nat) { Occupied(s.ordered) <= n }

  lemma StalledArrives(s: State, n: nat, pk: Packet, src: Endpoint)
    requires Stalled(s, n, src) || (s == Fresh() && n == 0)
    requires n < BUFFERPACKETCOUNT && 1 <= pk.sn <= BUFFERPACKETCOUNT
    ensures var t := Arrive(s, pk, src); Stalled(t, n + 1, src) && !Ready(t) && Drain(t) == t
  {
    var t := Arrive(s, pk, src);
    if pk.sn == BUFFERPACKETCOUNT {
      assert t.ordered[0] == Some(s.indexin);
    } else {
      assert t.ordered[0] == s.ordered[0];
    }
  }

  lemma ArriveCounted(s: State, n: nat, pk: Packet, src: Endpoint)
    requires WellFormed(s) && Counted(s, n)
    ensures Counted(Arrive(s, pk, src), n + 1)
  {
    SettingAddsOne(s.ordered, pk.sn % BUFFERPACKETCOUNT, s.indexin);
  }

  lemma RestartArrives(s: State, n: nat, pk: Packet, src: Endpoint, top: int)
    requires Stalled(s, n, src) && Counted(s, n) && BUFFERPACKETCOUNT < pk.sn <= top
    ensures Restarted(Arrive(s, pk, src), n + 1, src, top)
  {
    ArriveCounted(s, n, pk, src);
  }

  lemma RestartedArrives(s: State, n: nat, pk: Packet, src: Endpoint, top: int)
    requires Restarted(s, n, src, top) && Counted(s, n) && pk.sn <= top
    ensures Restarted(Arrive(s, pk, src), n + 1, src, top)
  {
    SettingAddsOne(s.ordered, pk.sn % BUFFERPACKETCOUNT, s.indexin);
  }

  lemma {:induction false} RestartedDrains(s: State, n: nat, src: Endpoint, top: int)
    requires Restarted(s, n, src, top) && Counted(s, n) && top + n < U16_RANGE
    ensures Restarted(Drain(s), n, src, top) && Counted(Drain(s), n)
    decreases Occupied(s.ordered)
  {
    if Ready(s) {
      ClearingReduces(s.ordered, s.bottom);
      RestartedDrains(Work(s), n, src, top);
    }
  }

  lemma {:induction false} LowStartFed(a: seq<Packet>, src: Endpoint, top: int)
    requires LowStart(a, top) && top + |a| < U16_RANGE
    ensures var s := Feed(a, src);
            Counted(s, |a|) && if AllLow(a) then Stalled(s, |a|, src) else Restarted(s, |a|, src, top)
    decreases |a|
  {
    hide Stalled, Restarted, Arrive, Drain;
    var n := |a| - 1;
    var before, pk := a[..n], a[n];
    var s := Feed(before, src);
    assert AllLow(a) <==> AllLow(before) && pk.sn <= BUFFERPACKETCOUNT;
    ArriveWellFormed(s, pk, src);
    if n == 0 {
      FreshIsEmpty();
    } else {
      LowStartFed(before, src, top);
    }
    ArriveCounted(s, n, pk, src);
    if AllLow(a) {
      LowNumbersFit(a, top);
      StalledArrives(s, n, pk, src);
    } else {
      if AllLow(before) { RestartArrives(s, n, pk, src, top); } else { RestartedArrives(s, n, pk, src, top); }
      RestartedDrains(Arrive(s, pk, src), |a|, src, top);
    }
  }

  /** Whatever the order, loss included: if the first number is one of 1..20, no number up to
      20 is ever released, as long as the bounds stay below 65536. */
  lemma LowStartIsLost(a: seq<Packet>, src: Endpoint, top: int)
    requires LowStart(a, top) && top + |a| < U16_RANGE
    ensures AllAbove20(Feed(a, src).processed)
  {
    LowStartFed(a, src, top);
  }

  // ---- the reordering window, with any start

  ghost function NumbersOf(a: seq<Packet>): (r: set<int>)
    ensures |r| <= |a|
    ensures forall i :: 0 <= i < |a| ==> a[i].sn in r
  {
    if a == [] then {} else NumbersOf(a[..|a| - 1]) + {a[|a| - 1].sn}
  }

  /** A window's numbers stay close to the number of arrivals. */
  lemma WindowBoundsNumbers(a: seq<Packet>, i: nat)
    requires Windowed(a) && i < |a|
    ensures a[i].sn < a[0].sn + i + BUFFERDELAYCOUNT
  {
    var n := a[i].sn - BUFFERDELAYCOUNT + 1 - a[0].sn;
    if n > 0 {
      var due := seq(n, k requires 0 <= k < n => a[0].sn + k);
      forall x | x in due ensures x in NumbersOf(a[..i]) {
        assert Seen(a, i, x);
        var j :| 0 <= j < i && a[j].sn == x;
        assert a[..i][j].sn == x;
      }
      DistinctFit(due, NumbersOf(a[..i]));
    }
  }

  /** The first arrival is overwritten by the 21st. */
  ghost predicate OnlyLast20(s: State, a: seq<Packet>, src: Endpoint) {
    && WellFormed(s) && Listening(s, src) && s.indexin == |a| % BUFFERPACKETCOUNT
    && forall k :: |a| - BUFFERPACKETCOUNT <= k < |a| && k >= 0 ==> s.rtpdata[k % BUFFERPACKETCOUNT] == a[k]
  }

  ghost predicate NeverReleased(s: State, pk: Packet) {
    forall i :: 0 <= i < |s.processed| ==> s.processed[i].packet != pk
  }

  lemma {:induction false} DrainKeepsBuffers(s: State, a: seq<Packet>, src: Endpoint)
    requires OnlyLast20(s, a, src)
    ensures OnlyLast20(Drain(s), a, src)
    decreases Occupied(s.ordered)
  {
    if Ready(s) {
      ClearingReduces(s.ordered, s.bottom);
      DrainKeepsBuffers(Work(s), a, src);
    }
  }

  lemma ArriveKeepsBuffers(s: State, a: seq<Packet>, pk: Packet, src: Endpoint)
    requires if a == [] then s == Fresh() else OnlyLast20(s, a, src)
    ensures OnlyLast20(Arrive(s, pk, src), a + [pk], src)
  {
    var b, t := a + [pk], Arrive(s, pk, src);
    ArriveWellFormed(s, pk, src);
    forall k | |b| - BUFFERPACKETCOUNT <= k < |b| && k >= 0
      ensures t.rtpdata[k % BUFFERPACKETCOUNT] == b[k]
    {
      if k < |a| { assert k % BUFFERPACKETCOUNT != s.indexin && s.rtpdata[k % BUFFERPACKETCOUNT] == a[k]; }
    }
  }

  lemma {:induction false} BuffersFed(a: seq<Packet>, src: Endpoint)
    requires a != []
    ensures OnlyLast20(Feed(a, src), a, src)
    decreases |a|
  {
    hide OnlyLast20, Arrive, Drain;
    var before, pk := a[..|a| - 1], a[|a| - 1];
    assert a == before + [pk];
    if before != [] { BuffersFed(before, src); }
    ArriveKeepsBuffers(Feed(before, src), before, pk, src);
    DrainKeepsBuffers(Arrive(Feed(before, src), pk, src), a, src);
  }

  /** Some buffer index below 20 holds an arrival among the last 20. */
  lemma BuffersHoldOthers(s: State, a: seq<Packet>, src: Endpoint, v: nat)
    requires OnlyLast20(s, a, src) && |a| > BUFFERPACKETCOUNT && v < BUFFERPACKETCOUNT
    requires forall i, j :: 0 <= i < j < |a| ==> a[i].sn != a[j].sn
    ensures s.rtpdata[v] != a[0]
  {
    var k := |a| - 1 - (|a| - 1 - v) % BUFFERPACKETCOUNT;
    assert k % BUFFERPACKETCOUNT == v && k > 0;
    assert s.rtpdata[k % BUFFERPACKETCOUNT] == a[k];
  }

  lemma {:induction false} DrainNeverReleases(s: State, a: seq<Packet>, src: Endpoint)
    requires OnlyLast20(s, a, src) && |a| > BUFFERPACKETCOUNT && NeverReleased(s, a[0])
    requires forall i, j :: 0 <= i < j < |a| ==> a[i].sn != a[j].sn
    ensures NeverReleased(Drain(s), a[0])
    decreases Occupied(s.ordered)
  {
    if Ready(s) {
      ClearingReduces(s.ordered, s.bottom);
      BuffersHoldOthers(s, a, src, s.ordered[s.bottom].value);
      DrainNeverReleases(Work(s), a, src);
    }
  }

  lemma {:induction false} FirstIsNeverReleased(a: seq<Packet>, src: Endpoint)
    requires Windowed(a) && a != [] && !GoodStart(a)
    ensures NeverReleased(Feed(a, src), a[0])
    decreases |a|
  {
    if |a| <= BUFFERPACKETCOUNT {
      var top := a[0].sn + |a| + BUFFERDELAYCOUNT;
      forall i | 0 <= i < |a| ensures a[i].sn <= top { WindowBoundsNumbers(a, i); }
      LowStartIsLost(a, src, top);
    } else {
      hide Arrive, Drain, OnlyLast20;
      var before, pk := a[..|a| - 1], a[|a| - 1];
      assert a == before + [pk];
      PrefixWindowed(a, |a| - 1);
      FirstIsNeverReleased(before, src);
      BuffersFed(before, src);
      ArriveKeepsBuffers(Feed(before, src), before, pk, src);
      ArriveReleasesNothing(Feed(before, src), pk, src);
      DrainNeverReleases(Arrive(Feed(before, src), pk, src), a, src);
    }
  }

  lemma ArriveReleasesNothing(s: State, pk: Packet, src: Endpoint)
    requires WellFormed(s)
    ensures Arrive(s, pk, src).processed == s.processed
  {
  }

  ghost predicate IsReleased(s: State, pk: Packet) {
    exists k :: 0 <= k < |s.processed| && s.processed[k].packet == pk
  }

  /** The exact condition. Let the window hold and the first packet be overtaken by 10: every
      packet overtaken by 10 is released if and only if the first number is 0 or above 20. */
  lemma RepairedIff(a: seq<Packet>, src: Endpoint)
    requires Windowed(a) && a != [] && a[0].sn + BUFFERDELAYCOUNT <= Highest(a)
    ensures (forall pk :: pk in a && pk.sn + BUFFERDELAYCOUNT <= Highest(a) ==> IsReleased(Feed(a, src), pk))
       <==> a[0].sn == 0 || a[0].sn > BUFFERPACKETCOUNT
  {
    if GoodStart(a) {
      BoundedReorderingIsRepaired(a, src);
    } else {
      FirstIsNeverReleased(a, src);
      assert a[0] in a && !IsReleased(Feed(a, src), a[0]);
    }
  }
}
