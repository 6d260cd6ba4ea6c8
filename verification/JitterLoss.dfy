// One lost packet: the empty slot at the bottom holds everything up until a number in that
// slot or more than 20 above it arrives.

module JitterLoss {
  import opened Common
  import opened JitterBuffer
  import opened JitterReorder
  import opened JitterLowStart
  import Safety = JitterSafety

  /** There is no packet at the bottom. */
  predicate Stuck(s: State)
    requires WellFormed(s)
  {
    s.ordered[s.bottom].None?
  }

  /** The accepted packets that can get it moving again. */
  predicate Unsticks(s: State, e: Safety.Event) {
    && e.Datagram? && Safety.Accepts(s, e.src)
    && (e.pk.sn % BUFFERPACKETCOUNT == s.bottom || e.pk.sn > s.minsn + BUFFERPACKETCOUNT)
  }

  /** Stuck in the same place, and nothing released meanwhile. */
  predicate StuckAt(s: State, t: State)
    requires WellFormed(s) && WellFormed(t)
  {
    Stuck(t) && t.minsn == s.minsn && t.bottom == s.bottom && t.processed == s.processed
  }

  lemma StuckUntil(s: State, e: Safety.Event)
    requires WellFormed(s) && Stuck(s)
    ensures Safety.Step(s, e).processed == s.processed
    ensures StuckAt(s, Safety.Step(s, e)) <==> !Unsticks(s, e)
  {
  }

  ghost predicate NothingUnsticks(es: seq<Safety.Event>, more: seq<Safety.Event>) {
    forall i :: 0 <= i < |more| ==> !Unsticks(Safety.Run(es + more[..i]), more[i])
  }

  lemma ShorterWait(es: seq<Safety.Event>, more: seq<Safety.Event>)
    requires NothingUnsticks(es, more) && more != []
    ensures NothingUnsticks(es, more[..|more| - 1])
    ensures !Unsticks(Safety.Run(es + more[..|more| - 1]), more[|more| - 1])
  {
    hide Unsticks;
    var before := more[..|more| - 1];
    forall i | 0 <= i < |before| ensures !Unsticks(Safety.Run(es + before[..i]), before[i]) {
      assert before[..i] == more[..i] && !Unsticks(Safety.Run(es + more[..i]), more[i]);
    }
  }

  /** In any run: once stuck, nothing is released and the bounds stay until an accepted
      number falls in the slot at the bottom or more than 20 above the lower bound. */
  lemma {:induction false} StaysStuck(es: seq<Safety.Event>, more: seq<Safety.Event>)
    requires Stuck(Safety.Run(es)) && NothingUnsticks(es, more)
    ensures StuckAt(Safety.Run(es), Safety.Run(es + more))
  {
    hide Unsticks, Stuck, Safety.Run, Safety.Step;
    if more == [] {
      assert es + more == es;
    } else {
      var before, e := more[..|more| - 1], more[|more| - 1];
      ShorterWait(es, more);
      StaysStuck(es, before);
      StuckUntil(Safety.Run(es + before), e);
      RunOn(es + before, e);
      assert es + before + [e] == es + more;
    }
  }

  lemma RunOn(es: seq<Safety.Event>, e: Safety.Event)
    ensures Safety.Run(es + [e]) == Safety.Step(Safety.Run(es), e)
  {
    assert (es + [e])[..|es|] == es;
  }

  // ---- an in-order stream with one number missing

  /** In order from first, without the number first + d. */
  ghost predicate GapStream(a: seq<Packet>, first: u16, d: nat) {
    && first + |a| < U16_RANGE
    && forall k :: 0 <= k < |a| ==> a[k].sn == if k < d then first + k else first + k + 1
  }

  /** The d numbers before the gap, then m from 21 above it on; the first of those is said to
      come 21 late. */
  ghost predicate GapReleased(out: seq<Release>, a: seq<Packet>, d: nat, m: nat) {
    && |out| == d + m && d <= |a| && (m > 0 ==> d + m + 20 <= |a|)
    && (forall k :: 0 <= k < d ==> out[k] == Release(a[k], 0))
    && (forall k :: d <= k < d + m ==> out[k] == Release(a[k + 20], if k == d then 21 else 0))
  }

  lemma GapGrows(out: seq<Release>, a: seq<Packet>, pk: Packet, d: nat, m: nat)
    requires GapReleased(out, a, d, m)
    ensures GapReleased(out, a + [pk], d, m)
  {
  }

  /** Up to nine past the gap the stream is windowed. */
  lemma GapIsWindowed(a: seq<Packet>, first: u16, d: nat)
    requires GapStream(a, first, d) && 0 < d && |a| == d + 9
    ensures Windowed(a) && a[0].sn == first && Highest(a) == first + d + 9
  {
    assert a[0].sn == first && a[|a| - 1].sn == first + d + 9;
    var top :| 0 <= top < |a| && a[top].sn == Highest(a);
    forall i, q | 0 <= i < |a| && first <= q <= a[i].sn - BUFFERDELAYCOUNT ensures Seen(a, i, q) {
      assert a[q - first].sn == q;
    }
  }

  /** What the channel is in while it waits for number q. */
  ghost predicate WaitsFor(s: State, a: seq<Packet>, first: u16, d: nat, src: Endpoint) {
    && OnlyLast20(s, a, src) && GapReleased(s.processed, a, d, 0)
    && s.minsn == first + d && s.bottom == s.minsn % BUFFERPACKETCOUNT && s.lastsn == Sub16(s.minsn, 1)
    && s.maxsn == first + |a|
    && Stuck(s)
  }

  lemma GapReached(a: seq<Packet>, first: u16, d: nat, src: Endpoint)
    requires GapStream(a, first, d) && 0 < d && |a| == d + 9 && (first == 0 || first > BUFFERPACKETCOUNT)
    ensures WaitsFor(Feed(a, src), a, first, d, src)
  {
    var s := Feed(a, src);
    GapIsWindowed(a, first, d);
    assert GoodStart(a);
    hide Feed, OnlyLast20, AllHeld, NoStray, Highest, Windowed, GapReleased, GapStream;
    FeedBuffered(a, src);
    BuffersFed(a, src);
    BoundedReorderingIsRepaired(a, src);
    FrontOf(s.processed, a, first, d);
    NoneAtBottom(s, a, first, d, src);
  }

  lemma NoneAtBottom(s: State, a: seq<Packet>, first: u16, d: nat, src: Endpoint)
    requires InStep(s, a, src) && AllHeld(s, a) && NoStray(s, a) && GapStream(a, first, d) && s.minsn == first + d
    ensures Stuck(s)
  {
    hide AllHeld, NoStray, Highest, GapStream;
    if s.ordered[s.bottom].Some? {
      BottomIsNext(s, a, src);
      NotInStream(a, first, d, Bottom(s));
    }
  }

  lemma NotInStream(a: seq<Packet>, first: u16, d: nat, pk: Packet)
    requires GapStream(a, first, d) && pk in a
    ensures pk.sn != first + d
  {
  }

  lemma FrontOf(out: seq<Release>, a: seq<Packet>, first: u16, d: nat)
    requires GapStream(a, first, d) && |out| == d <= |a|
    requires forall k :: 0 <= k < |out| ==> out[k].packet in a && out[k].packet.sn == first + k && out[k].skip == 0
    ensures GapReleased(out, a, d, 0)
  {
    forall k | 0 <= k < d ensures out[k] == Release(a[k], 0) {
      var i :| 0 <= i < |a| && a[i] == out[k].packet;
      assert i == k;
    }
  }

  /** Up to 19 past the gap nothing changes; 20 past it is too young for the bottom. */
  lemma GapWaits(s: State, a: seq<Packet>, first: u16, d: nat, src: Endpoint, pk: Packet)
    requires WaitsFor(s, a, first, d, src) && GapStream(a + [pk], first, d) && d + 9 <= |a| < d + 19
    ensures var t := Arrive(s, pk, src); WaitsFor(t, a + [pk], first, d, src) && Drain(t) == t
  {
    assert (a + [pk])[|a|] == pk;
    ArriveKeepsBuffers(s, a, pk, src);
    GapGrows(s.processed, a, pk, d, 0);
    NotSlotOf(first + d, pk.sn);
  }

  lemma NotSlotOf(q: nat, x: nat)
    requires q < x < q + BUFFERPACKETCOUNT
    ensures q % BUFFERPACKETCOUNT != x % BUFFERPACKETCOUNT
  {
  }

  /** The numbers from the lower bound to the newest have their slots. */
  ghost predicate SlotsSet(s: State, first: u16, newest: int)
    requires WellFormed(s)
  {
    forall x :: s.minsn <= x <= newest ==> s.ordered[x % BUFFERPACKETCOUNT] == Some((x - first - 1) % BUFFERPACKETCOUNT)
  }

  /** From the restart on. */
  ghost predicate Follows(s: State, a: seq<Packet>, first: u16, d: nat, src: Endpoint) {
    && OnlyLast20(s, a, src) && s.maxsn == first + |a|
    && first + d + 21 <= s.minsn <= first + |a| <= s.minsn + BUFFERDELAYCOUNT
    && (s.minsn == first + d + 21 || s.minsn + BUFFERDELAYCOUNT - 1 <= first + |a|)
    && s.bottom == s.minsn % BUFFERPACKETCOUNT
    && s.lastsn == (if s.minsn == first + d + 21 then first + d - 1 else s.minsn - 1)
    && GapReleased(s.processed, a, d, s.minsn - (first + d + 21))
    && SlotsSet(s, first, first + |a|)
  }

  lemma StoresAt(s: State, a: seq<Packet>, src: Endpoint, pk: Packet)
    requires OnlyLast20(s, a, src)
    ensures var t := Arrive(s, pk, src);
            WellFormed(t) && t.ordered[pk.sn % BUFFERPACKETCOUNT] == Some(|a| % BUFFERPACKETCOUNT)
            && forall k :: 0 <= k < BUFFERPACKETCOUNT && k != pk.sn % BUFFERPACKETCOUNT ==> t.ordered[k] == s.ordered[k]
  {
  }

  /** Number 20 past the gap goes to the bottom, too young. */
  ghost predicate Filled(s: State, a: seq<Packet>, first: u16, d: nat, src: Endpoint) {
    && OnlyLast20(s, a, src) && GapReleased(s.processed, a, d, 0)
    && s.minsn == first + d && s.lastsn == Sub16(s.minsn, 1)
    && |a| == d + 20 && !Ready(s)
  }

  lemma GapFilled(s: State, a: seq<Packet>, first: u16, d: nat, src: Endpoint, pk: Packet)
    requires WaitsFor(s, a, first, d, src) && GapStream(a + [pk], first, d) && |a| == d + 19
    ensures var t := Arrive(s, pk, src); Filled(t, a + [pk], first, d, src) && Drain(t) == t
  {
    var t, b := Arrive(s, pk, src), a + [pk];
    assert b[|a|] == pk && pk.sn == s.minsn + BUFFERPACKETCOUNT;
    ArriveKeepsBuffers(s, a, pk, src);
    StoresAt(s, a, src, pk);
    AddMultiple(s.minsn, BUFFERPACKETCOUNT, 1);
    hide GapReleased, Ready, Drain;
    assert Bottom(t) == pk by { assert t.rtpdata[|a| % BUFFERPACKETCOUNT] == b[|a|]; }
    hide OnlyLast20, GapStream;
    NewestIsYoung(t);
    GapGrows(s.processed, a, pk, d, 0);
  }

  /** The next one restarts the buffer. */
  lemma GapEnds(s: State, a: seq<Packet>, first: u16, d: nat, src: Endpoint, pk: Packet)
    requires Filled(s, a, first, d, src) && GapStream(a + [pk], first, d) && 0 < d
    ensures var t := Arrive(s, pk, src);
            WellFormed(t) && Follows(t, a + [pk], first, d, src) && t.minsn == first + d + 21
  {
    var t, b := Arrive(s, pk, src), a + [pk];
    assert b[|a|] == pk && pk.sn == s.minsn + BUFFERPACKETCOUNT + 1;
    ArriveKeepsBuffers(s, a, pk, src);
    StoresAt(s, a, src, pk);
    hide GapReleased;
    GapGrows(s.processed, a, pk, d, 0);
  }

  /** The packet at the bottom is the one at the lower bound. */
  lemma FollowsNext(s: State, a: seq<Packet>, first: u16, d: nat, src: Endpoint)
    requires GapStream(a, first, d) && Follows(s, a, first, d, src)
    ensures s.ordered[s.bottom].Some? && Bottom(s) == a[s.minsn - first - 1] && Bottom(s).sn == s.minsn
    ensures Ready(s) <==> first + |a| == s.minsn + BUFFERDELAYCOUNT
  {
    hide GapReleased;
    var k := s.minsn - first - 1;
    assert s.rtpdata[k % BUFFERPACKETCOUNT] == a[k];
  }

  lemma FollowsArrives(s: State, a: seq<Packet>, first: u16, d: nat, src: Endpoint, pk: Packet)
    requires Follows(s, a, first, d, src) && !Ready(s) && GapStream(a, first, d) && GapStream(a + [pk], first, d)
    ensures WellFormed(Arrive(s, pk, src)) && Follows(Arrive(s, pk, src), a + [pk], first, d, src)
  {
    var t, b, newest := Arrive(s, pk, src), a + [pk], first + |a| + 1;
    assert b[|a|] == pk && pk.sn == newest;
    FollowsNext(s, a, first, d, src);
    hide GapReleased, OnlyLast20, SlotsSet, GapStream, Ready;
    ArriveKeepsBuffers(s, a, pk, src);
    StoresAt(s, a, src, pk);
    GapGrows(s.processed, a, pk, d, s.minsn - (first + d + 21));
    MoreSlotsSet(s, t, first, newest, |a|);
  }

  lemma MoreSlotsSet(s: State, t: State, first: u16, newest: int, at: nat)
    requires WellFormed(s) && WellFormed(t) && SlotsSet(s, first, newest - 1) && t.minsn == s.minsn
    requires s.minsn <= newest < s.minsn + BUFFERPACKETCOUNT && at == newest - first - 1
    requires t.ordered[newest % BUFFERPACKETCOUNT] == Some(at % BUFFERPACKETCOUNT)
    requires forall k :: 0 <= k < BUFFERPACKETCOUNT && k != newest % BUFFERPACKETCOUNT ==> t.ordered[k] == s.ordered[k]
    ensures SlotsSet(t, first, newest)
  {
    forall x | t.minsn <= x <= newest ensures t.ordered[x % BUFFERPACKETCOUNT] == Some((x - first - 1) % BUFFERPACKETCOUNT) {
      if x < newest { NotSlotOf(x, newest); }
    }
  }

  lemma FollowsReleases(s: State, a: seq<Packet>, first: u16, d: nat, src: Endpoint)
    requires Follows(s, a, first, d, src) && Ready(s) && GapStream(a, first, d) && 0 < d
    ensures WellFormed(Work(s)) && Follows(Work(s), a, first, d, src) && !Ready(Work(s))
  {
    var t, m := Work(s), s.minsn - (first + d + 21);
    hide OnlyLast20, SlotsSet, GapReleased, GapStream, Work, Ready, SkipCount;
    FollowsNext(s, a, first, d, src);
    WorkReleases(s);
    GapSkip(first + d, s.minsn, s.lastsn);
    ReleasedGrows(s.processed, a, d, m, Release(a[d + m + 20], if m == 0 then 21 else 0));
    ReleaseKeepsBuffers(s, a, src);
    SlotsStaySet(s, t, first, first + |a|);
    FollowsNext(t, a, first, d, src);
  }

  lemma GapSkip(q: nat, sn: u16, last: u16)
    requires q > 0 && sn >= q + 21 && last == if sn == q + 21 then q - 1 else sn - 1
    ensures SkipCount(sn, last) == if sn == q + 21 then 21 else 0
  {
  }

  lemma WorkReleases(s: State)
    requires WellFormed(s) && Ready(s) && Bottom(s).sn == s.minsn < U16_RANGE - 1
    requires s.bottom == s.minsn % BUFFERPACKETCOUNT
    ensures Work(s) == s.(processed := s.processed + [Release(Bottom(s), SkipCount(s.minsn, s.lastsn))], lastsn := s.minsn,
                          ordered := s.ordered[s.bottom := None], minsn := s.minsn + 1,
                          bottom := (s.minsn + 1) % BUFFERPACKETCOUNT)
  {
    MovesOn(s.minsn, BUFFERPACKETCOUNT);
  }

  lemma ReleasedGrows(out: seq<Release>, a: seq<Packet>, d: nat, m: nat, r: Release)
    requires GapReleased(out, a, d, m) && d + m + 20 < |a|
    requires r == Release(a[d + m + 20], if m == 0 then 21 else 0)
    ensures GapReleased(out + [r], a, d, m + 1)
  {
  }

  lemma ReleaseKeepsBuffers(s: State, a: seq<Packet>, src: Endpoint)
    requires OnlyLast20(s, a, src) && Ready(s)
    ensures OnlyLast20(Work(s), a, src)
  {
  }

  lemma SlotsStaySet(s: State, t: State, first: u16, newest: int)
    requires WellFormed(s) && WellFormed(t) && SlotsSet(s, first, newest) && newest < s.minsn + BUFFERPACKETCOUNT
    requires t.minsn == s.minsn + 1 && t.ordered == s.ordered[s.minsn % BUFFERPACKETCOUNT := None]
    ensures SlotsSet(t, first, newest)
  {
    forall x | t.minsn <= x <= newest
      ensures t.ordered[x % BUFFERPACKETCOUNT] == Some((x - first - 1) % BUFFERPACKETCOUNT)
    {
      NotSlotOf(s.minsn, x);
    }
  }

  lemma DrainOne(s: State, a: seq<Packet>, first: u16, d: nat, src: Endpoint)
    requires WellFormed(s) && Follows(s, a, first, d, src) && GapStream(a, first, d) && 0 < d
    ensures Follows(Drain(s), a, first, d, src) && !Ready(Drain(s))
  {
    hide Follows, GapStream;
    if Ready(s) {
      FollowsReleases(s, a, first, d, src);
      assert Drain(Work(s)) == Work(s);
    }
  }

  lemma GapShorter(a: seq<Packet>, first: u16, d: nat)
    requires GapStream(a, first, d) && a != []
    ensures GapStream(a[..|a| - 1], first, d)
  {
  }

  lemma {:induction false} GapFed(a: seq<Packet>, first: u16, d: nat, src: Endpoint)
    requires GapStream(a, first, d) && 0 < d && (first == 0 || first > BUFFERPACKETCOUNT) && |a| >= d + 9
    ensures var s := Feed(a, src);
            && !Ready(s)
            && (if |a| < d + 20 then WaitsFor(s, a, first, d, src)
                else if |a| == d + 20 then Filled(s, a, first, d, src)
                else Follows(s, a, first, d, src))
    decreases |a|
  {
    hide WaitsFor, Filled, Follows, GapStream, Arrive, Drain, Ready;
    if |a| == d + 9 {
      GapReached(a, first, d, src);
      StuckIsIdle(Feed(a, src), a, first, d, src);
    } else {
      var before, pk := a[..|a| - 1], a[|a| - 1];
      assert a == before + [pk];
      var s := Feed(before, src);
      GapShorter(a, first, d);
      GapFed(before, first, d, src);
      ArriveWellFormed(s, pk, src);
      if |a| < d + 20 {
        GapWaits(s, before, first, d, src, pk);
        StuckIsIdle(Feed(a, src), a, first, d, src);
      } else if |a| == d + 20 {
        GapFilled(s, before, first, d, src, pk);
        FilledIsIdle(Feed(a, src), a, first, d, src);
      } else {
        if |a| == d + 21 { GapEnds(s, before, first, d, src, pk); } else { FollowsArrives(s, before, first, d, src, pk); }
        DrainOne(Arrive(s, pk, src), a, first, d, src);
      }
    }
  }

  lemma StuckIsIdle(s: State, a: seq<Packet>, first: u16, d: nat, src: Endpoint)
    requires WaitsFor(s, a, first, d, src)
    ensures WellFormed(s) && !Ready(s)
  {
  }

  lemma FilledIsIdle(s: State, a: seq<Packet>, first: u16, d: nat, src: Endpoint)
    requires Filled(s, a, first, d, src)
    ensures WellFormed(s) && !Ready(s)
  {
  }

  /** One lost packet costs 21: an in-order stream without number q releases what comes
      before q, then nothing up to q + 20, and then the rest, 10 late as before. */
  lemma OneLossDropsTwentyOne(a: seq<Packet>, first: u16, d: nat, src: Endpoint)
    requires GapStream(a, first, d) && 0 < d && (first == 0 || first > BUFFERPACKETCOUNT) && |a| >= d + 9
    ensures var out := Feed(a, src).processed;
            var m := if |a| <= d + 30 then 0 else |a| - d - 30;
            && |out| == d + m
            && (forall k :: 0 <= k < d ==> out[k] == Release(a[k], 0))
            && (forall k :: d <= k < d + m ==> out[k] == Release(a[k + 20], if k == d then 21 else 0))
  {
    hide Feed, Ready, OnlyLast20, SlotsSet;
    GapFed(a, first, d, src);
    if |a| > d + 20 { FollowsNext(Feed(a, src), a, first, d, src); }
  }
}
