// Runs that wrap: an in-order stream through number 65535, and a release from an
// overwritten buffer while the ring is out of line.

module JitterWrapRun {
  import opened Common
  import opened JitterBuffer
  import opened JitterReorder
  import opened JitterLowStart
  import Safety = JitterSafety

  /** An in-order stream from first, which starts again at 0 after 65535. */
  ghost predicate Stream(a: seq<Packet>, first: u16) {
    forall k :: 0 <= k < |a| ==> a[k].sn == (first + k) % U16_RANGE
  }

  /** How many packets of it come before the wrap. */
  function BeforeWrap(first: u16): nat { U16_RANGE - first }

  // ---- up to the wrap

  lemma StreamIsWindowed(a: seq<Packet>, first: u16)
    requires Stream(a, first) && |a| <= BeforeWrap(first)
    ensures Windowed(a)
  {
    forall k | 0 <= k < |a| ensures a[k].sn == first + k {}
    forall i, q | 0 <= i < |a| && a[0].sn <= q <= a[i].sn - BUFFERDELAYCOUNT ensures Seen(a, i, q) {
      assert a[q - first].sn == q;
    }
  }

  lemma StreamHighest(a: seq<Packet>, first: u16)
    requires Stream(a, first) && 0 < |a| <= BeforeWrap(first)
    ensures Highest(a) == first + |a| - 1
  {
    var top :| 0 <= top < |a| && a[top].sn == Highest(a);
    assert a[|a| - 1].sn == first + |a| - 1;
    assert a[top].sn == first + top;
  }

  // ---- past the wrap: number 0 is arrival z, and numbers before it are counted below zero

  /** The slot in which number q is, below zero for one before the wrap. */
  function SlotPast(q: int): int { if q < 0 then q + 16 else q % BUFFERPACKETCOUNT }

  /** How far the stream may get before another packet takes that slot. */
  function Until(q: int): int { if q < 0 then q + 16 else q + BUFFERPACKETCOUNT }

  /** Slot k leads to arrival z + q, which is still in its buffer once n has come. */
  predicate Leads(z: nat, n: int, k: nat, v: nat, q: int) {
    && -BUFFERDELAYCOUNT <= q <= n && 0 <= z + q
    && n < Until(q) && SlotPast(q) == k && v == (z + q) % BUFFERPACKETCOUNT
  }

  ghost predicate LeadsSomewhere(z: nat, n: int, k: nat, v: nat) { exists q :: Leads(z, n, k, v, q) }

  ghost predicate SlotsLead(s: State, z: nat, n: int)
    requires WellFormed(s)
  {
    forall k :: 0 <= k < BUFFERPACKETCOUNT && s.ordered[k].Some? ==> LeadsSomewhere(z, n, k, s.ordered[k].value)
  }

  /** After number n: b is the number whose slot is at the bottom, and the lower bound is
      16 behind it. */
  ghost predicate PastWrap(s: State, a: seq<Packet>, z: nat, n: int, b: int, src: Endpoint) {
    && OnlyLast20(s, a, src) && |a| == z + n + 1 > 0
    && s.maxsn == U16_RANGE - 1
    && n < b <= n + BUFFERPACKETCOUNT && b >= 6
    && s.bottom == b % BUFFERPACKETCOUNT && s.minsn == (b - 16) % U16_RANGE
    && SlotsLead(s, z, n)
  }

  /** The stream's own numbers, and the room left before a second wrap. */
  ghost predicate Numbered(a: seq<Packet>, z: nat, n: int) {
    && |a| == z + n + 1 && -1 <= n <= U16_RANGE - 2 * BUFFERPACKETCOUNT
    && forall q :: 0 <= z + q && q <= n ==> a[z + q].sn == q % U16_RANGE
  }

  /** The packet in the buffer a slot leads to. */
  lemma LedTo(s: State, a: seq<Packet>, z: nat, n: int, b: int, src: Endpoint, q: int)
    requires PastWrap(s, a, z, n, b, src) && Numbered(a, z, n)
    requires s.ordered[s.bottom].Some? && Leads(z, n, s.bottom, s.ordered[s.bottom].value, q)
    ensures Bottom(s).sn == q % U16_RANGE
  {
    assert s.rtpdata[(z + q) % BUFFERPACKETCOUNT] == a[z + q];
  }

  /** Before the wrap it is too young to go, and after it not the number expected. */
  lemma LedToIsOld(s: State, a: seq<Packet>, z: nat, n: int, b: int, src: Endpoint) returns (q: int)
    requires PastWrap(s, a, z, n, b, src) && Numbered(a, z, n) && Ready(s)
    ensures q >= 0 && q + BUFFERPACKETCOUNT == b && Bottom(s).sn == q != s.minsn
    ensures Leads(z, n, s.bottom, s.ordered[s.bottom].value, q)
  {
    assert LeadsSomewhere(z, n, s.bottom, s.ordered[s.bottom].value);
    q :| Leads(z, n, s.bottom, s.ordered[s.bottom].value, q);
    LedTo(s, a, z, n, b, src, q);
    hide OnlyLast20, SlotsLead;
    TooYoung(s, q);
    SlotBehind(q, b, n);
  }

  lemma TooYoung(s: State, q: int)
    requires WellFormed(s) && s.maxsn == U16_RANGE - 1 && Ready(s)
    requires -BUFFERDELAYCOUNT <= q && Bottom(s).sn == q % U16_RANGE
    ensures q >= 0
  {
  }

  lemma SlotBehind(q: nat, b: int, n: int)
    requires q <= n < q + BUFFERPACKETCOUNT && n < b <= n + BUFFERPACKETCOUNT
    requires q % BUFFERPACKETCOUNT == b % BUFFERPACKETCOUNT
    ensures q + BUFFERPACKETCOUNT == b
  {
  }

  lemma ClearedLeads(s: State, z: nat, n: int)
    requires WellFormed(s) && SlotsLead(s, z, n) && Ready(s)
    ensures SlotsLead(Work(s), z, n)
  {
    var t := Work(s);
    forall k | 0 <= k < BUFFERPACKETCOUNT && t.ordered[k].Some? ensures LeadsSomewhere(z, n, k, t.ordered[k].value) {
      assert t.ordered[k] == s.ordered[k];
    }
  }

  lemma DiscardStep(s: State, a: seq<Packet>, z: nat, n: int, b: int, src: Endpoint)
    requires PastWrap(s, a, z, n, b, src) && Numbered(a, z, n)
    requires Ready(s) && Bottom(s).sn != s.minsn && b < n + BUFFERPACKETCOUNT
    ensures PastWrap(Work(s), a, z, n, b + 1, src) && Work(s).processed == s.processed
  {
    hide SlotsLead;
    ClearedLeads(s, z, n);
    BothMoveOn(b);
  }

  lemma BothMoveOn(b: int)
    ensures (b % BUFFERPACKETCOUNT + 1) % BUFFERPACKETCOUNT == (b + 1) % BUFFERPACKETCOUNT
    ensures ((b - 16) % U16_RANGE + 1) % U16_RANGE == (b + 1 - 16) % U16_RANGE
  {
    MovesOn(b, BUFFERPACKETCOUNT);
    MovesOn(b - 16, U16_RANGE);
  }

  lemma {:induction false} DrainDiscards(s: State, a: seq<Packet>, z: nat, n: int, b: int, src: Endpoint)
    returns (c: int)
    requires PastWrap(s, a, z, n, b, src) && Numbered(a, z, n)
    requires n >= 0 && s.ordered[n % BUFFERPACKETCOUNT].None?
    ensures PastWrap(Drain(s), a, z, n, c, src) && Drain(s).processed == s.processed
    decreases Occupied(s.ordered)
  {
    c := b;
    if Ready(s) {
      ClearingReduces(s.ordered, s.bottom);
      var q := LedToIsOld(s, a, z, n, b, src);
      DiscardStep(s, a, z, n, b, src);
      c := DrainDiscards(Work(s), a, z, n, b + 1, src);
    }
  }

  lemma StoredLeads(s: State, t: State, z: nat, n: int, pk: Packet)
    requires WellFormed(s) && WellFormed(t) && SlotsLead(s, z, n) && -1 <= n && pk.sn == n + 1
    requires Stored(s, t, pk) && s.indexin == (z + n + 1) % BUFFERPACKETCOUNT
    ensures SlotsLead(t, z, n + 1)
  {
    forall k | 0 <= k < BUFFERPACKETCOUNT && t.ordered[k].Some? ensures LeadsSomewhere(z, n + 1, k, t.ordered[k].value) {
      if k == SlotOf(pk) {
        assert Leads(z, n + 1, k, t.ordered[k].value, n + 1);
      } else {
        assert LeadsSomewhere(z, n, k, s.ordered[k].value);
        var q :| Leads(z, n, k, s.ordered[k].value, q);
        OtherSlotStays(n, q, k);
        assert Leads(z, n + 1, k, t.ordered[k].value, q);
      }
    }
  }

  lemma OtherSlotStays(n: int, q: int, k: int)
    requires -1 <= n < Until(q) && -BUFFERDELAYCOUNT <= q <= n && SlotPast(q) == k != (n + 1) % BUFFERPACKETCOUNT
    ensures n + 1 < Until(q)
  {
  }

  /** The next number is stored, and nothing else. */
  lemma NextArrives(s: State, a: seq<Packet>, z: nat, n: int, b: int, src: Endpoint, pk: Packet)
    requires PastWrap(s, a, z, n, b, src) && Numbered(a, z, n) && pk.sn == n + 1
    ensures var t := Arrive(s, pk, src);
            && OnlyLast20(t, a + [pk], src) && Stored(s, t, pk) && t.bottom == s.bottom && t.maxsn == s.maxsn
            && t.processed == s.processed && SlotsLead(t, z, n + 1)
  {
    assert pk.sn <= s.minsn + BUFFERPACKETCOUNT;
    ArriveEffect(s, pk, src);
    ArriveKeepsBuffers(s, a, pk, src);
    StoredLeads(s, Arrive(s, pk, src), z, n, pk);
  }

  /** If its slot is at the bottom it is old enough, but not the number expected. */
  lemma NextAtBottom(s: State, a: seq<Packet>, z: nat, n: int, src: Endpoint, pk: Packet)
    requires PastWrap(s, a, z, n, n + 1, src) && Numbered(a + [pk], z, n + 1) && Numbered(a, z, n) && pk.sn == n + 1
    ensures var t := Arrive(s, pk, src);
            && WellFormed(t) && Ready(t) && Work(t).processed == s.processed
            && PastWrap(Work(t), a + [pk], z, n + 1, n + 2, src)
            && Work(t).ordered[(n + 1) % BUFFERPACKETCOUNT].None?
  {
    var t := Arrive(s, pk, src);
    NextArrives(s, a, z, n, n + 1, src, pk);
    assert t.ordered[t.bottom] == Some(s.indexin) && Bottom(t) == pk;
    hide Arrive, SlotsLead, Numbered, Stored, Ready, OnlyLast20;
    OldEnough(t, n + 1);
    ClearedLeads(t, z, n + 1);
    BothMoveOn(n + 1);
  }

  lemma OldEnough(t: State, x: int)
    requires WellFormed(t) && Listening(t, t.confirmed) && t.ordered[t.bottom].Some? && Bottom(t).sn == x
    requires 0 <= x < U16_RANGE - BUFFERPACKETCOUNT && t.maxsn == U16_RANGE - 1 && t.minsn == (x - 16) % U16_RANGE
    ensures Ready(t) && Bottom(t).sn != t.minsn
  {
  }

  /** Otherwise the slot at the bottom is as it was, and there is nothing to do. */
  lemma NextElsewhere(s: State, a: seq<Packet>, z: nat, n: int, b: int, src: Endpoint, pk: Packet)
    requires PastWrap(s, a, z, n, b, src) && !Ready(s) && n + 1 < b && Numbered(a, z, n) && pk.sn == n + 1
    ensures var t := Arrive(s, pk, src);
            WellFormed(t) && PastWrap(t, a + [pk], z, n + 1, b, src) && !Ready(t) && t.processed == s.processed
  {
    var t := Arrive(s, pk, src);
    NextArrives(s, a, z, n, b, src, pk);
    hide Arrive, SlotsLead, Numbered, OnlyLast20;
    NotAtBottom(n + 1, b);
    if s.ordered[s.bottom].Some? {
      YoungStays(s, a, z, n, b, src);
      assert Bottom(t) == Bottom(s);
    }
  }

  lemma NotAtBottom(x: nat, b: int)
    requires x < b < x + BUFFERPACKETCOUNT
    ensures x % BUFFERPACKETCOUNT != b % BUFFERPACKETCOUNT
  {
  }

  /** What waits at the bottom came before the wrap, and is not in the next buffer to be filled. */
  lemma YoungStays(s: State, a: seq<Packet>, z: nat, n: int, b: int, src: Endpoint)
    requires PastWrap(s, a, z, n, b, src) && !Ready(s) && Numbered(a, z, n) && s.ordered[s.bottom].Some?
    ensures s.ordered[s.bottom].value != s.indexin
  {
    hide Ready;
    var v := s.ordered[s.bottom].value;
    assert LeadsSomewhere(z, n, s.bottom, v);
    var q :| Leads(z, n, s.bottom, v, q);
    LedTo(s, a, z, n, b, src, q);
    if q >= 0 { OldIsReady(s, q); }
    NotNext(z, n, q);
  }

  lemma OldIsReady(s: State, q: nat)
    requires WellFormed(s) && s.received && s.maxsn == U16_RANGE - 1 && s.ordered[s.bottom].Some?
    requires q <= U16_RANGE - 2 * BUFFERPACKETCOUNT && Bottom(s).sn == q % U16_RANGE
    ensures Ready(s)
  {
  }

  lemma NotNext(z: nat, n: int, q: int)
    requires q <= n < q + BUFFERPACKETCOUNT - 1
    ensures (z + q) % BUFFERPACKETCOUNT != (z + n + 1) % BUFFERPACKETCOUNT
  {
    if (z + q) % BUFFERPACKETCOUNT == (z + n + 1) % BUFFERPACKETCOUNT { SameSlot(z + q, z + n + 1); }
  }

  lemma NextFed(s: State, a: seq<Packet>, z: nat, n: int, b: int, src: Endpoint, pk: Packet) returns (c: int)
    requires WellFormed(s) && PastWrap(s, a, z, n, b, src) && !Ready(s) && -1 <= n
    requires Numbered(a, z, n) && Numbered(a + [pk], z, n + 1) && pk.sn == n + 1
    ensures WellFormed(Arrive(s, pk, src))
    ensures var t := Drain(Arrive(s, pk, src));
            PastWrap(t, a + [pk], z, n + 1, c, src) && t.processed == s.processed
  {
    hide Arrive, Drain, PastWrap, Numbered, Ready, Work;
    ArriveWellFormed(s, pk, src);
    if b == n + 1 {
      NextAtBottom(s, a, z, n, src, pk);
      DrainOnce(Arrive(s, pk, src));
      c := DrainDiscards(Work(Arrive(s, pk, src)), a + [pk], z, n + 1, n + 2, src);
    } else {
      BoundAhead(s, a, z, n, b, src);
      NextElsewhere(s, a, z, n, b, src, pk);
      DrainNone(Arrive(s, pk, src));
      c := b;
    }
  }

  lemma BoundAhead(s: State, a: seq<Packet>, z: nat, n: int, b: int, src: Endpoint)
    requires PastWrap(s, a, z, n, b, src)
    ensures n < b
  {
  }

  lemma DrainOnce(s: State)
    requires WellFormed(s) && Ready(s)
    ensures Drain(s) == Drain(Work(s))
  {
  }

  lemma DrainNone(s: State)
    requires WellFormed(s) && !Ready(s)
    ensures Drain(s) == s
  {
  }

  /** The state when 65535 has come. */
  lemma AtTheEdge(a: seq<Packet>, first: u16, src: Endpoint) returns (b: int)
    requires Stream(a, first) && |a| == BeforeWrap(first) && (first == 0 || first > BUFFERPACKETCOUNT)
    ensures PastWrap(Feed(a, src), a, |a|, -1, b, src) && !Ready(Feed(a, src))
  {
    hide OnlyLast20, AllHeld, NoStray, Ready, Highest, Stream;
    var s := Feed(a, src);
    EdgeBuffered(a, first, src);
    BuffersFed(a, src);
    EdgeBounds(s, a, src);
    EdgeLeads(s, a, first);
    b := s.minsn - U16_RANGE + 16;
  }

  lemma EdgeBuffered(a: seq<Packet>, first: u16, src: Endpoint)
    requires Stream(a, first) && |a| == BeforeWrap(first) && (first == 0 || first > BUFFERPACKETCOUNT)
    ensures var s := Feed(a, src);
            && InStep(s, a, src) && AllHeld(s, a) && NoStray(s, a)
            && Highest(a) == U16_RANGE - 1 < s.minsn + BUFFERDELAYCOUNT && !Ready(s)
  {
    var s := Feed(a, src);
    assert a[0].sn == first;
    hide Highest, InStep, AllHeld, NoStray, Windowed, Ready, Stream;
    StreamIsWindowed(a, first);
    StreamHighest(a, first);
    FeedBuffered(a, src);
    WindowAllCome(a);
    ReadyMeansNext(s, a, src);
  }

  lemma EdgeBounds(s: State, a: seq<Packet>, src: Endpoint)
    requires InStep(s, a, src) && Highest(a) == U16_RANGE - 1 < s.minsn + BUFFERDELAYCOUNT
    ensures s.maxsn == U16_RANGE - 1 && s.minsn >= U16_RANGE - BUFFERDELAYCOUNT
    ensures var b := s.minsn - U16_RANGE + 16;
            s.bottom == b % BUFFERPACKETCOUNT && s.minsn == (b - 16) % U16_RANGE
  {
  }

  lemma EdgeLeads(s: State, a: seq<Packet>, first: u16)
    requires WellFormed(s) && AllHeld(s, a) && NoStray(s, a) && s.minsn >= U16_RANGE - BUFFERDELAYCOUNT
    requires Stream(a, first) && |a| == BeforeWrap(first)
    ensures SlotsLead(s, |a|, -1)
  {
    forall k | 0 <= k < BUFFERPACKETCOUNT && s.ordered[k].Some? ensures LeadsSomewhere(|a|, -1, k, s.ordered[k].value) {
      assert Pending(s.minsn, a, k);
      var j :| 0 <= j < |a| && a[j].sn >= s.minsn && SlotOf(a[j]) == k;
      assert Held(s, a, j);
      EdgeLead(a, first, j);
      assert Leads(|a|, -1, k, s.ordered[k].value, j - |a|);
    }
  }

  lemma EdgeLead(a: seq<Packet>, first: u16, j: nat)
    requires Stream(a, first) && |a| == BeforeWrap(first) && j < |a| && a[j].sn >= U16_RANGE - BUFFERDELAYCOUNT
    ensures Leads(|a|, -1, SlotOf(a[j]), j % BUFFERPACKETCOUNT, j - |a|)
  {
    assert a[j].sn == U16_RANGE + (j - |a|);
  }

  lemma StreamNumbered(a: seq<Packet>, first: u16)
    requires Stream(a, first) && BeforeWrap(first) <= |a| <= BeforeWrap(first) + U16_RANGE - 2 * BUFFERPACKETCOUNT
    ensures Numbered(a, BeforeWrap(first), |a| - BeforeWrap(first) - 1)
  {
    var z := BeforeWrap(first);
    forall q | 0 <= z + q && q < |a| - z ensures a[z + q].sn == q % U16_RANGE {
      assert first + (z + q) == U16_RANGE + q;
    }
  }

  lemma {:induction false} StreamPastWrap(a: seq<Packet>, first: u16, src: Endpoint) returns (b: int)
    requires Stream(a, first) && (first == 0 || first > BUFFERPACKETCOUNT)
    requires BeforeWrap(first) <= |a| <= BeforeWrap(first) + U16_RANGE - 2 * BUFFERPACKETCOUNT
    ensures PastWrap(Feed(a, src), a, BeforeWrap(first), |a| - BeforeWrap(first) - 1, b, src)
    ensures !Ready(Feed(a, src))
    ensures Feed(a, src).processed == Feed(a[..BeforeWrap(first)], src).processed
    decreases |a|
  {
    hide PastWrap, Numbered, Ready, Arrive, Drain, Stream;
    var z := BeforeWrap(first);
    if |a| == z {
      assert a[..z] == a;
      b := AtTheEdge(a, first, src);
    } else {
      var before, pk := a[..|a| - 1], a[|a| - 1];
      StreamSplits(a, first);
      assert a == before + [pk] && before[..z] == a[..z];
      b := StreamPastWrap(before, first, src);
      StreamNumbered(before, first);
      StreamNumbered(a, first);
      b := NextFed(Feed(before, src), before, z, |before| - z - 1, b, src, pk);
      DrainStops(Arrive(Feed(before, src), pk, src));
    }
  }

  lemma StreamSplits(a: seq<Packet>, first: u16)
    requires Stream(a, first) && BeforeWrap(first) < |a| <= BeforeWrap(first) + U16_RANGE
    ensures Stream(a[..|a| - 1], first) && a[|a| - 1].sn == |a| - 1 - BeforeWrap(first)
  {
    assert first + (|a| - 1) == U16_RANGE + (|a| - 1 - BeforeWrap(first));
  }

  lemma DrainStops(s: State)
    requires WellFormed(s)
    ensures !Ready(Drain(s))
  {
  }

  /** An in-order stream through 65535, drained after every packet, releases what is
      overtaken by 10 up to number 65525, and then nothing more. */
  lemma StreamStopsAtTheWrap(a: seq<Packet>, first: u16, src: Endpoint)
    requires Stream(a, first) && (first == 0 || first > BUFFERPACKETCOUNT)
    requires a != [] && |a| <= BeforeWrap(first) + U16_RANGE - 2 * BUFFERPACKETCOUNT
    ensures var out := Feed(a, src).processed;
            var before := if |a| <= BeforeWrap(first) then |a| else BeforeWrap(first);
            && |out| == (if before <= BUFFERDELAYCOUNT then 0 else before - BUFFERDELAYCOUNT)
            && forall k :: 0 <= k < |out| ==> out[k] == Release(a[k], 0)
  {
    var n := if |a| <= BeforeWrap(first) then |a| else BeforeWrap(first);
    if |a| > BeforeWrap(first) { var b := StreamPastWrap(a, first, src); } else { assert a[..n] == a; }
    FrontReleased(a[..n], first, src);
  }

  lemma FrontReleased(a: seq<Packet>, first: u16, src: Endpoint)
    requires Stream(a, first) && (first == 0 || first > BUFFERPACKETCOUNT) && 0 < |a| <= BeforeWrap(first)
    ensures var out := Feed(a, src).processed;
            && |out| == (if |a| <= BUFFERDELAYCOUNT then 0 else |a| - BUFFERDELAYCOUNT)
            && forall k :: 0 <= k < |out| ==> out[k] == Release(a[k], 0)
  {
    assert GoodStart(a) && a[0].sn == first;
    hide Highest, Feed, Windowed, GoodStart, Stream;
    StreamIsWindowed(a, first);
    StreamHighest(a, first);
    BoundedReorderingIsRepaired(a, src);
    var out := Feed(a, src).processed;
    forall k | 0 <= k < |out| ensures out[k] == Release(a[k], 0) { IsNth(a, first, out[k].packet, k); }
  }

  lemma IsNth(a: seq<Packet>, first: u16, pk: Packet, k: nat)
    requires Stream(a, first) && |a| <= BeforeWrap(first) && pk in a && pk.sn == first + k
    ensures k < |a| && pk == a[k]
  {
    var i :| 0 <= i < |a| && a[i] == pk;
    assert a[i].sn == first + i;
  }

  // ---- an overwritten buffer

  function Numbers(ns: seq<u16>, src: Endpoint): seq<Safety.Event> {
    seq(|ns|, i requires 0 <= i < |ns| => Safety.Datagram(Packet(ns[i], []), src))
  }

  /** Number 15 takes the bound past 65535, 16 lands at the bottom, and k copies of 5 follow. */
  function LongWait(k: nat, src: Endpoint): seq<Safety.Event> {
    if k == 0 then Numbers([65535, 15], src) + [Safety.WorkCall] + Numbers([16], src)
    else LongWait(k - 1, src) + Numbers([5], src)
  }

  lemma RunNext(es: seq<Safety.Event>, e: Safety.Event)
    ensures Safety.Run(es + [e]) == Safety.Step(Safety.Run(es), e)
  {
    assert (es + [e])[..|es|] == es;
  }

  ghost predicate Wrapped(s: State, k: nat, src: Endpoint) {
    && WellFormed(s) && Listening(s, src) && s.processed == []
    && s.minsn == 0 && s.bottom == 16 && s.maxsn == 65535
    && s.indexin == (3 + k) % BUFFERPACKETCOUNT && s.ordered[16] == Some(2)
  }

  lemma WrapsAt15(src: Endpoint)
    ensures Wrapped(Safety.Run(LongWait(0, src)), 0, src)
  {
    var first, second, third := Numbers([65535], src), Numbers([65535, 15], src), Numbers([65535, 15], src) + [Safety.WorkCall];
    assert first == [] + [Safety.Datagram(Packet(65535, []), src)];
    assert second == first + [Safety.Datagram(Packet(15, []), src)];
    assert LongWait(0, src) == third + [Safety.Datagram(Packet(16, []), src)];
    RunNext([], Safety.Datagram(Packet(65535, []), src));
    RunNext(first, Safety.Datagram(Packet(15, []), src));
    RunNext(second, Safety.WorkCall);
    RunNext(third, Safety.Datagram(Packet(16, []), src));
    FourSteps(src);
  }

  lemma FourSteps(src: Endpoint)
    ensures var s := Arrive(Arrive(Fresh(), Packet(65535, []), src), Packet(15, []), src);
            WellFormed(s) && Wrapped(Arrive(Work(s), Packet(16, []), src), 0, src)
  {
    var r := Arrive(Fresh(), Packet(65535, []), src);
    assert r.minsn == 65535 && r.bottom == 15 && r.indexin == 1;
    var s := Arrive(r, Packet(15, []), src);
    assert s.ordered[15] == Some(1) && Bottom(s).sn == 15 && Ready(s);
  }

  lemma WaitsOnce(s: State, k: nat, src: Endpoint)
    requires Wrapped(s, k, src) && k < BUFFERPACKETCOUNT - 1
    ensures Wrapped(Arrive(s, Packet(5, []), src), k + 1, src)
  {
  }

  lemma {:induction false} WaitsOn(k: nat, src: Endpoint)
    requires k < BUFFERPACKETCOUNT
    ensures Wrapped(Safety.Run(LongWait(k, src)), k, src)
  {
    if k == 0 {
      WrapsAt15(src);
    } else {
      hide Wrapped, Arrive;
      WaitsOn(k - 1, src);
      WaitsOnce(Safety.Run(LongWait(k - 1, src)), k - 1, src);
      var es, e := LongWait(k - 1, src), Safety.Datagram(Packet(5, []), src);
      assert Numbers([5], src) == [e];
      RunNext(es, e);
    }
  }

  /** Freshness is needed: left unread for 20 packets after the wrap, the buffer at the
      bottom is overwritten by number 0, and that is released out of line. */
  lemma OverwrittenBufferIsReleased(src: Endpoint)
    ensures var es := LongWait(19, src) + Numbers([0], src);
            && !Safety.Aligned(Safety.Run(es)) && Safety.Run(es).processed == []
            && |Safety.Run(es + [Safety.WorkCall]).processed| == 1
            && Safety.Run(es + [Safety.WorkCall]).processed[0].packet.sn == 0
  {
    var es, e := LongWait(19, src), Safety.Datagram(Packet(0, []), src);
    WaitsOn(19, src);
    assert Numbers([0], src) == [e];
    RunNext(es, e);
    RunNext(es + [e], Safety.WorkCall);
    LastTwo(Safety.Run(es), src);
  }

  lemma LastTwo(s: State, src: Endpoint)
    requires Wrapped(s, 19, src)
    ensures var t := Arrive(s, Packet(0, []), src);
            && WellFormed(t) && t.bottom == 16 && t.minsn == 0 && t.processed == []
            && |Work(t).processed| == 1 && Work(t).processed[0].packet.sn == 0
  {
    var t := Arrive(s, Packet(0, []), src);
    assert s.indexin == 2 && Bottom(t).sn == 0 && Ready(t);
  }
}
