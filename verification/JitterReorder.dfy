// Bounded reordering is fully repaired: whatever order packets arrive in, as
// long as none is overtaken by more than the buffering delay, every packet is
// released exactly once, in order, with its contents intact.

module JitterReorder {
  import opened Common
  import opened JitterBuffer

  /** Number q is among the first n arrivals. */
  ghost predicate Seen(a: seq<Packet>, n: nat, q: int)
    requires n <= |a|
  {
    exists j :: 0 <= j < n && a[j].sn == q
  }

  /** No loss, no duplicates, the first arrival has the lowest number, and packet m only
      arrives after every number up to m - 10. */
  ghost predicate Windowed(a: seq<Packet>) {
    && (forall i :: 0 <= i < |a| ==> a[0].sn <= a[i].sn)
    && (forall i, j :: 0 <= i < j < |a| ==> a[i].sn != a[j].sn)
    && (forall i, q :: 0 <= i < |a| && a[0].sn <= q <= a[i].sn - BUFFERDELAYCOUNT ==> Seen(a, i, q))
  }

  /** The first number is not one of 1..20. */
  predicate GoodStart(a: seq<Packet>) { a != [] ==> a[0].sn == 0 || a[0].sn > BUFFERPACKETCOUNT }

  ghost predicate InWindow(a: seq<Packet>) { GoodStart(a) && Windowed(a) }

  /** With everything below m released: the next packet is a new one within 20 of m, and
      takes no buffer whose packet is still to be released. */
  ghost predicate Fits(m: int, a: seq<Packet>, pk: Packet) {
    && m <= pk.sn < m + BUFFERPACKETCOUNT
    && (forall j :: 0 <= j < |a| ==> a[j].sn != pk.sn)
    && (forall j :: 0 <= j < |a| && a[j].sn >= m ==> |a| - j < BUFFERPACKETCOUNT)
  }

  /** Everything 10 or more behind the largest number has arrived. */
  ghost predicate AllCome(a: seq<Packet>)
    requires a != []
  {
    forall q :: a[0].sn <= q <= Highest(a) - BUFFERDELAYCOUNT ==> Seen(a, |a|, q)
  }

  /** The largest sequence number so far. */
  function Highest(a: seq<Packet>): (h: u16)
    requires a != []
    ensures forall i :: 0 <= i < |a| ==> a[i].sn <= h
    ensures exists i :: 0 <= i < |a| && a[i].sn == h
  {
    var last := a[|a| - 1].sn;
    if |a| == 1 then last
    else
      var before := Highest(a[..|a| - 1]);
      assert forall i :: 0 <= i < |a| - 1 ==> a[..|a| - 1][i] == a[i];
      if last > before then last else before
  }

  /** The channel after each of these packets arrived and the buffer was drained. */
  ghost function Feed(a: seq<Packet>, src: Endpoint): (s: State)
    ensures WellFormed(s)
  {
    if a == [] then Fresh()
    else
      var s := Feed(a[..|a| - 1], src);
      assert WellFormed(Arrive(s, a[|a| - 1], src)) by { ArriveWellFormed(s, a[|a| - 1], src); }
      Drain(Arrive(s, a[|a| - 1], src))
  }

  lemma ArriveWellFormed(s: State, pk: Packet, src: Endpoint)
    requires WellFormed(s)
    ensures WellFormed(Arrive(s, pk, src))
  {
  }

  /** Arrival j has not been released and its buffer and pointer are still its own. */
  ghost predicate Held(s: State, a: seq<Packet>, j: nat)
    requires WellFormed(s) && j < |a|
  {
    && |a| - j <= BUFFERPACKETCOUNT
    && s.ordered[SlotOf(a[j])] == Some(j % BUFFERPACKETCOUNT)
    && s.rtpdata[j % BUFFERPACKETCOUNT] == a[j]
  }

  lemma SameSlot(x: int, y: int)
    requires x % BUFFERPACKETCOUNT == y % BUFFERPACKETCOUNT && -BUFFERPACKETCOUNT < x - y < BUFFERPACKETCOUNT
    ensures x == y
  {
  }

  ghost predicate AllHeld(s: State, a: seq<Packet>)
    requires WellFormed(s)
  {
    forall j :: 0 <= j < |a| && a[j].sn >= s.minsn ==> Held(s, a, j)
  }

  /** The pointer in slot k is that of some arrival not yet released. */
  ghost predicate Pending(minsn: int, a: seq<Packet>, k: nat) {
    exists j :: 0 <= j < |a| && a[j].sn >= minsn && SlotOf(a[j]) == k
  }

  ghost predicate NoStray(s: State, a: seq<Packet>)
    requires WellFormed(s)
  {
    forall k :: 0 <= k < BUFFERPACKETCOUNT && s.ordered[k].Some? ==> Pending(s.minsn, a, k)
  }

  /** The scalar fields after any prefix of a windowed arrival order, also in mid drain. */
  ghost predicate InStep(s: State, a: seq<Packet>, src: Endpoint) {
    && WellFormed(s) && a != []
    && s.received && s.reading && s.confirmed == src
    && s.indexin == |a| % BUFFERPACKETCOUNT
    && s.maxsn == Highest(a)
    && a[0].sn <= s.minsn
    && Highest(a) <= s.minsn + BUFFERPACKETCOUNT - 1
    && (s.minsn == a[0].sn || s.minsn + BUFFERDELAYCOUNT - 1 <= Highest(a))
    && s.bottom == s.minsn % BUFFERPACKETCOUNT
    && s.lastsn == Sub16(s.minsn, 1)
  }

  /** The releases so far are the first n numbers, in order, unaltered, with nothing skipped. */
  ghost predicate Released(out: seq<Release>, a: seq<Packet>, n: int)
    requires a != []
  {
    && |out| == n
    && forall k :: 0 <= k < |out| ==>
         out[k].packet in a && out[k].packet.sn == a[0].sn + k && out[k].skip == 0
  }

  ghost predicate Buffered(s: State, a: seq<Packet>, src: Endpoint) {
    && InStep(s, a, src)
    && AllHeld(s, a)
    && NoStray(s, a)
    && Released(s.processed, a, s.minsn - a[0].sn)
  }

  /** While number q has not been overtaken by 10, fewer than 19 packets can have
      arrived since its own arrival. */
  lemma RoomInRing(a: seq<Packet>, i: nat)
    requires InWindow(a) && i < |a|
    requires Highest(a) < a[i].sn + BUFFERDELAYCOUNT
    ensures |a| - i < BUFFERPACKETCOUNT
  {
    hide Highest, InWindow, Distinct;
    var later := NumbersFrom(a, i + 1);
    forall k | 0 <= k < |later|
      ensures later[k] in Neighbours(a[i].sn)
    {
      LaterIsNear(a, i, i + 1 + k);
    }
    DistinctFit(later, Neighbours(a[i].sn));
  }

  /** The 18 numbers less than 10 away from q. */
  ghost function Neighbours(q: int): (r: set<int>)
    ensures |r| == 2 * BUFFERDELAYCOUNT - 2
    ensures forall x :: x in r <==> x != q && q - BUFFERDELAYCOUNT < x < q + BUFFERDELAYCOUNT
  {
    Interval(q - BUFFERDELAYCOUNT + 1, q + BUFFERDELAYCOUNT) - {q}
  }

  ghost function NumbersFrom(a: seq<Packet>, n: nat): (s: seq<int>)
    requires n <= |a|
    ensures |s| == |a| - n && forall k :: 0 <= k < |s| ==> s[k] == a[n + k].sn
    ensures InWindow(a) ==> Distinct(s)
  {
    seq(|a| - n, k requires 0 <= k < |a| - n => a[n + k].sn)
  }

  lemma LaterIsNear(a: seq<Packet>, i: nat, j: nat)
    requires InWindow(a) && i < j < |a|
    ensures a[i].sn != a[j].sn && a[i].sn - BUFFERDELAYCOUNT < a[j].sn <= Highest(a)
  {
    var seenBefore := Seen(a, i, a[j].sn);
  }

  lemma PrefixWindowed(a: seq<Packet>, n: nat)
    requires Windowed(a) && n <= |a|
    ensures Windowed(a[..n])
  {
    forall i, q | 0 <= i < n && a[0].sn <= q <= a[..n][i].sn - BUFFERDELAYCOUNT
      ensures Seen(a[..n], i, q)
    {
      assert Seen(a, i, q);
      var j :| 0 <= j < i && a[j].sn == q;
      assert a[..n][j].sn == q;
    }
  }

  /** A prefix of a windowed arrival order is windowed. */
  lemma WindowPrefix(a: seq<Packet>, n: nat)
    requires InWindow(a) && n <= |a|
    ensures InWindow(a[..n])
  {
    PrefixWindowed(a, n);
  }

  lemma FirstArrival(pk: Packet, src: Endpoint)
    requires pk.sn == 0 || pk.sn > BUFFERPACKETCOUNT
    ensures Buffered(Arrive(Fresh(), pk, src), [pk], src)
  {
    var s := Arrive(Fresh(), pk, src);
    assert s.ordered == Fresh().ordered[SlotOf(pk) := Some(0)];
    assert [pk][0].sn >= s.minsn && SlotOf([pk][0]) == SlotOf(pk);
    assert Pending(s.minsn, [pk], SlotOf(pk));
  }

  /** The next number is neither released already nor far enough ahead to restart the buffer. */
  lemma NextInReach(s: State, a: seq<Packet>, pk: Packet, src: Endpoint)
    requires InStep(s, a, src) && Highest(a) < s.minsn + BUFFERDELAYCOUNT
    requires InWindow(a + [pk])
    ensures s.minsn <= pk.sn < s.minsn + BUFFERPACKETCOUNT
  {
    var b := a + [pk];
    var m := pk.sn;
    assert b[|a|] == pk && b[0] == a[0];
    var top :| 0 <= top < |a| && a[top].sn == Highest(a);
    assert b[top] == a[top];
    assert forall j :: 0 <= j < |a| ==> b[j] == a[j] && a[j].sn <= Highest(a);
    var behindSeen, numberSeen := Seen(b, |a|, m - BUFFERDELAYCOUNT), Seen(b, top, m);
  }

  /** In a window, drained, the next packet fits. */
  lemma WindowFits(s: State, a: seq<Packet>, pk: Packet, src: Endpoint)
    requires InStep(s, a, src) && Highest(a) < s.minsn + BUFFERDELAYCOUNT
    requires InWindow(a + [pk])
    ensures Fits(s.minsn, a, pk)
  {
    var b := a + [pk];
    assert b[..|a|] == a && b[|a|] == pk && forall j :: 0 <= j < |a| ==> b[j] == a[j];
    WindowPrefix(b, |a|);
    NextInReach(s, a, pk, src);
    forall j | 0 <= j < |a| && a[j].sn >= s.minsn ensures |a| - j < BUFFERPACKETCOUNT { RoomInRing(a, j); }
  }

  lemma WindowAllCome(a: seq<Packet>)
    requires InWindow(a) && a != []
    ensures AllCome(a)
  {
    var top :| 0 <= top < |a| && a[top].sn == Highest(a);
    forall q | a[0].sn <= q <= Highest(a) - BUFFERDELAYCOUNT ensures Seen(a, |a|, q) {
      assert Seen(a, top, q);
    }
  }

  lemma HighestSnoc(a: seq<Packet>, pk: Packet)
    requires a != []
    ensures Highest(a + [pk]) == if pk.sn > Highest(a) then pk.sn else Highest(a)
  {
    assert (a + [pk])[..|a|] == a;
  }

  /** t is s with one more packet stored and no restart. */
  ghost predicate Stored(s: State, t: State, pk: Packet)
    requires WellFormed(s)
  {
    && t.rtpdata == s.rtpdata[s.indexin := pk]
    && t.ordered == s.ordered[SlotOf(pk) := Some(s.indexin)]
    && t.minsn == s.minsn
  }

  /** Neither ring loses a waiting packet when the next one is stored. */
  lemma StillHeld(s: State, t: State, a: seq<Packet>, pk: Packet, j: nat)
    requires WellFormed(s) && WellFormed(t) && Stored(s, t, pk)
    requires s.indexin == |a| % BUFFERPACKETCOUNT
    requires j < |a| && Held(s, a, j) && |a| - j < BUFFERPACKETCOUNT
    requires a[j].sn != pk.sn && -BUFFERPACKETCOUNT < a[j].sn - pk.sn < BUFFERPACKETCOUNT
    ensures Held(t, a + [pk], j)
  {
    assert j % BUFFERPACKETCOUNT != s.indexin;
    assert SlotOf(a[j]) != SlotOf(pk);
    assert (a + [pk])[j] == a[j];
  }

  lemma AllStillHeld(s: State, t: State, a: seq<Packet>, pk: Packet)
    requires WellFormed(s) && WellFormed(t) && Stored(s, t, pk) && a != []
    requires s.indexin == |a| % BUFFERPACKETCOUNT
    requires AllHeld(s, a) && Fits(s.minsn, a, pk) && Highest(a) < s.minsn + BUFFERPACKETCOUNT
    ensures AllHeld(t, a + [pk])
  {
    var b := a + [pk];
    forall j | 0 <= j < |b| && b[j].sn >= t.minsn
      ensures Held(t, b, j)
    {
      if j < |a| {
        assert b[j] == a[j];
        assert Held(s, a, j);
        StillHeld(s, t, a, pk, j);
      } else {
        assert b[j] == pk;
      }
    }
  }

  lemma StillNoStray(s: State, t: State, a: seq<Packet>, pk: Packet)
    requires WellFormed(s) && WellFormed(t) && Stored(s, t, pk)
    requires NoStray(s, a) && s.minsn <= pk.sn
    ensures NoStray(t, a + [pk])
  {
    var b := a + [pk];
    forall k | 0 <= k < BUFFERPACKETCOUNT && t.ordered[k].Some?
      ensures Pending(t.minsn, b, k)
    {
      if k == SlotOf(pk) {
        assert b[|a|] == pk;
      } else {
        assert Pending(s.minsn, a, k);
        var j :| 0 <= j < |a| && a[j].sn >= s.minsn && SlotOf(a[j]) == k;
        assert b[j] == a[j];
      }
    }
  }

  lemma StillReleased(out: seq<Release>, a: seq<Packet>, pk: Packet, n: int)
    requires a != [] && Released(out, a, n)
    ensures Released(out, a + [pk], n)
  {
    assert forall p :: p in a ==> p in a + [pk];
  }

  lemma ArriveEffect(s: State, pk: Packet, src: Endpoint)
    requires WellFormed(s) && s.received && s.reading && s.confirmed == src && pk.sn <= s.minsn + BUFFERPACKETCOUNT
    ensures var t := Arrive(s, pk, src);
      && WellFormed(t) && Stored(s, t, pk)
      && t.received && t.reading && t.confirmed == src && t.bottom == s.bottom && t.lastsn == s.lastsn
      && t.indexin == (s.indexin + 1) % BUFFERPACKETCOUNT && t.processed == s.processed
      && t.maxsn == if pk.sn > s.maxsn then pk.sn else s.maxsn
  {
  }

  lemma StillInStep(s: State, t: State, a: seq<Packet>, pk: Packet, src: Endpoint)
    requires InStep(s, a, src) && s.minsn <= pk.sn < s.minsn + BUFFERPACKETCOUNT
    requires WellFormed(t) && t.minsn == s.minsn && t.bottom == s.bottom && t.lastsn == s.lastsn
    requires t.received && t.reading && t.confirmed == src && t.indexin == (s.indexin + 1) % BUFFERPACKETCOUNT
    requires t.maxsn == if pk.sn > s.maxsn then pk.sn else s.maxsn
    ensures InStep(t, a + [pk], src)
  {
    hide Highest;
    HighestSnoc(a, pk);
    assert (a + [pk])[0] == a[0];
  }

  /** Ordering one more packet that fits. */
  lemma ArriveBuffered(s: State, a: seq<Packet>, pk: Packet, src: Endpoint)
    requires Buffered(s, a, src) && Fits(s.minsn, a, pk)
    ensures Buffered(Arrive(s, pk, src), a + [pk], src)
  {
    var t := Arrive(s, pk, src);
    hide Held, Pending, Highest;
    ArriveEffect(s, pk, src);
    StillInStep(s, t, a, pk, src);
    assert t.processed == s.processed && (a + [pk])[0] == a[0];
    AllStillHeld(s, t, a, pk);
    StillNoStray(s, t, a, pk);
    StillReleased(s.processed, a, pk, s.minsn - a[0].sn);
  }

  /** A pointer set at the bottom belongs to the expected number. */
  lemma BottomIsNext(s: State, a: seq<Packet>, src: Endpoint)
    requires InStep(s, a, src) && AllHeld(s, a) && NoStray(s, a)
    requires s.ordered[s.bottom].Some?
    ensures Bottom(s).sn == s.minsn && Bottom(s) in a
  {
    assert Pending(s.minsn, a, s.bottom);
    var j :| 0 <= j < |a| && a[j].sn >= s.minsn && SlotOf(a[j]) == s.bottom;
    assert Held(s, a, j);
    assert a[j].sn <= Highest(a);
    SameSlot(a[j].sn, s.minsn);
  }

  /** A number overtaken by 10 is waiting at the bottom. */
  lemma OvertakenIsThere(s: State, a: seq<Packet>, src: Endpoint)
    requires InStep(s, a, src) && AllHeld(s, a) && AllCome(a)
    requires s.minsn + BUFFERDELAYCOUNT <= Highest(a)
    ensures s.ordered[s.bottom].Some?
  {
    assert Seen(a, |a|, s.minsn);
    var j :| 0 <= j < |a| && a[j].sn == s.minsn;
    assert Held(s, a, j);
  }

  lemma ReadyByAge(s: State, highest: u16)
    requires WellFormed(s) && s.received && s.maxsn == highest && s.minsn <= highest
    requires s.ordered[s.bottom].Some? ==> Bottom(s).sn == s.minsn
    requires s.minsn + BUFFERDELAYCOUNT <= highest ==> s.ordered[s.bottom].Some?
    ensures Ready(s) <==> s.minsn + BUFFERDELAYCOUNT <= highest
  {
  }

  lemma NewestIsYoung(s: State)
    requires WellFormed(s) && s.ordered[s.bottom].Some? && Bottom(s).sn == s.maxsn
    ensures !Ready(s) && Drain(s) == s
  {
  }

  /** A buffered channel is ready exactly when something 10 ahead has been seen,
      and then the packet at the bottom is the one expected. */
  lemma ReadyMeansNext(s: State, a: seq<Packet>, src: Endpoint)
    requires InStep(s, a, src) && AllHeld(s, a) && NoStray(s, a) && AllCome(a)
    ensures Ready(s) <==> s.minsn + BUFFERDELAYCOUNT <= Highest(a)
    ensures Ready(s) ==> Bottom(s).sn == s.minsn && Bottom(s) in a
  {
    if s.ordered[s.bottom].Some? {
      BottomIsNext(s, a, src);
    }
    if s.minsn + BUFFERDELAYCOUNT <= Highest(a) {
      OvertakenIsThere(s, a, src);
    }
    ReadyByAge(s, Highest(a));
  }

  /** t is s with the bottom pointer cleared and the bounds moved up by one. */
  ghost predicate Advanced(s: State, t: State)
    requires WellFormed(s)
  {
    t.rtpdata == s.rtpdata && t.ordered == s.ordered[s.bottom := None] && t.minsn == s.minsn + 1
  }

  lemma WorkHeldOne(s: State, t: State, a: seq<Packet>, j: nat)
    requires WellFormed(s) && s.bottom == s.minsn % BUFFERPACKETCOUNT
    requires WellFormed(t) && Advanced(s, t)
    requires j < |a| && Held(s, a, j) && s.minsn < a[j].sn < s.minsn + BUFFERPACKETCOUNT
    ensures Held(t, a, j)
  {
    assert SlotOf(a[j]) != s.bottom;
  }

  lemma WorkHeld(s: State, t: State, a: seq<Packet>, src: Endpoint)
    requires InStep(s, a, src) && AllHeld(s, a) && WellFormed(t) && Advanced(s, t)
    ensures AllHeld(t, a)
  {
    forall j | 0 <= j < |a| && a[j].sn >= t.minsn
      ensures Held(t, a, j)
    {
      assert Held(s, a, j);
      assert a[j].sn <= Highest(a);
      WorkHeldOne(s, t, a, j);
    }
  }

  lemma WorkNoStray(s: State, t: State, a: seq<Packet>, src: Endpoint)
    requires WellFormed(s) && s.bottom == s.minsn % BUFFERPACKETCOUNT
    requires NoStray(s, a) && WellFormed(t) && Advanced(s, t)
    ensures NoStray(t, a)
  {
    forall k | 0 <= k < BUFFERPACKETCOUNT && t.ordered[k].Some?
      ensures Pending(t.minsn, a, k)
    {
      assert Pending(s.minsn, a, k);
      var j :| 0 <= j < |a| && a[j].sn >= s.minsn && SlotOf(a[j]) == k;
      assert a[j].sn != s.minsn;
    }
  }

  lemma WorkBuffered(s: State, a: seq<Packet>, src: Endpoint)
    requires Buffered(s, a, src) && AllCome(a) && Ready(s)
    ensures Buffered(Work(s), a, src)
  {
    ReadyMeansNext(s, a, src);
    WorkEffect(s);
    WorkInStep(s, Work(s), a, src);
    WorkHeld(s, Work(s), a, src);
    WorkNoStray(s, Work(s), a, src);
    MoreReleased(s.processed, a, s.minsn - a[0].sn, Bottom(s));
  }

  lemma WorkEffect(s: State)
    requires WellFormed(s) && Ready(s) && Bottom(s).sn == s.minsn && s.minsn < U16_RANGE - 1
    requires s.lastsn == Sub16(s.minsn, 1)
    ensures Advanced(s, Work(s))
    ensures Work(s).processed == s.processed + [Release(Bottom(s), 0)]
    ensures Work(s).bottom == (s.bottom + 1) % BUFFERPACKETCOUNT && Work(s).lastsn == s.minsn
    ensures var t := Work(s);
      t.received == s.received && t.reading == s.reading && t.confirmed == s.confirmed
      && t.indexin == s.indexin && t.maxsn == s.maxsn
  {
    assert SkipCount(s.minsn, Sub16(s.minsn, 1)) == 0;
  }

  lemma WorkInStep(s: State, t: State, a: seq<Packet>, src: Endpoint)
    requires InStep(s, a, src) && s.minsn + BUFFERDELAYCOUNT <= Highest(a)
    requires WellFormed(t) && t.minsn == s.minsn + 1 && t.bottom == (s.bottom + 1) % BUFFERPACKETCOUNT
    requires t.lastsn == s.minsn && t.received && t.reading && t.confirmed == src
    requires t.indexin == s.indexin && t.maxsn == s.maxsn
    ensures InStep(t, a, src)
  {
    hide Highest;
    MovesOn(s.minsn, BUFFERPACKETCOUNT);
  }

  lemma MoreReleased(out: seq<Release>, a: seq<Packet>, n: int, pk: Packet)
    requires a != [] && Released(out, a, n) && pk in a && pk.sn == a[0].sn + n
    ensures Released(out + [Release(pk, 0)], a, n + 1)
  {
  }

  lemma {:induction false} DrainBuffered(s: State, a: seq<Packet>, src: Endpoint)
    requires Buffered(s, a, src) && AllCome(a)
    ensures Buffered(Drain(s), a, src)
    ensures Highest(a) < Drain(s).minsn + BUFFERDELAYCOUNT
    decreases Occupied(s.ordered)
  {
    ReadyMeansNext(s, a, src);
    if Ready(s) {
      ClearingReduces(s.ordered, s.bottom);
      WorkBuffered(s, a, src);
      DrainBuffered(Work(s), a, src);
    }
  }

  lemma FitsNext(s: State, a: seq<Packet>, pk: Packet, src: Endpoint)
    requires Buffered(s, a, src) && Highest(a) < s.minsn + BUFFERDELAYCOUNT && InWindow(a + [pk])
    ensures Fits(s.minsn, a, pk)
  {
    WindowFits(s, a, pk, src);
  }

  lemma FirstFed(pk: Packet, src: Endpoint)
    requires GoodStart([pk]) && AllCome([pk])
    ensures Buffered(Feed([pk], src), [pk], src) && Highest([pk]) < Feed([pk], src).minsn + BUFFERDELAYCOUNT
  {
    assert [pk][..0] == [] && Feed([], src) == Fresh();
    hide Buffered, Drain, Arrive, AllCome, Highest;
    FirstArrival(pk, src);
    DrainBuffered(Arrive(Fresh(), pk, src), [pk], src);
  }

  lemma {:induction false} FeedBuffered(a: seq<Packet>, src: Endpoint)
    requires InWindow(a) && a != []
    ensures Buffered(Feed(a, src), a, src)
    ensures Highest(a) < Feed(a, src).minsn + BUFFERDELAYCOUNT
  {
    var before, pk := a[..|a| - 1], a[|a| - 1];
    assert a == before + [pk];
    assert GoodStart(a);
    hide Buffered, Drain, Arrive, AllCome, Fits, InWindow, Highest;
    WindowAllCome(a);
    if before == [] {
      assert a == [pk];
      FirstFed(pk, src);
    } else {
      WindowPrefix(a, |a| - 1);
      FeedBuffered(before, src);
      FitsNext(Feed(before, src), before, pk, src);
      ArriveBuffered(Feed(before, src), before, pk, src);
      DrainBuffered(Arrive(Feed(before, src), pk, src), a, src);
    }
  }

  /** Main result. After any windowed arrival order, the packets handed to
      processrtpdata are exactly those overtaken by 10, each once, in increasing
      order, unaltered and with nothing skipped. Since every prefix of a windowed
      order is windowed, each packet is released at the first drain after a number
      10 or more above it has arrived, and not before. */
  lemma BoundedReorderingIsRepaired(a: seq<Packet>, src: Endpoint)
    requires InWindow(a) && a != []
    ensures var out := Feed(a, src).processed;
      && |out| == (if Highest(a) - BUFFERDELAYCOUNT >= a[0].sn then Highest(a) - BUFFERDELAYCOUNT + 1 - a[0].sn else 0)
      && (forall k :: 0 <= k < |out| ==>
           out[k].packet in a && out[k].packet.sn == a[0].sn + k && out[k].skip == 0)
    ensures forall pk :: pk in a ==>
      ((exists k :: 0 <= k < |Feed(a, src).processed| && Feed(a, src).processed[k].packet == pk)
        <==> pk.sn + BUFFERDELAYCOUNT <= Highest(a))
  {
    FeedBuffered(a, src);
    var out := Feed(a, src).processed;
    hide Highest, Feed;
    forall pk | pk in a
      ensures (exists k :: 0 <= k < |out| && out[k].packet == pk) <==> pk.sn + BUFFERDELAYCOUNT <= Highest(a)
    {
      ReleasedIff(out, a, pk);
    }
  }

  lemma ReleasedIff(out: seq<Release>, a: seq<Packet>, pk: Packet)
    requires Windowed(a) && pk in a && Released(out, a, |out|)
    ensures (exists k :: 0 <= k < |out| && out[k].packet == pk) <==> pk.sn < a[0].sn + |out|
  {
    var i :| 0 <= i < |a| && a[i] == pk;
    if pk.sn < a[0].sn + |out| {
      var k := pk.sn - a[0].sn;
      assert out[k].packet in a && out[k].packet.sn == pk.sn;
      var j :| 0 <= j < |a| && a[j] == out[k].packet;
      assert i == j;
    }
  }
}
