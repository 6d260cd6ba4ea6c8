// Past number 65535. 65536 is not a multiple of 20, so the lower bound's wrap puts the
// bottom of the pointer ring out of line: when it is, what is then released, and how it
// comes back.

module JitterWrap {
  import opened Common
  import opened JitterBuffer
  import Safety = JitterSafety

  type Event = Safety.Event

  /** The event is an accepted packet with a number more than 20 above the lower bound. */
  predicate Restarts(s: State, e: Event) {
    e.Datagram? && Safety.Accepts(s, e.src) && e.pk.sn > s.minsn + BUFFERPACKETCOUNT
  }

  predicate WrapsBy(s: State, e: Event)
    requires WellFormed(s)
  {
    e.WorkCall? && Safety.Wraps(s)
  }

  ghost function WrapsSinceRestart(es: seq<Event>): nat {
    if es == [] then 0
    else
      var before, e := es[..|es| - 1], es[|es| - 1];
      if Restarts(Safety.Run(before), e) then 0
      else WrapsSinceRestart(before) + if WrapsBy(Safety.Run(before), e) then 1 else 0
  }

  /** The bottom after w wraps since it was in line. */
  function Offset(minsn: int, w: nat): int { (minsn + 16 * w) % BUFFERPACKETCOUNT }

  lemma OffsetStep(s: State, e: Event, w: nat)
    requires WellFormed(s) && s.bottom == Offset(s.minsn, w)
    ensures var t := Safety.Step(s, e); var next := if Restarts(s, e) then 0 else w + if WrapsBy(s, e) then 1 else 0;
            t.bottom == Offset(t.minsn, next)
  {
    hide Offset, Ready;
    if e.WorkCall? && Ready(s) {
      OffsetMoves(s.minsn, w);
      if s.minsn == U16_RANGE - 1 { OffsetWraps(w); }
    } else if Restarts(s, e) {
      InLine(e.pk.sn);
    }
  }

  lemma OffsetMoves(m: int, w: nat)
    ensures (Offset(m, w) + 1) % BUFFERPACKETCOUNT == Offset(m + 1, w)
  {
    MovesOn(m + 16 * w, BUFFERPACKETCOUNT);
  }

  lemma InLine(m: int)
    ensures Offset(m, 0) == m % BUFFERPACKETCOUNT
  {
  }

  lemma OffsetWraps(w: nat)
    ensures Offset(U16_RANGE, w) == Offset(0, w + 1)
  {
    AddMultiple(16 * (w + 1), BUFFERPACKETCOUNT, (U16_RANGE - 16) / BUFFERPACKETCOUNT);
  }

  lemma OffsetAligned(m: u16, w: nat)
    ensures Offset(m, w) == m % BUFFERPACKETCOUNT <==> w % 5 == 0
  {
    var v, u := w / 5, w % 5;
    AddMultiple(m + 16 * u, BUFFERPACKETCOUNT, 4 * v);
    assert m + 16 * w == m + 16 * u + BUFFERPACKETCOUNT * (4 * v);
    FewWraps(m, u);
  }

  lemma FewWraps(m: u16, u: nat)
    requires u < 5
    ensures Offset(m, u) == m % BUFFERPACKETCOUNT <==> u == 0
  {
    if u == 1 {} else if u == 2 {} else if u == 3 {} else if u == 4 {}
  }

  /** In every run: the bottom is as far out of line as the wraps since the last restart
      have put it, so it is in line exactly after a multiple of five of them. */
  lemma {:induction false} AlignedIff(es: seq<Event>)
    ensures var s := Safety.Run(es);
            s.bottom == Offset(s.minsn, WrapsSinceRestart(es))
    ensures Safety.Aligned(Safety.Run(es)) <==> WrapsSinceRestart(es) % 5 == 0
  {
    OffsetAligned(Safety.Run(es).minsn, WrapsSinceRestart(es));
    hide Safety.Step, WrapsBy, Restarts, Offset;
    if es != [] {
      AlignedIff(es[..|es| - 1]);
      OffsetStep(Safety.Run(es[..|es| - 1]), es[|es| - 1], WrapsSinceRestart(es[..|es| - 1]));
    }
  }

  /** One step brings the bottom back in line exactly by a restart, or by a wrap from slot 19. */
  lemma AlignedAgainIff(s: State, e: Event)
    requires WellFormed(s) && !Safety.Aligned(s)
    ensures Safety.Aligned(Safety.Step(s, e)) <==>
            Restarts(s, e) || (WrapsBy(s, e) && s.bottom == BUFFERPACKETCOUNT - 1)
  {
    Safety.BothUpOne(s.bottom, s.minsn);
    Safety.BoundGrows(s, e);
    if s.bottom == BUFFERPACKETCOUNT - 1 { assert (s.bottom + 1) % BUFFERPACKETCOUNT == 0; }
  }

  /** Fewer than 20 packets have been accepted since the pointer at the bottom was set. */
  ghost predicate BottomIsFresh(es: seq<Event>) {
    var s, a := Safety.Run(es), Safety.Accepted(es);
    exists n :: 0 <= n < |a| && Safety.SetBy(s, a, s.bottom, n) && |a| - n < BUFFERPACKETCOUNT
  }

  /** Out of line, a work call can only release from a buffer that has been overwritten. */
  lemma FreshIsNotReleased(es: seq<Event>)
    requires !Safety.Aligned(Safety.Run(es)) && BottomIsFresh(es)
    ensures Work(Safety.Run(es)).processed == Safety.Run(es).processed
  {
    var s, a := Safety.Run(es), Safety.Accepted(es);
    Safety.RingInvariant(es);
    var n :| 0 <= n < |a| && Safety.SetBy(s, a, s.bottom, n) && |a| - n < BUFFERPACKETCOUNT;
    assert s.rtpdata[n % BUFFERPACKETCOUNT] == a[n];
  }

  /** Nothing in this stretch of a run restarts or wraps, and no work call finds a pointer
      that is 20 accepted packets old. */
  ghost predicate NothingRealigns(es: seq<Event>, more: seq<Event>) {
    forall i :: 0 <= i < |more| ==> KeepsOut(es + more[..i], more[i])
  }

  ghost predicate KeepsOut(es: seq<Event>, e: Event) {
    var s := Safety.Run(es);
    !Restarts(s, e) && !WrapsBy(s, e) && (e.WorkCall? && Ready(s) ==> BottomIsFresh(es))
  }

  lemma OutOfLineStep(es: seq<Event>, e: Event)
    requires !Safety.Aligned(Safety.Run(es)) && KeepsOut(es, e)
    ensures var t := Safety.Run(es + [e]);
            !Safety.Aligned(t) && t.processed == Safety.Run(es).processed
  {
    assert (es + [e])[..|es|] == es;
    AlignedAgainIff(Safety.Run(es), e);
    if e.WorkCall? && Ready(Safety.Run(es)) { FreshIsNotReleased(es); }
  }

  /** Once out of line, nothing is released until the next restart or wrap, except from
      buffers overwritten under their pointers. */
  lemma {:induction false} OutOfLineReleasesNothing(es: seq<Event>, more: seq<Event>)
    requires !Safety.Aligned(Safety.Run(es)) && NothingRealigns(es, more)
    ensures Safety.Run(es + more).processed == Safety.Run(es).processed
    ensures !Safety.Aligned(Safety.Run(es + more))
  {
    hide KeepsOut, Safety.Aligned, Safety.Run;
    if more == [] {
      assert es + more == es;
    } else {
      var before, e := more[..|more| - 1], more[|more| - 1];
      ShorterStretch(es, more);
      OutOfLineReleasesNothing(es, before);
      OutOfLineStep(es + before, e);
      assert es + before + [e] == es + more;
    }
  }

  lemma ShorterStretch(es: seq<Event>, more: seq<Event>)
    requires NothingRealigns(es, more) && more != []
    ensures NothingRealigns(es, more[..|more| - 1]) && KeepsOut(es + more[..|more| - 1], more[|more| - 1])
  {
    hide KeepsOut;
    var before := more[..|more| - 1];
    forall i | 0 <= i < |before| ensures KeepsOut(es + before[..i], before[i]) {
      assert before[..i] == more[..i] && KeepsOut(es + more[..i], more[i]);
    }
  }
}
