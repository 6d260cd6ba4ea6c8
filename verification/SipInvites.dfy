// How many INVITEs a dialog made by the control server sends, and with which CSeq, when
// packets, timers, replies and control requests come in any order, short of the control
// server asking for another INVITE.

module SipInvites {
  import opened Common
  import opened SipDialog
  import opened SipDialogRuns
  import opened SipOutbound

  function Invites(log: Log): nat {
    match log
    case Nothing => 0
    case Then(before, x) => Invites(before) + (if x.kind == Invite then 1 else 0)
  }

  /** The CSeq of the first INVITE; zero without one. */
  function FirstInvite(log: Log): u32 {
    match log
    case Nothing => 0
    case Then(before, x) => if x.kind == Invite && Invites(before) == 0 then x.cseq else FirstInvite(before)
  }

  ghost predicate NoReinvite(es: seq<Event>) {
    forall i :: 0 <= i < |es| && es[i].Request? ==> !es[i].action.PutInvite?
  }

  /** The first INVITE has the number first. There are at most two, the second two numbers
      up; while the first waits for its answer, the dialog's number is its own. */
  ghost predicate InvitesInOrder(s: State, first: u32) {
    && Invites(s.sent) <= 2
    && (Invites(s.sent) > 0 ==> FirstInvite(s.sent) == first)
    && (Invites(s.sent) == 2 ==> LastInvite(s.sent) == Plus32(first, 2))
    && (s.tracked && s.nextstate == WaitForInviteProgress ==> Invites(s.sent) == 1 && s.cseq == first)
  }

  lemma QuietKeepsOrder(s: State, t: State, first: u32)
    requires InvitesInOrder(s, first) && s.tracked && (Calm(s, t) || Cancelled(s, t) || Acked(s, t))
    ensures InvitesInOrder(t, first)
  {
  }

  lemma RetryKeepsOrder(s: State, t: State, first: u32)
    requires InvitesInOrder(s, first) && s.tracked && s.nextstate == WaitForInviteProgress && Retried(s, t)
    ensures InvitesInOrder(t, first)
  {
    assert Invites(t.sent.before) == 1 && FirstInvite(t.sent.before) == first;
  }

  lemma StepKeepsOrder(s: State, e: Event, first: u32)
    requires InvitesInOrder(s, first) && (e.Request? ==> !e.action.PutInvite?)
    ensures InvitesInOrder(Step(s, e), first)
  {
    hide Step, InvitesInOrder, Calm, Cancelled, Acked, Retried;
    if s.tracked {
      StepHasKind(s, e);
      if e.Packet? && Challenges(s, e.pk) { RetryKeepsOrder(s, Step(s, e), first); }
      else { QuietKeepsOrder(s, Step(s, e), first); }
    } else {
      StepUntracked(s, e);
    }
  }

  lemma StartInOrder(o: Origin)
    requires o.ByPost?
    ensures InvitesInOrder(Start(o), Next32(o.cseq))
  {
    if o.reachable { Begun(o); }
  }

  lemma {:induction false} InvitesAlwaysInOrder(o: Origin, es: seq<Event>)
    requires o.ByPost? && NoReinvite(es)
    ensures InvitesInOrder(After(o, es), Next32(o.cseq))
  {
    hide InvitesInOrder, Step, Start;
    if es == [] {
      StartInOrder(o);
    } else {
      InvitesAlwaysInOrder(o, es[..|es| - 1]);
      StepKeepsOrder(After(o, es[..|es| - 1]), es[|es| - 1], Next32(o.cseq));
    }
  }

  /** Main result: whatever packets, timers, replies and requests come, at most two INVITEs
      are sent, and the second carries the first's CSeq plus two: a strictly higher one,
      since the initial number is drawn below 2^31 (section 22.2 of RFC 3261). */
  lemma AtMostTwoInvites(o: Origin, es: seq<Event>)
    requires o.ByPost? && NoReinvite(es)
    ensures var log := After(o, es).sent;
      && Invites(log) <= 2
      && (Invites(log) == 2 ==> LastInvite(log) == Plus32(FirstInvite(log), 2))
      && (Invites(log) == 2 && o.cseq < 0x8000_0000 ==> LastInvite(log) > FirstInvite(log))
  {
    InvitesAlwaysInOrder(o, es);
  }
}
