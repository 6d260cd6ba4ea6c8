// What holds over every run of a dialog, for all orders of packets, timer firings,
// control requests and control-server replies.

module SipDialogRuns {
  import opened Common
  import opened SipDialog
  import opened SipDialogSteps

  ghost function After(o: Origin, es: seq<Event>): State { Run(Start(o), es) }

  /** The state before a dialog's first packet or INVITE, and the step that makes it. */
  function Origins(o: Origin): State {
    match o
    case ByInvite(cseq, _, _) => NewDialog(cseq)
    case ByPost(cseq, control, _) => NewDialog(cseq).(originator := true, control := control)
  }

  function FirstEvent(o: Origin): Event {
    match o
    case ByInvite(_, pk, known) => Event.Packet(pk, known)
    case ByPost(_, _, reachable) => Request(PutInvite(reachable))
  }

  lemma StartIsAStep(o: Origin)
    ensures Start(o) == Step(Origins(o), FirstEvent(o)) && Moves(Origins(o), Start(o), FirstEvent(o))
  {
    StepMoves(Origins(o), FirstEvent(o));
  }

  // ---- retries and the timer

  ghost predicate RetriesInRange(s: State) { 0 <= s.retries <= MAX_RETRIES }

  lemma {:induction false} RetriesStayInRange(o: Origin, es: seq<Event>)
    ensures RetriesInRange(After(o, es))
  {
    if es == [] {
      StartIsAStep(o);
    } else {
      RetriesStayInRange(o, es[..|es| - 1]);
      StepMoves(After(o, es[..|es| - 1]), es[|es| - 1]);
    }
  }

  /** How many timer firings, if nothing else happens, until the dialog is gone. */
  function FiringsLeft(s: State): int {
    if !s.tracked || s.timer.None? then 0 else FiringsFor(s.timer.value, s.retries)
  }

  function FiringsFor(h: Handler, retries: int): int {
    match h
    case OnTimeoutEndDialog => 1
    case OnTimeout486AndEndDialog => 2
    case _ => retries + 1
  }

  /** t is the state after the first of n firings. */
  ghost predicate CountedDown(n: int, t: State) {
    && RetriesInRange(t) && FiringsLeft(t) == n - 1
    && t.tracked == (n > 1) && (t.tracked ==> t.timer.Some?)
  }

  /** Each resend handler that does not give up uses one retry and arms the timer again. */
  ghost predicate Rearmed(s: State, t: State) {
    t.tracked == s.tracked && t.retries == s.retries - 1 && t.timer.Some?
    && t.timer != Some(OnTimeoutEndDialog) && t.timer != Some(OnTimeout486AndEndDialog)
  }

  lemma RearmedPlain(s: State)
    ensures Rearmed(s, WaitForTimer(CountDown(SendChallenge(s, 401)), Resend401))
    ensures Rearmed(s, WaitForTimer(CountDown(Send200(s, Again)), Resend200))
    ensures Rearmed(s, WaitForTimer(CountDown(SendError(s)), ResendError))
  {
  }

  lemma RearmedBye(s: State)
    ensures Rearmed(s, WaitForTimer(CountDown(SendBye(s)), ResendBye))
  {
    if !s.theirtag || s.ackpk.None? {} else {}
  }

  lemma RearmedCancel(s: State)
    ensures Rearmed(s, WaitForTimer(CountDown(SendCancel(s)), ResendBye))
  {
    if s.lastreceivedpk.None? {} else {}
  }

  lemma RearmedNotify(s: State)
    ensures Rearmed(s, WaitForTimer(CountDown(SendNotify(s)), ResendNotify))
  {
    if s.lastreceivedpk.None? {} else {}
  }

  lemma RearmedCounts(s: State, t: State)
    requires s.tracked && 0 < s.retries <= MAX_RETRIES && Rearmed(s, t)
    ensures CountedDown(s.retries + 1, t)
  {
  }

  lemma GaveUpCounts(s: State, known: bool)
    requires s.retries == 0
    ensures CountedDown(1, Untrack(UpdateControl(s, known))) && CountedDown(1, Untrack(s))
  {
    if s.control || known {} else if s.callhungup {} else {}
  }

  lemma EndCounts(s: State)
    requires s.tracked && RetriesInRange(s)
    ensures CountedDown(1, Untrack(s)) && CountedDown(2, TemporaryUnavailable(s))
  {
  }

  lemma HandleCountsDown(s: State, h: Handler, known: bool)
    requires s.tracked && RetriesInRange(s)
    ensures CountedDown(FiringsFor(h, s.retries), Handle(s, h, known))
  {
    if h == OnTimeoutEndDialog || h == OnTimeout486AndEndDialog {
      EndCounts(s);
    } else if s.retries == 0 {
      GaveUpCounts(s, known);
    } else {
      match h
      case Resend200 => RearmedPlain(s); RearmedCounts(s, WaitForTimer(CountDown(Send200(s, Again)), Resend200));
      case Resend401 => RearmedPlain(s); RearmedCounts(s, WaitForTimer(CountDown(SendChallenge(s, 401)), Resend401));
      case ResendError => RearmedPlain(s); RearmedCounts(s, WaitForTimer(CountDown(SendError(s)), ResendError));
      case ResendBye => RearmedBye(s); RearmedCounts(s, WaitForTimer(CountDown(SendBye(s)), ResendBye));
      case ResendCancel => RearmedCancel(s); RearmedCounts(s, WaitForTimer(CountDown(SendCancel(s)), ResendBye));
      case ResendNotify => RearmedNotify(s); RearmedCounts(s, WaitForTimer(CountDown(SendNotify(s)), ResendNotify));
    }
  }

  lemma FireCountsDown(s: State, known: bool)
    requires s.tracked && s.timer.Some? && RetriesInRange(s)
    ensures CountedDown(FiringsLeft(s), Fire(s, known))
  {
    HandleCountsDown(CancelTimer(s), s.timer.value, known);
  }

  /** Only the timer fires; knowns says what the directory answers each time. */
  function Silence(s: State, knowns: seq<bool>): State {
    if knowns == [] then s else Step(Silence(s, knowns[..|knowns| - 1]), Timer(knowns[|knowns| - 1]))
  }

  lemma {:induction false} SilenceCountsDown(s: State, knowns: seq<bool>)
    requires s.tracked && s.timer.Some? && RetriesInRange(s)
    ensures var t := Silence(s, knowns);
      && RetriesInRange(t)
      && (t.tracked <==> |knowns| < FiringsLeft(s))
      && (t.tracked ==> t.timer.Some? && FiringsLeft(t) == FiringsLeft(s) - |knowns|)
  {
    if knowns != [] {
      var before := knowns[..|knowns| - 1];
      SilenceCountsDown(s, before);
      if Silence(s, before).tracked {
        FireCountsDown(Silence(s, before), knowns[|knowns| - 1]);
      }
    }
  }

  /** Silence terminates a dialog: from any reachable state with the timer armed, the
      dialog leaves the container at the FiringsLeft-th firing and not before, which is
      at most max(2, retries + 1) and never more than four. */
  lemma SilenceTerminates(o: Origin, es: seq<Event>, knowns: seq<bool>)
    requires After(o, es).tracked && After(o, es).timer.Some?
    ensures var s := After(o, es);
      && 1 <= FiringsLeft(s) <= (if s.retries + 1 > 2 then s.retries + 1 else 2) <= MAX_RETRIES + 1
      && (Silence(s, knowns).tracked <==> |knowns| < FiringsLeft(s))
  {
    RetriesStayInRange(o, es);
    SilenceCountsDown(After(o, es), knowns);
  }

  lemma {:induction false} UntimedStays(s: State, knowns: seq<bool>)
    requires s.timer.None?
    ensures Silence(s, knowns) == s
  {
    if knowns != [] { UntimedStays(s, knowns[..|knowns| - 1]); }
  }

  /** The other half: silence ends a dialog, at some firing, exactly when the timer is armed. */
  lemma SilenceEndsIff(o: Origin, es: seq<Event>)
    requires After(o, es).tracked
    ensures (exists knowns :: !Silence(After(o, es), knowns).tracked) <==> After(o, es).timer.Some?
  {
    var s := After(o, es);
    if s.timer.Some? {
      RetriesStayInRange(o, es);
      var knowns := seq(FiringsLeft(s), _ => false);
      SilenceTerminates(o, es, knowns);
      assert !Silence(s, knowns).tracked;
    } else {
      forall knowns ensures Silence(s, knowns) == s { UntimedStays(s, knowns); }
    }
  }

  /** It is not armed after the ACK of a challenge: a client that then goes away leaves its
      dialog there for good. */
  lemma AcknowledgedChallengeStays(o: Origin, es: seq<Event>, pk: Packet, known: bool, knowns: seq<bool>)
    requires After(o, es).tracked && After(o, es).nextstate == WaitForAckThenInviteAuth && pk.verb == ACK
    ensures var t := Step(After(o, es), Event.Packet(pk, known)); t.tracked && Silence(t, knowns) == t
  {
    var s := After(o, es);
    var t := DoWaitForAckThenInviteAuth(Heard(s, pk), pk);
    assert t.tracked && t.timer.None?;
    assert Step(s, Event.Packet(pk, known)) == t;
    UntimedStays(t, knowns);
  }

  /** Nor while an INVITE sent out has had no answer. */
  lemma UnansweredInviteStays(o: Origin, knowns: seq<bool>)
    requires o.ByPost? && o.reachable
    ensures Start(o).tracked && Silence(Start(o), knowns) == Start(o)
  {
    UntimedStays(Start(o), knowns);
  }

  // ---- lifecycle

  function Count(log: Log, kind: Kind): nat {
    match log
    case Nothing => 0
    case Then(before, x) => Count(before, kind) + (if x.kind == kind then 1 else 0)
  }

  /** At most one 180, and only while ringing; at most one answer, and only once answered. */
  ghost predicate SentOnce(s: State) {
    && Count(s.sent, Ringing) <= (if s.callringing then 1 else 0)
    && Count(s.sent, Ok(ForAnswer)) <= (if s.callanswered then 1 else 0)
  }

  lemma StepCounts(s: State, t: State, e: Event)
    requires SendsKept(s, t)
    ensures Count(t.sent, Ringing) == Count(s.sent, Ringing)
      || (Count(t.sent, Ringing) == Count(s.sent, Ringing) + 1
          && !s.callringing && !s.callanswered && !s.callhungup && t.callringing)
    ensures Count(t.sent, Ok(ForAnswer)) == Count(s.sent, Ok(ForAnswer))
      || (Count(t.sent, Ok(ForAnswer)) == Count(s.sent, Ok(ForAnswer)) + 1 && !s.callanswered && t.callanswered)
  {
    if t.sent != s.sent {
      if t.sent.before != s.sent {
        assert Count(t.sent, Ringing) == Count(t.sent.before, Ringing) == Count(s.sent, Ringing);
        assert Count(t.sent, Ok(ForAnswer)) == Count(t.sent.before, Ok(ForAnswer)) == Count(s.sent, Ok(ForAnswer));
      }
    }
  }

  lemma {:induction false} SentOnceAlways(o: Origin, es: seq<Event>)
    ensures SentOnce(After(o, es))
  {
    if es == [] {
      StartIsAStep(o);
      StepCounts(Origins(o), Start(o), FirstEvent(o));
    } else {
      var s, e := After(o, es[..|es| - 1]), es[|es| - 1];
      SentOnceAlways(o, es[..|es| - 1]);
      StepMoves(s, e);
      StepCounts(s, Step(s, e), e);
    }
  }

  lemma {:induction false} FlagsKeptOver(s: State, es: seq<Event>)
    ensures FlagsKept(s, Run(s, es))
    ensures s.callringing || s.callanswered || s.callhungup ==> Count(Run(s, es).sent, Ringing) == Count(s.sent, Ringing)
    ensures s.callanswered ==> Count(Run(s, es).sent, Ok(ForAnswer)) == Count(s.sent, Ok(ForAnswer))
  {
    if es != [] {
      var r, e := Run(s, es[..|es| - 1]), es[|es| - 1];
      FlagsKeptOver(s, es[..|es| - 1]);
      StepMoves(r, e);
      StepCounts(r, Step(r, e), e);
    }
  }

  lemma {:induction false} RunAppend(s: State, es: seq<Event>, fs: seq<Event>)
    ensures Run(s, es + fs) == Run(Run(s, es), fs)
  {
    if fs == [] {
      assert es + fs == es;
    } else {
      var n := |fs| - 1;
      assert (es + fs)[..|es + fs| - 1] == es + fs[..n];
      RunAppend(s, es, fs[..n]);
    }
  }

  /** Lifecycle, over every run and every continuation of it: the flags never go back,
      a dialog that has left the container does not return, there is at most one 180 and
      none once ringing, answered or hung up, and at most one answering 200. */
  lemma LifecycleIsMonotone(o: Origin, es: seq<Event>, fs: seq<Event>)
    ensures FlagsKept(After(o, es), After(o, es + fs))
    ensures Count(After(o, es).sent, Ringing) <= 1 && Count(After(o, es).sent, Ok(ForAnswer)) <= 1
    ensures After(o, es).callringing || After(o, es).callanswered || After(o, es).callhungup ==>
      Count(After(o, es + fs).sent, Ringing) == Count(After(o, es).sent, Ringing)
    ensures After(o, es).callanswered ==>
      Count(After(o, es + fs).sent, Ok(ForAnswer)) == Count(After(o, es).sent, Ok(ForAnswer))
  {
    SentOnceAlways(o, es);
    RunAppend(Start(o), es, fs);
    FlagsKeptOver(After(o, es), fs);
  }

  /** A BYE or CANCEL hangs the call up, whatever the state, so no 180 follows it. */
  lemma ByeHangsUp(s: State, pk: Packet, known: bool)
    requires s.tracked && (pk.verb == BYE || pk.verb == CANCEL)
    ensures Step(s, Event.Packet(pk, known)).callhungup
  {
    var r := Send200(Heard(HungUp(Heard(s, pk)), pk), ForBye);
    assert r.callhungup;
    if r.control || known {} else {}
  }

  // ---- authentication

  predicate SentChallenge(log: Log, number: nat) {
    match log
    case Nothing => false
    case Then(before, x) => (x.kind.Challenge? && x.kind.number == number) || SentChallenge(before, number)
  }

  /** Challenge numbers are fresh, and the one to be answered has been sent. */
  ghost predicate ChallengesSent(s: State) {
    s.authrequest.Some? ==> s.authrequest.value < s.challenges && SentChallenge(s.sent, s.authrequest.value)
  }

  /** The packet kept as authenticated is an INVITE that answers a challenge sent. */
  ghost predicate TrulyAuthenticated(s: State) {
    s.lastauthenticatedpk.Some? ==>
      s.lastauthenticatedpk.value.verb == INVITE
      && exists n :: n in s.lastauthenticatedpk.value.answers && SentChallenge(s.sent, n)
  }

  lemma ChallengesStay(s: State, t: State, n: nat)
    requires SendsKept(s, t) && SentChallenge(s.sent, n)
    ensures SentChallenge(t.sent, n)
  {
    if t.sent != s.sent && t.sent.before != s.sent {
      assert SentChallenge(t.sent.before, n);
    }
  }

  lemma StepAuthenticates(s: State, t: State, e: Event)
    requires Moves(s, t, e) && ChallengesSent(s) && TrulyAuthenticated(s)
    ensures ChallengesSent(t) && TrulyAuthenticated(t)
  {
    if t.authrequest == s.authrequest && s.authrequest.Some? {
      ChallengesStay(s, t, s.authrequest.value);
    }
    if t.lastauthenticatedpk != s.lastauthenticatedpk {
      ChallengesStay(s, t, s.authrequest.value);
    } else if s.lastauthenticatedpk.Some? {
      var n :| n in s.lastauthenticatedpk.value.answers && SentChallenge(s.sent, n);
      ChallengesStay(s, t, n);
    }
  }

  lemma {:induction false} AuthenticationIsTrue(o: Origin, es: seq<Event>)
    ensures ChallengesSent(After(o, es)) && TrulyAuthenticated(After(o, es))
  {
    if es == [] {
      StartIsAStep(o);
      StepAuthenticates(Origins(o), Start(o), FirstEvent(o));
    } else {
      var s, e := After(o, es[..|es| - 1]), es[|es| - 1];
      AuthenticationIsTrue(o, es[..|es| - 1]);
      StepMoves(s, e);
      StepAuthenticates(s, Step(s, e), e);
    }
  }

  /** Everything sent between the two logs went to d. */
  predicate AllNewTo(start: Log, log: Log, d: Destination) {
    log == start || (log.Then? && log.last.dest == d && AllNewTo(start, log.before, d))
  }

  lemma StepSendsTo(s: State, t: State)
    requires SendsKept(s, t)
    ensures AllNewTo(s.sent, t.sent, Destined(t))
  {
    if t.sent != s.sent && t.sent.before != s.sent {
      assert AllNewTo(s.sent, t.sent.before, Destined(t));
    }
  }

  /** Over all interleavings: the packet replied to is replaced only by a newer INVITE
      that answers the waiting challenge, is never cleared, and everything a step sends
      goes to its source if there is one. */
  lemma RepliesGoToAuthenticatedSource(o: Origin, es: seq<Event>, e: Event)
    ensures var s, t := After(o, es), Step(After(o, es), e);
      && (s.lastauthenticatedpk.Some? ==> t.lastauthenticatedpk.Some?)
      && (t.lastauthenticatedpk != s.lastauthenticatedpk ==>
            e.Packet? && e.pk.verb == INVITE && Answers(s, e.pk) && t.lastauthenticatedpk == Some(e.pk))
      && (t.lastauthenticatedpk.Some? ==> AllNewTo(s.sent, t.sent, SourceOf(t.lastauthenticatedpk.value.src)))
      && TrulyAuthenticated(t)
  {
    var s := After(o, es);
    StepMoves(s, e);
    StepSendsTo(s, Step(s, e));
    AuthenticationIsTrue(o, es);
    StepAuthenticates(s, Step(s, e), e);
  }

  // ---- the invariant of a dialog

  ghost predicate Sound(s: State) {
    RetriesInRange(s) && SentOnce(s) && ChallengesSent(s) && TrulyAuthenticated(s)
  }

  lemma StepKeepsSound(s: State, e: Event)
    requires Sound(s)
    ensures Sound(Step(s, e)) && FlagsKept(s, Step(s, e))
  {
    hide Step, ChallengesSent, TrulyAuthenticated;
    StepMoves(s, e);
    StepCounts(s, Step(s, e), e);
    StepAuthenticates(s, Step(s, e), e);
  }

  // ---- null pointers

  ghost predicate NoRequests(es: seq<Event>) { forall i :: 0 <= i < |es| ==> !es[i].Request? }

  /** Until a packet is there to reply to, no timer is armed and nothing is asked. */
  ghost predicate NothingToReplyTo(s: State) {
    s.lastreceivedpk.None? ==> s.timer.None? && s.requests == 0
  }

  /** Packets, timers and replies never find lastreceivedpk null: a dialog made by an
      INVITE always has one, and one made by the control server has no timer armed and
      no request outstanding before its first packet. */
  lemma {:induction false} LastPacketIsThere(o: Origin, es: seq<Event>)
    ensures o.ByInvite? ==> After(o, es).lastreceivedpk.Some?
    ensures NoRequests(es) ==> NothingToReplyTo(After(o, es))
  {
    if es == [] {
      match o
      case ByInvite(cseq, pk, known) => ReceiveMoves(NewDialog(cseq), pk, known);
      case ByPost(_, _, _) =>
    } else {
      var s, e := After(o, es[..|es| - 1]), es[|es| - 1];
      LastPacketIsThere(o, es[..|es| - 1]);
      StepMoves(s, e);
      if s.tracked && e.Packet? {
        ReceiveMoves(s, e.pk, e.known);
      }
    }
  }
}
