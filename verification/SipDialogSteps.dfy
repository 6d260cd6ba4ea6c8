// What one step of a dialog can change, proved handler by handler.

module SipDialogSteps {
  import opened Common
  import opened SipDialog

  /** No flag of s goes back to false in t, and a packet once received is kept. */
  ghost predicate FlagsKept(s: State, t: State) {
    && (s.callringing ==> t.callringing)
    && (s.callanswered ==> t.callanswered)
    && (s.callhungup ==> t.callhungup)
    && (s.authenticated ==> t.authenticated)
    && (t.tracked ==> s.tracked)
    && s.originator == t.originator
    && (s.lastreceivedpk.Some? ==> t.lastreceivedpk.Some?)
  }

  ghost predicate RetriesKept(s: State, t: State) {
    t.retries == s.retries || t.retries == MAX_RETRIES || (s.retries != 0 && t.retries == s.retries - 1)
  }

  /** x may be sent on the way from s to t: where sendpk would send in t, a 180 only
      if the call was neither ringing, answered nor hung up, and an answer only once. */
  ghost predicate MaySend(s: State, t: State, x: Sent) {
    && x.dest == Destined(t)
    && (x.kind == Ringing ==> !s.callringing && !s.callanswered && !s.callhungup && t.callringing)
    && (x.kind == Ok(ForAnswer) ==> !s.callanswered && t.callanswered)
  }

  /** A step sends nothing, one packet, or an ACK and then an INVITE. */
  ghost predicate SendsKept(s: State, t: State) {
    match t.sent
    case Nothing => s.sent == Nothing
    case Then(before, x) =>
      || t.sent == s.sent
      || (before == s.sent && MaySend(s, t, x))
      || (x.kind == Invite && x.dest == Destined(t) && before.Then? && before.before == s.sent
          && before.last.kind == Ack && before.last.dest == Destined(t))
  }

  /** The challenge to be answered is the old one or the one just sent, and whatever is
      kept as the last authenticated packet answered the one that was waiting. */
  ghost predicate AuthKept(s: State, t: State, e: Event) {
    && ((t.authrequest == s.authrequest && t.challenges == s.challenges)
        || (t.authrequest == Some(s.challenges) && t.challenges == s.challenges + 1
            && t.sent.Then? && t.sent.last.kind.Challenge? && t.sent.last.kind.number == s.challenges
            && t.lastauthenticatedpk == s.lastauthenticatedpk))
    && (t.lastauthenticatedpk == s.lastauthenticatedpk
        || (e.Packet? && e.pk.verb == INVITE && Answers(s, e.pk) && t.lastauthenticatedpk == Some(e.pk)))
    && (s.lastauthenticatedpk.Some? ==> t.lastauthenticatedpk.Some?)
  }

  ghost predicate Moves(s: State, t: State, e: Event) {
    FlagsKept(s, t) && RetriesKept(s, t) && SendsKept(s, t) && AuthKept(s, t, e)
  }

  /** t differs from s in nothing that has been sent or authenticated, and in no flag
      except that some may have been set. */
  ghost predicate Unsent(s: State, t: State) {
    && FlagsKept(s, t) && t.retries == s.retries && t.sent == s.sent
    && t.authrequest == s.authrequest && t.challenges == s.challenges
    && t.lastauthenticatedpk == s.lastauthenticatedpk
  }

  lemma UnsentMoves(s: State, t: State, e: Event)
    requires Unsent(s, t)
    ensures Moves(s, t, e)
  {
    if t.sent.Then? {}
  }

  /** One packet sent, nothing authenticated. */
  lemma OneSentMoves(s: State, t: State, x: Sent, e: Event)
    requires FlagsKept(s, t) && RetriesKept(s, t) && t.sent == Then(s.sent, x) && MaySend(s, t, x)
    requires t.authrequest == s.authrequest && t.challenges == s.challenges
    requires t.lastauthenticatedpk == s.lastauthenticatedpk
    ensures Moves(s, t, e)
  {
  }

  // ---- timer handlers

  lemma Again401Moves(s: State, e: Event)
    requires s.retries != 0
    ensures Moves(s, WaitForTimer(CountDown(SendChallenge(s, 401)), Resend401), e)
  {
  }

  lemma Again200Moves(s: State, e: Event)
    requires s.retries != 0
    ensures Moves(s, WaitForTimer(CountDown(Send200(s, Again)), Resend200), e)
  {
    OneSentMoves(s, WaitForTimer(CountDown(Send200(s, Again)), Resend200), Sent(Ok(Again), ReceivedCseq(s), Destined(s)), e);
  }

  lemma AgainErrorMoves(s: State, e: Event)
    requires s.retries != 0
    ensures Moves(s, WaitForTimer(CountDown(SendError(s)), ResendError), e)
  {
    OneSentMoves(s, WaitForTimer(CountDown(SendError(s)), ResendError), Sent(Error, ReceivedCseq(s), Destined(s)), e);
  }

  lemma AgainByeMoves(s: State, e: Event)
    requires s.retries != 0
    ensures Moves(s, WaitForTimer(CountDown(SendBye(s)), ResendBye), e)
  {
    if !s.theirtag || s.ackpk.None? {} else {}
  }

  lemma AgainCancelMoves(s: State, e: Event)
    requires s.retries != 0
    ensures Moves(s, WaitForTimer(CountDown(SendCancel(s)), ResendBye), e)
  {
    if s.lastreceivedpk.None? {} else {}
  }

  lemma AgainNotifyMoves(s: State, e: Event)
    requires s.retries != 0
    ensures Moves(s, WaitForTimer(CountDown(SendNotify(s)), ResendNotify), e)
  {
    if s.lastreceivedpk.None? {} else {}
  }

  lemma GiveUpMoves(s: State, known: bool, e: Event)
    ensures Moves(s, Untrack(UpdateControl(s, known)), e)
  {
    if s.control || known {} else {}
  }

  lemma UnavailableMoves(s: State, e: Event)
    ensures Moves(s, TemporaryUnavailable(s), e)
  {
  }

  lemma EndMoves(s: State, e: Event)
    ensures Moves(s, Untrack(s), e)
  {
    UnsentMoves(s, Untrack(s), e);
  }

  lemma HandleAgainMoves(s: State, h: Handler, known: bool, e: Event)
    requires s.retries != 0 && h != OnTimeoutEndDialog && h != OnTimeout486AndEndDialog
    ensures Moves(s, Handle(s, h, known), e)
  {
    match h
    case Resend200 => Again200Moves(s, e);
    case Resend401 => Again401Moves(s, e);
    case ResendError => AgainErrorMoves(s, e);
    case ResendBye => AgainByeMoves(s, e);
    case ResendCancel => AgainCancelMoves(s, e);
    case ResendNotify => AgainNotifyMoves(s, e);
  }

  lemma HandleMoves(s: State, h: Handler, known: bool, e: Event)
    ensures Moves(s, Handle(s, h, known), e)
  {
    EndMoves(s, e);
    if h == OnTimeoutEndDialog {
    } else if h == OnTimeout486AndEndDialog {
      UnavailableMoves(s, e);
    } else if s.retries == 0 {
      GiveUpMoves(s, known, e);
    } else {
      HandleAgainMoves(s, h, known, e);
    }
  }

  lemma FireMoves(s: State, known: bool, e: Event)
    ensures Moves(s, Fire(s, known), e)
  {
    if s.timer.Some? {
      HandleMoves(CancelTimer(s), s.timer.value, known, e);
      SameSource(s, CancelTimer(s), Fire(s, known), e);
    }
  }

  /** Moves looks at neither timer nor next state of its first state, nor which packet
      was received last. */
  lemma SameSource(s: State, r: State, t: State, e: Event)
    requires Moves(r, t, e)
    requires r.callringing == s.callringing && r.callanswered == s.callanswered && r.callhungup == s.callhungup
    requires r.authenticated == s.authenticated && r.tracked == s.tracked && r.originator == s.originator
    requires r.retries == s.retries && r.sent == s.sent && r.authrequest == s.authrequest
    requires r.challenges == s.challenges && r.lastauthenticatedpk == s.lastauthenticatedpk
    requires s.lastreceivedpk.Some? ==> r.lastreceivedpk.Some?
    ensures Moves(s, t, e)
  {
  }

  /** Nor does it look at timer and next state of its second. */
  lemma SameTarget(s: State, t: State, h: Handler, e: Event)
    requires Moves(s, t, e)
    ensures Moves(s, WaitForTimer(t, h), e)
  {
    assert WaitForTimer(t, h).sent == t.sent && Destined(WaitForTimer(t, h)) == Destined(t);
  }

  // ---- state functions

  lemma ChallengeMoves(s: State, next: NextState, e: Event)
    ensures Moves(s, WaitForTimer(GoTo(SendChallenge(SetRetries(s, MAX_RETRIES), 401), next), Resend401), e)
  {
  }

  lemma RefuseMoves(s: State, e: Event)
    ensures Moves(s, Refuse(s), e)
  {
  }

  lemma AcceptMoves(s: State, pk: Packet, known: bool)
    requires pk.verb == INVITE && Answers(s, pk)
    ensures Moves(s, DoInvite(Accept(s, pk), pk, known), Event.Packet(pk, known))
  {
    var r := KeepInvite(Accept(s, pk), pk);
    var u := UpdateControl(r, known);
    AcceptKeeps(s, r, u, pk, known);
    if pk.totag {
      AcceptedMoves(s, u, pk, known);
    } else {
      var t := SendTrying(u);
      assert t.sent == Then(u.sent, Sent(Trying, ReceivedCseq(u), Destined(u)));
      hide UpdateControl, SendTrying;
      AcceptedMoves(s, t, pk, known);
    }
  }

  lemma AcceptKeeps(s: State, r: State, u: State, pk: Packet, known: bool)
    requires r == KeepInvite(Accept(s, pk), pk) && u == UpdateControl(r, known)
    ensures FlagsKept(s, u) && u.retries == s.retries && u.sent == s.sent && u.lastauthenticatedpk == Some(pk)
    ensures u.authrequest == s.authrequest && u.challenges == s.challenges
    ensures u.callringing == s.callringing && u.callanswered == s.callanswered
  {
  }

  /** An INVITE accepted, and at most a 100 sent. */
  lemma AcceptedMoves(s: State, t: State, pk: Packet, known: bool)
    requires pk.verb == INVITE && Answers(s, pk)
    requires FlagsKept(s, t) && t.retries == s.retries && t.lastauthenticatedpk == Some(pk)
    requires t.authrequest == s.authrequest && t.challenges == s.challenges
    requires t.callringing == s.callringing && t.callanswered == s.callanswered
    requires t.sent == s.sent || (t.sent.Then? && t.sent.before == s.sent && t.sent.last.kind == Trying
                                  && t.sent.last.dest == Destined(t))
    ensures Moves(s, t, Event.Packet(pk, known))
  {
  }

  lemma InviteAuthMoves(s: State, pk: Packet, known: bool)
    ensures Moves(s, DoInviteAuth(s, pk, known), Event.Packet(pk, known))
  {
    if pk.verb != INVITE {
    } else if !Answers(s, pk) {
      RefuseMoves(s, Event.Packet(pk, known));
    } else {
      AcceptMoves(s, pk, known);
    }
  }

  lemma InviteStartMoves(s: State, pk: Packet, known: bool)
    ensures Moves(Heard(s, pk), DoInviteStart(s, pk, known), Event.Packet(pk, known))
  {
    if pk.username {
      InviteAuthMoves(Heard(s, pk), pk, known);
    } else {
      ChallengeMoves(Heard(s, pk), WaitForAckThenInviteAuth, Event.Packet(pk, known));
    }
  }

  lemma UpdateMoves(s: State, t: State, known: bool, e: Event)
    requires Moves(s, t, e)
    ensures Moves(s, UpdateControl(t, known), e)
  {
    var u := UpdateControl(t, known);
    if t.control || known {} else if t.callhungup {} else {}
    assert u.sent == t.sent && Destined(u) == Destined(t);
  }

  lemma UntrackMoves(s: State, t: State, e: Event)
    requires Moves(s, t, e)
    ensures Moves(s, Untrack(t), e)
  {
    assert Untrack(t).sent == t.sent && Destined(Untrack(t)) == Destined(t);
  }

  lemma AckThenAuthMoves(s: State, pk: Packet, e: Event)
    ensures Moves(s, DoWaitForAckThenInviteAuth(s, pk), e)
  {
    if pk.verb == ACK {
      UnsentMoves(s, GoTo(CancelTimer(KeepAck(s, pk.cseq)), InviteAuth), e);
    } else {
      UnsentMoves(s, s, e);
    }
  }

  lemma AckMoves(s: State, pk: Packet, known: bool, e: Event)
    ensures Moves(s, DoWaitForAck(s, pk, known), e)
  {
    if pk.verb == ACK {
      var t := CancelTimer(KeepAck(LearnTag(GoTo(s, WaitForNextInstruction), pk.fromtag), pk.cseq));
      UnsentMoves(s, t, e);
      UpdateMoves(s, t, known, e);
    } else {
      UnsentMoves(s, s, e);
    }
  }

  lemma AckAndDieMoves(s: State, pk: Packet, known: bool, e: Event)
    ensures Moves(s, DoWaitForAckAndDie(s, pk, known), e)
  {
    if pk.verb == ACK {
      UnsentMoves(s, KeepAck(s, pk.cseq), e);
      UpdateMoves(s, KeepAck(s, pk.cseq), known, e);
      UntrackMoves(s, UpdateControl(KeepAck(s, pk.cseq), known), e);
    } else {
      UnsentMoves(s, s, e);
    }
  }

  lemma WaitFor200Moves(s: State, pk: Packet, e: Event)
    ensures Moves(s, DoWaitFor200(s, pk), e)
  {
    if Finished(pk) {}
    UnsentMoves(s, DoWaitFor200(s, pk), e);
  }

  lemma WaitFor200AndDieMoves(s: State, pk: Packet, known: bool, e: Event)
    ensures Moves(s, DoWaitFor200AndDie(s, pk, known), e)
  {
    UnsentMoves(s, s, e);
    if Finished(pk) {
      UpdateMoves(s, s, known, e);
      UntrackMoves(s, UpdateControl(s, known), e);
    }
  }

  lemma AckAfter200Moves(s: State, pk: Packet, known: bool, e: Event)
    ensures Moves(s, DoWaitFor200ThenAckAndDie(s, pk, known), e)
  {
    UnsentMoves(s, s, e);
    if Finished(pk) {
      SendAckMoves(s, s, e);
      UpdateMoves(s, SendAck(s), known, e);
      UntrackMoves(s, UpdateControl(SendAck(s), known), e);
    }
  }

  /** An ACK after any change of flags that sends nothing. */
  lemma SendAckMoves(s: State, t: State, e: Event)
    requires Unsent(s, t)
    ensures Moves(s, SendAck(t), e)
  {
    var u := SendAck(t);
    assert u.sent == Then(s.sent, Sent(Ack, t.cseq, Destined(t)));
    assert Destined(u) == Destined(t) && FlagsKept(s, u);
    assert u.authrequest == s.authrequest && u.challenges == s.challenges && u.lastauthenticatedpk == s.lastauthenticatedpk;
  }

  lemma ReferAcceptedMoves(s: State, pk: Packet, known: bool, e: Event)
    ensures Moves(s, Respond(SetRetries(UpdateControl(Authenticated(s), known), MAX_RETRIES), Accepted), e)
  {
    hide ReceivedCseq;
    var u := SetRetries(UpdateControl(Authenticated(s), known), MAX_RETRIES);
    if s.control || known {} else if s.callhungup {} else {}
    assert u.sent == s.sent && u.lastauthenticatedpk == s.lastauthenticatedpk && u.retries == MAX_RETRIES;
    assert u.authrequest == s.authrequest && u.challenges == s.challenges && FlagsKept(s, u);
    OneSentMoves(s, Respond(u, Accepted), Sent(Accepted, ReceivedCseq(u), Destined(u)), e);
  }

  lemma ReferMoves(s: State, pk: Packet, known: bool, e: Event)
    ensures Moves(s, HandleRefer(s, pk, known), e)
  {
    if !pk.username {
      ChallengeMoves(s, WaitForAck, e);
    } else if !Answers(s, pk) {
      RefuseMoves(s, e);
    } else {
      ReferAcceptedMoves(s, pk, known, e);
    }
  }

  lemma TryingMoves(s: State, e: Event)
    ensures Moves(s, SendTrying(s), e)
  {
  }

  lemma NextInstructionMoves(s: State, pk: Packet, known: bool)
    requires s.lastreceivedpk == Some(pk)
    ensures Moves(s, DoWaitForNextInstruction(s, pk, known), Event.Packet(pk, known))
  {
    var e, h := Event.Packet(pk, known), Heard(s, pk);
    assert h == s;
    if pk.verb == INVITE {
      if s.callanswered && !s.callhungup {
        InviteStartMoves(s, pk, known);
      } else {
        TryingMoves(s, e);
      }
    } else if pk.verb == REFER {
      ReferMoves(s, pk, known, e);
    } else {
    }
    SameTarget(s, NextInstruction(h, pk, known), OnTimeoutEndDialog, e);
  }

  lemma RingMoves(s: State, known: bool, e: Event)
    ensures Moves(s, UpdateControl(RingingNow(s), known), e)
  {
    UnsentMoves(s, RingingNow(s), e);
    UpdateMoves(s, RingingNow(s), known, e);
  }

  lemma FailedMoves(s: State, known: bool, e: Event)
    ensures Moves(s, UpdateControl(HungUp(s), known), e)
  {
    UnsentMoves(s, HungUp(s), e);
    UpdateMoves(s, HungUp(s), known, e);
  }

  lemma AckedFailureMoves(s: State, known: bool, e: Event)
    ensures Moves(s, UpdateControl(HungUp(SendAck(s)), known), e)
  {
    SendAckMoves(s, s, e);
    var t := HungUp(SendAck(s));
    assert t.sent == SendAck(s).sent && Destined(t) == Destined(SendAck(s));
    assert Moves(s, t, e);
    UpdateMoves(s, t, known, e);
  }

  lemma AnsweredMoves(s: State, tag: bool, known: bool, e: Event)
    ensures Moves(s, UpdateControl(SendAck(LearnTag(Answered(s), tag)), known), e)
  {
    var t := LearnTag(Answered(s), tag);
    SendAckMoves(s, t, e);
    UpdateMoves(s, SendAck(t), known, e);
  }

  lemma AnsweredAtOnceMoves(s: State, tag: bool, known: bool, e: Event)
    ensures Moves(s, UpdateControl(SendAck(GoTo(LearnTag(Authenticated(Answered(s)), tag), WaitForNextInstruction)), known), e)
  {
    var t := GoTo(LearnTag(Authenticated(Answered(s)), tag), WaitForNextInstruction);
    SendAckMoves(s, t, e);
    UpdateMoves(s, SendAck(t), known, e);
  }

  lemma ResendInviteMoves(s: State, e: Event)
    requires s.lastreceivedpk.Some?
    ensures Moves(s, SendInvite(SendAck(s), true), e)
  {
    var a := SendAck(s);
    var t := SendInvite(a, true);
    assert a.sent == Then(s.sent, Sent(Ack, s.cseq, Destined(s)));
    assert t.sent == Then(a.sent, Sent(Invite, Next32(a.cseq), Destined(a)));
  }

  lemma ProgressMoves(s: State, pk: Packet, known: bool, e: Event)
    requires s.lastreceivedpk.Some?
    ensures Moves(s, DoWaitForInviteProgress(s, pk, known), e)
  {
    if Status(pk) == 180 {
      RingMoves(s, known, e);
    } else if Status(pk) == 200 {
      AnsweredAtOnceMoves(s, pk.totag, known, e);
    } else if Status(pk) == 401 || Status(pk) == 407 {
      ResendInviteMoves(s, e);
    } else if Failed(Status(pk)) {
      FailedMoves(s, known, e);
    } else {
      UnsentMoves(s, s, e);
    }
  }

  lemma ProgressAfterAuthMoves(s: State, pk: Packet, known: bool, e: Event)
    ensures Moves(s, DoWaitForInviteProgressAfterAuth(s, pk, known), e)
  {
    if Status(pk) == 180 {
      RingMoves(s, known, e);
    } else if Status(pk) == 200 {
      AnsweredMoves(s, pk.totag, known, e);
    } else if Failed(Status(pk)) {
      AckedFailureMoves(s, known, e);
    } else {
      UnsentMoves(s, s, e);
    }
  }

  lemma ByeMoves(s: State, pk: Packet, known: bool, e: Event)
    ensures Moves(s, HandleBye(s, pk, known), e)
  {
    var t := Send200(Heard(HungUp(s), pk), ForBye);
    assert t.sent == Then(s.sent, Sent(Ok(ForBye), pk.cseq, Destined(Heard(s, pk))));
    UpdateMoves(s, t, known, e);
  }

  lemma ReceiveMoves(s: State, pk: Packet, known: bool)
    ensures Moves(s, Receive(s, pk, known), Event.Packet(pk, known))
    ensures Receive(s, pk, known).lastreceivedpk.Some?
  {
    var e, h := Event.Packet(pk, known), Heard(s, pk);
    if pk.verb == BYE || pk.verb == CANCEL {
      ByeMoves(h, pk, known, e);
    } else {
      NextStateMoves(h, pk, known);
    }
    SameSource(s, h, Receive(s, pk, known), e);
  }

  lemma NextStateMoves(s: State, pk: Packet, known: bool)
    requires s.lastreceivedpk == Some(pk)
    ensures Moves(s, DoNextState(s, pk, known), Event.Packet(pk, known))
  {
    var e := Event.Packet(pk, known);
    assert Heard(s, pk) == s;
    match s.nextstate
    case InviteStart => InviteStartMoves(s, pk, known);
    case WaitForAckThenInviteAuth => AckThenAuthMoves(s, pk, e);
    case InviteAuth => InviteAuthMoves(s, pk, known);
    case WaitForNextInstruction => NextInstructionMoves(s, pk, known);
    case WaitForAck => AckMoves(s, pk, known, e);
    case WaitForAckAndDie => AckAndDieMoves(s, pk, known, e);
    case WaitFor200 => WaitFor200Moves(s, pk, e);
    case WaitFor200AndDie => WaitFor200AndDieMoves(s, pk, known, e);
    case WaitFor200ThenAckAndDie => AckAfter200Moves(s, pk, known, e);
    case WaitForInviteProgress => ProgressMoves(s, pk, known, e);
    case WaitForInviteProgressAfterAuth => ProgressAfterAuthMoves(s, pk, known, e);
  }

  // ---- control requests and replies

  lemma RingingMoves(s: State, e: Event)
    ensures Moves(s, DoRinging(s), e)
  {
    if s.callringing {} else if s.callanswered {} else if s.callhungup {} else if s.invitepk.None? {} else {
      assert SendPk(s, Ringing, s.invitepk.value).sent == Then(s.sent, Sent(Ringing, s.invitepk.value, Destined(s)));
    }
  }

  lemma AnswerMoves(s: State, e: Event)
    requires !s.callanswered
    ensures Moves(s, WaitForTimer(Answered(Send200(SetRetries(SetRetries(s, MAX_RETRIES), MAX_RETRIES), ForAnswer)),
                                  OnTimeoutEndDialog), e)
  {
    var t := Answered(Send200(SetRetries(SetRetries(s, MAX_RETRIES), MAX_RETRIES), ForAnswer));
    assert t.sent == Then(s.sent, Sent(Ok(ForAnswer), ReceivedCseq(s), Destined(s)));
    assert Moves(s, t, e);
    SameTarget(s, t, OnTimeoutEndDialog, e);
  }

  lemma OkMoves(s: State, e: Event)
    ensures Moves(s, DoOk(SetRetries(s, MAX_RETRIES)), e)
  {
    var t := Send200(SetRetries(SetRetries(s, MAX_RETRIES), MAX_RETRIES), ForOk);
    OneSentMoves(s, t, Sent(Ok(ForOk), ReceivedCseq(s), Destined(s)), e);
    SameTarget(s, t, OnTimeoutEndDialog, e);
  }

  /** A BYE, a CANCEL or an error after hanging up. */
  lemma HangupByeMoves(s: State, r: State, e: Event)
    requires r == HungUp(SetRetries(s, MAX_RETRIES))
    ensures Moves(s, SendBye(r), e)
  {
    if !s.theirtag || s.ackpk.None? {} else {
      assert SendBye(r).sent == Then(s.sent, Sent(Bye, Next32(s.ackpk.value), Destined(s)));
    }
  }

  lemma HangupCancelMoves(s: State, r: State, e: Event)
    requires r == HungUp(SetRetries(s, MAX_RETRIES))
    ensures Moves(s, SendCancel(r), e)
  {
    if s.lastreceivedpk.None? {} else {
      assert SendCancel(r).sent == Then(s.sent, Sent(Cancel, Next32(ReceivedCseq(s)), Destined(s)));
    }
  }

  lemma HangupErrorMoves(s: State, r: State, e: Event)
    requires r == HungUp(SetRetries(s, MAX_RETRIES))
    ensures Moves(s, WaitForTimer(SendError(SetRetries(r, MAX_RETRIES)), OnTimeoutEndDialog), e)
  {
    var t := SendError(SetRetries(r, MAX_RETRIES));
    assert t.sent == Then(s.sent, Sent(Error, ReceivedCseq(s), Destined(s)));
    assert Moves(s, t, e);
    SameTarget(s, t, OnTimeoutEndDialog, e);
  }

  lemma HangupMoves(s: State, e: Event)
    ensures Moves(s, DoHangup(SetRetries(s, MAX_RETRIES)), e)
  {
    var r := HungUp(SetRetries(s, MAX_RETRIES));
    if s.callanswered {
      HangupByeMoves(s, r, e);
    } else if s.originator {
      HangupCancelMoves(s, r, e);
    } else {
      HangupErrorMoves(s, r, e);
      assert SetRetries(HungUp(SetRetries(s, MAX_RETRIES)), MAX_RETRIES) == SetRetries(r, MAX_RETRIES);
    }
  }

  lemma NotifyMoves(s: State, e: Event)
    ensures Moves(s, DoNotify(s), e)
  {
    if s.lastreceivedpk.None? {} else {
      assert DoNotify(s).sent == Then(s.sent, Sent(Notify, Next32(s.cseq), Destined(s)));
    }
  }

  lemma InviteMoves(s: State, reachable: bool, e: Event)
    ensures Moves(s, SendInvite(s, reachable), e)
  {
    if Destined(s) == CalledUser && !reachable {} else {
      assert SendInvite(s, reachable).sent == Then(s.sent, Sent(Invite, Next32(s.cseq), Destined(s)));
    }
  }

  lemma CallbackMoves(s: State, success: bool, e: Event)
    ensures Moves(s, Callback(s, success), e)
  {
    if s.requests > 0 {
      var r := ReplyArrived(s);
      if s.callhungup {} else if !success {
        UnavailableMoves(r, e);
        SameSource(s, r, TemporaryUnavailable(r), e);
      } else {}
    }
  }

  lemma PutMoves(s: State, action: Action, e: Event)
    ensures Moves(s, Put(s, action), e)
  {
    match action
    case PutRing => RingingMoves(s, e);
    case PutAnswer => if s.callanswered { UnsentMoves(SetRetries(s, MAX_RETRIES), SetRetries(s, MAX_RETRIES), e); } else { AnswerMoves(s, e); }
    case PutOk => OkMoves(s, e);
    case PutHangup => HangupMoves(s, e);
    case PutNotify => NotifyMoves(s, e);
    case PutInvite(reachable) => InviteMoves(s, reachable, e);
  }

  /** Every step of every dialog. */
  lemma StepMoves(s: State, e: Event)
    ensures Moves(s, Step(s, e), e)
  {
    if s.tracked {
      match e
      case Packet(pk, known) => ReceiveMoves(s, pk, known);
      case Timer(known) => FireMoves(s, known, e);
      case Reply(success) => CallbackMoves(s, success, e);
      case Request(action) => PutMoves(s, action, e);
    }
  }
}
