// The dialog object: its fields and the methods that update them. The four kinds of event
// are its public methods: each is the step of the same name, and keeps the invariant that
// holds over every run.

module SipDialogObject {
  import opened Common
  import opened SipDialog
  import opened SipDialogRuns
  import opened SipDialogSteps
  import opened SipOutbound

  lemma Kept(s: State, e: Event)
    requires Sound(s) && Numbered(s)
    ensures Sound(Step(s, e)) && Numbered(Step(s, e)) && FlagsKept(s, Step(s, e))
  {
    hide Sound, Numbered, Step;
    StepKeepsSound(s, e);
    StepKeepsNumbers(s, e);
  }

  lemma SoundStart(o: Origin)
    ensures Sound(Start(o))
  {
    RetriesStayInRange(o, []);
    SentOnceAlways(o, []);
    AuthenticationIsTrue(o, []);
  }

  class Dialog {
    var nextstate: NextState
    var timer: Option<Handler>
    var retries: int
    var cseq: u32
    var authenticated: bool
    var originator: bool
    var callringing: bool
    var callanswered: bool
    var callhungup: bool
    var theirtag: bool
    var control: bool
    var invitepk: Option<u32>
    var ackpk: Option<u32>
    var authrequest: Option<nat>
    var lastreceivedpk: Option<Packet>
    var lastauthenticatedpk: Option<Packet>
    var tracked: bool
    var requests: nat
    var challenges: nat
    var sent: Log

    ghost function Abstract(): State
      reads this
    {
      State(nextstate, timer, retries, cseq, authenticated, originator, callringing, callanswered, callhungup,
            theirtag, control, invitepk, ackpk, authrequest, lastreceivedpk, lastauthenticatedpk, tracked,
            requests, challenges, sent)
    }

    /** Retries in range, each 180 and answer sent once, the authenticated packet an answer
        to a challenge sent, and the CSeq the one that the next ACK must have. */
    ghost predicate Valid()
      reads this
    {
      Sound(Abstract()) && Numbered(Abstract())
    }

    constructor (cseq: u32)
      ensures Abstract() == NewDialog(cseq) && Valid()
    {
      nextstate, timer, retries, this.cseq := InviteStart, None, MAX_RETRIES, cseq;
      authenticated, originator, callringing, callanswered, callhungup := false, false, false, false, false;
      theirtag, control, invitepk, ackpk, authrequest := false, false, None, None, None;
      lastreceivedpk, lastauthenticatedpk, tracked, requests, challenges := None, None, true, 0, 0;
      sent := Nothing;
    }

    /** A dialog made by a packet with an unknown Call-ID. */
    static method FromInvite(cseq: u32, pk: Packet, known: bool) returns (d: Dialog)
      ensures fresh(d) && d.Valid() && d.Abstract() == Start(ByInvite(cseq, pk, known))
    {
      d := new Dialog(cseq);
      d.InviteSipPacket(pk, known);
    }

    /** A dialog made by a POST from the control server. */
    static method FromPost(cseq: u32, control: bool, reachable: bool) returns (d: Dialog)
      ensures fresh(d) && d.Valid() && d.Abstract() == Start(ByPost(cseq, control, reachable))
    {
      d := new Dialog(cseq);
      d.originator, d.control := true, control;
      ghost var o := ByPost(cseq, control, reachable);
      assert d.Abstract() == Origins(o);
      var ok := d.SendInviteRequest(reachable);
      hide Step, Start, Origins;
      StartIsAStep(o);
      NumberedAlways(o, []);
      assert Sound(Start(o)) by { SoundStart(o); }
    }

    // ---- the four kinds of event

    /** invitesippacket, for a dialog that the container may have dropped. */
    method InviteSipPacket(pk: Packet, known: bool)
      requires Valid()
      modifies this
      ensures Abstract() == Step(old(Abstract()), Event.Packet(pk, known))
      ensures Valid() && FlagsKept(old(Abstract()), Abstract())
    {
      Kept(Abstract(), Event.Packet(pk, known));
      if tracked { OnPacket(pk, known); }
    }

    method TimerFired(known: bool)
      requires Valid()
      modifies this
      ensures Abstract() == Step(old(Abstract()), Timer(known))
      ensures Valid() && FlagsKept(old(Abstract()), Abstract())
    {
      Kept(Abstract(), Timer(known));
      if tracked { OnTimer(known); }
    }

    method HttpPut(action: Action)
      requires Valid()
      modifies this
      ensures Abstract() == Step(old(Abstract()), Request(action))
      ensures Valid() && FlagsKept(old(Abstract()), Abstract())
    {
      Kept(Abstract(), Request(action));
      if tracked { OnRequest(action); }
    }

    method HttpCallback(success: bool)
      requires Valid()
      modifies this
      ensures Abstract() == Step(old(Abstract()), Reply(success))
      ensures Valid() && FlagsKept(old(Abstract()), Abstract())
    {
      Kept(Abstract(), Reply(success));
      if tracked { OnReply(success); }
    }

    // ---- sending

    /** sendpk: prefer the authenticated packet's source, then the last packet's. */
    method SendOut(kind: Kind, number: u32)
      modifies this`sent
      ensures Abstract() == SendPk(old(Abstract()), kind, number)
    {
      var dest := CalledUser;
      if lastauthenticatedpk.Some? {
        dest := SourceOf(lastauthenticatedpk.value.src);
      } else if lastreceivedpk.Some? {
        dest := SourceOf(lastreceivedpk.value.src);
      }
      sent := Then(sent, Sent(kind, number, dest));
    }

    method RespondWith(kind: Kind)
      modifies this`sent
      ensures Abstract() == Respond(old(Abstract()), kind)
    {
      SendOut(kind, if lastreceivedpk.Some? then lastreceivedpk.value.cseq else 0);
    }

    method Remove()
      modifies this
      ensures Abstract() == Untrack(old(Abstract()))
    {
      timer := None;
      tracked := false;
    }

    method Enter(next: NextState)
      modifies this`nextstate
      ensures Abstract() == GoTo(old(Abstract()), next)
    {
      nextstate := next;
    }

    /** waitfortimer */
    method Wait(h: Handler)
      modifies this`timer
      ensures Abstract() == WaitForTimer(old(Abstract()), h)
    {
      timer := Some(h);
    }

    method Demand(status: int)
      modifies this
      ensures Abstract() == SendChallenge(old(Abstract()), status)
    {
      var number := challenges;
      authrequest := Some(number);
      challenges := challenges + 1;
      RespondWith(Challenge(status, number));
    }

    method Trying100()
      modifies this
      ensures Abstract() == SendTrying(old(Abstract()))
    {
      hide WaitForTimer;
      RespondWith(Trying);
      Wait(OnTimeout486AndEndDialog);
    }

    method Unavailable480()
      modifies this
      ensures Abstract() == TemporaryUnavailable(old(Abstract()))
    {
      hide WaitForTimer, GoTo;
      RespondWith(Unavailable);
      Enter(WaitForAckAndDie);
      Wait(OnTimeoutEndDialog);
    }

    method Send200Ok(why: Reason)
      modifies this
      ensures Abstract() == Send200(old(Abstract()), why) && nextstate == WaitForAck
    {
      hide WaitForTimer;
      RespondWith(Ok(why));
      nextstate := WaitForAck;
      Wait(Resend200);
    }

    method SendErrorCode()
      modifies this
      ensures Abstract() == SendError(old(Abstract())) && nextstate == WaitForAckAndDie
    {
      hide WaitForTimer;
      RespondWith(Error);
      nextstate := WaitForAckAndDie;
      Wait(ResendError);
    }

    method SendByeRequest()
      modifies this
      ensures Abstract() == SendBye(old(Abstract()))
    {
      hide SendPk, WaitForTimer, GoTo;
      if !theirtag { return; }
      if ackpk.None? { return; }
      cseq := Next32(ackpk.value);
      SendOut(Bye, cseq);
      Enter(WaitFor200AndDie);
      Wait(ResendBye);
    }

    method SendCancelRequest()
      modifies this
      ensures Abstract() == SendCancel(old(Abstract()))
    {
      hide SendPk, WaitForTimer, GoTo;
      if lastreceivedpk.None? { return; }
      cseq := Next32(lastreceivedpk.value.cseq);
      SendOut(Cancel, cseq);
      Enter(WaitFor200ThenAckAndDie);
      Wait(ResendCancel);
    }

    method SendNotifyRequest()
      modifies this
      ensures Abstract() == SendNotify(old(Abstract()))
    {
      hide WaitForTimer;
      if lastreceivedpk.None? { return; }
      SendOut(Notify, cseq);
      Wait(OnTimeoutEndDialog);
    }

    method SendInviteRequest(reachable: bool) returns (ok: bool)
      modifies this
      ensures Abstract() == SendInvite(old(Abstract()), reachable)
      ensures ok == !(Destined(old(Abstract())) == CalledUser && !reachable)
    {
      hide SendPk, InviteSent;
      var authenticate := false;
      cseq := Next32(cseq);
      if lastreceivedpk.Some? {
        var status := Status(lastreceivedpk.value);
        if status == 401 || status == 407 {
          authenticate := true;
        }
      }
      if lastauthenticatedpk.None? && lastreceivedpk.None? && !reachable {
        Remove();
        return false;
      }
      assert Abstract() == SetCseq(old(Abstract()), cseq);
      SendOut(Invite, cseq);
      AwaitProgress(if authenticate then WaitForInviteProgressAfterAuth else WaitForInviteProgress);
      return true;
    }

    /** Keep the INVITE just sent, and choose the state to wait in. */
    method AwaitProgress(next: NextState)
      modifies this`invitepk, this`nextstate
      ensures Abstract() == InviteSent(old(Abstract()), next)
    {
      invitepk := Some(cseq);
      nextstate := next;
    }

    method SendAckRequest()
      modifies this
      ensures Abstract() == SendAck(old(Abstract()))
    {
      var number := cseq;
      cseq := Next32(cseq);
      ackpk := Some(number);
      SendOut(Ack, number);
    }

    method TellControl(known: bool)
      modifies this
      ensures Abstract() == UpdateControl(old(Abstract()), known)
    {
      if !control {
        if !known {
          if callhungup {
            Remove();
          }
          return;
        }
        control := true;
      }
      requests := requests + 1;
    }

    /** The other side's tag is taken from the first packet that has one. */
    method LearnTheirTag(tag: bool)
      modifies this`theirtag
      ensures Abstract() == LearnTag(old(Abstract()), tag)
    {
      if !theirtag { theirtag := tag; }
    }

    // ---- state functions

    /** Three retries, a 401, and the wait for what follows it. */
    method ChallengeThen(next: NextState)
      modifies this
      ensures Abstract() == WaitForTimer(GoTo(SendChallenge(SetRetries(old(Abstract()), MAX_RETRIES), 401), next), Resend401)
    {
      hide SendChallenge, WaitForTimer, GoTo;
      retries := MAX_RETRIES;
      Demand(401);
      Enter(next);
      Wait(Resend401);
    }

    method OnInviteStart(pk: Packet, known: bool)
      modifies this
      ensures Abstract() == DoInviteStart(old(Abstract()), pk, known)
    {
      hide DoInviteAuth, SendChallenge;
      lastreceivedpk := Some(pk);
      if pk.username {
        OnInviteAuth(pk, known);
        return;
      }
      ChallengeThen(WaitForAckThenInviteAuth);
    }

    method Forbid()
      modifies this
      ensures Abstract() == Refuse(old(Abstract()))
    {
      hide WaitForTimer, GoTo;
      Demand(403);
      Enter(WaitForAckAndDie);
      Wait(OnTimeoutEndDialog);
    }

    method OnInviteAuth(pk: Packet, known: bool)
      modifies this
      ensures Abstract() == DoInviteAuth(old(Abstract()), pk, known)
    {
      hide Refuse, DoInvite;
      if pk.verb != INVITE { return; }
      if authrequest.None? || authrequest.value !in pk.answers {
        Forbid();
        return;
      }
      LearnTheirTag(pk.fromtag);
      authenticated := true;
      cseq := pk.cseq;
      OnInvite(pk, known);
    }

    method OnInvite(pk: Packet, known: bool)
      modifies this
      ensures Abstract() == DoInvite(old(Abstract()), pk, known)
    {
      hide UpdateControl, SendTrying;
      invitepk := Some(pk.cseq);
      lastauthenticatedpk := Some(pk);
      TellControl(known);
      if pk.totag { return; }
      Trying100();
    }

    /** The ACK stops the resending. */
    method TakeAck(pk: Packet)
      modifies this`ackpk, this`timer
      ensures Abstract() == CancelTimer(KeepAck(old(Abstract()), pk.cseq))
    {
      ackpk := Some(pk.cseq);
      timer := None;
    }

    method OnWaitForAckThenInviteAuth(pk: Packet)
      modifies this
      ensures Abstract() == DoWaitForAckThenInviteAuth(old(Abstract()), pk)
    {
      hide CancelTimer, KeepAck, GoTo;
      if pk.verb == ACK {
        TakeAck(pk);
        Enter(InviteAuth);
      }
    }

    method OnWaitForAck(pk: Packet, known: bool)
      modifies this
      ensures Abstract() == DoWaitForAck(old(Abstract()), pk, known)
    {
      hide UpdateControl, GoTo, LearnTag, CancelTimer, KeepAck;
      if pk.verb == ACK {
        Enter(WaitForNextInstruction);
        LearnTheirTag(pk.fromtag);
        TakeAck(pk);
        TellControl(known);
      }
    }

    method OnWaitForAckAndDie(pk: Packet, known: bool)
      modifies this
      ensures Abstract() == DoWaitForAckAndDie(old(Abstract()), pk, known)
    {
      if pk.verb == ACK {
        ackpk := Some(pk.cseq);
        TellControl(known);
        Remove();
      }
    }

    method OnWaitFor200(pk: Packet)
      modifies this
      ensures Abstract() == DoWaitFor200(old(Abstract()), pk)
    {
      hide GoTo;
      var code := Status(pk);
      if code == 200 || code == 481 {
        Enter(WaitForNextInstruction);
        timer := None;
        LearnTheirTag(pk.totag);
      }
    }

    method OnWaitFor200AndDie(pk: Packet, known: bool)
      modifies this
      ensures Abstract() == DoWaitFor200AndDie(old(Abstract()), pk, known)
    {
      var code := Status(pk);
      if code == 200 || code == 481 {
        TellControl(known);
        Remove();
      }
    }

    method OnWaitFor200ThenAckAndDie(pk: Packet, known: bool)
      modifies this
      ensures Abstract() == DoWaitFor200ThenAckAndDie(old(Abstract()), pk, known)
    {
      var code := Status(pk);
      if code == 200 || code == 481 {
        SendAckRequest();
        TellControl(known);
        Remove();
      }
    }

    method OnWaitForNextInstruction(pk: Packet, known: bool)
      modifies this
      ensures Abstract() == DoWaitForNextInstruction(old(Abstract()), pk, known)
    {
      hide WaitForTimer;
      lastreceivedpk := Some(pk);
      OnInstruction(pk, known);
      Wait(OnTimeoutEndDialog);
    }

    /** The switch on the method of the packet. */
    method OnInstruction(pk: Packet, known: bool)
      modifies this
      ensures Abstract() == NextInstruction(old(Abstract()), pk, known)
    {
      if pk.verb == INVITE {
        if callanswered && !callhungup {
          OnInviteStart(pk, known);
        } else {
          Trying100();
        }
      } else if pk.verb == REFER {
        OnRefer(pk, known);
      }
    }

    method OnRefer(pk: Packet, known: bool)
      modifies this
      ensures Abstract() == HandleRefer(old(Abstract()), pk, known)
    {
      hide ReferAuth, SendChallenge;
      if pk.username {
        OnReferAuth(pk, known);
        return;
      }
      ChallengeThen(WaitForAck);
    }

    method OnReferAuth(pk: Packet, known: bool)
      modifies this
      ensures Abstract() == ReferAuth(old(Abstract()), pk, known)
    {
      hide UpdateControl, Refuse, Respond;
      if authrequest.None? || authrequest.value !in pk.answers {
        Forbid();
        return;
      }
      authenticated := true;
      assert Abstract() == Authenticated(old(Abstract()));
      TellControl(known);
      ghost var told := Abstract();
      retries := MAX_RETRIES;
      assert Abstract() == SetRetries(told, MAX_RETRIES);
      RespondWith(Accepted);
    }

    method OnWaitForInviteProgress(pk: Packet, known: bool)
      requires lastreceivedpk.Some?
      modifies this
      ensures Abstract() == DoWaitForInviteProgress(old(Abstract()), pk, known)
    {
      hide UpdateControl, SendAck, SendInvite;
      var statuscode := Status(pk);
      if statuscode == 180 {
        callringing := true;
        TellControl(known);
      } else if statuscode == 200 {
        AnsweredFirst(pk, known);
      } else if statuscode == 401 || statuscode == 407 {
        SendAckRequest();
        var ok := SendInviteRequest(true);
      } else if 400 <= statuscode < 500 {
        FinalFailure(known);
      }
    }

    /** The other side has refused the call. */
    method FinalFailure(known: bool)
      modifies this
      ensures Abstract() == UpdateControl(HungUp(old(Abstract())), known)
    {
      hide UpdateControl;
      callhungup := true;
      TellControl(known);
    }

    /** The 200 to the first INVITE. */
    method AnsweredFirst(pk: Packet, known: bool)
      modifies this
      ensures var s := GoTo(LearnTag(Authenticated(Answered(old(Abstract()))), pk.totag), WaitForNextInstruction);
              Abstract() == UpdateControl(SendAck(s), known)
    {
      hide UpdateControl, SendAck, GoTo, LearnTag;
      callanswered := true;
      authenticated := true;
      LearnTheirTag(pk.totag);
      Enter(WaitForNextInstruction);
      SendAckRequest();
      TellControl(known);
    }

    method OnWaitForInviteProgressAfterAuth(pk: Packet, known: bool)
      modifies this
      ensures Abstract() == DoWaitForInviteProgressAfterAuth(old(Abstract()), pk, known)
    {
      hide UpdateControl, SendAck, LearnTag, HungUp;
      var statuscode := Status(pk);
      if statuscode == 180 {
        callringing := true;
        TellControl(known);
      } else if statuscode == 200 {
        callanswered := true;
        LearnTheirTag(pk.totag);
        SendAckRequest();
        TellControl(known);
      } else if 400 <= statuscode < 500 {
        SendAckRequest();
        FinalFailure(known);
      }
    }

    method OnBye(pk: Packet, known: bool)
      modifies this
      ensures Abstract() == HandleBye(old(Abstract()), pk, known)
    {
      hide UpdateControl, Send200;
      callhungup := true;
      lastreceivedpk := Some(pk);
      Send200Ok(ForBye);
      TellControl(known);
    }

    /** invitesippacket, once the dialog has been found. */
    method OnPacket(pk: Packet, known: bool)
      modifies this
      ensures Abstract() == Receive(old(Abstract()), pk, known)
    {
      hide HandleBye, DoNextState;
      lastreceivedpk := Some(pk);
      if pk.verb == BYE || pk.verb == CANCEL {
        OnBye(pk, known);
      } else {
        CallNextState(pk, known);
      }
    }

    method CallNextState(pk: Packet, known: bool)
      requires lastreceivedpk.Some?
      modifies this
      ensures Abstract() == DoNextState(old(Abstract()), pk, known)
    {
      match nextstate
      case InviteStart => OnInviteStart(pk, known);
      case WaitForAckThenInviteAuth => OnWaitForAckThenInviteAuth(pk);
      case InviteAuth => OnInviteAuth(pk, known);
      case WaitForNextInstruction => OnWaitForNextInstruction(pk, known);
      case WaitForAck => OnWaitForAck(pk, known);
      case WaitForAckAndDie => OnWaitForAckAndDie(pk, known);
      case WaitFor200 => OnWaitFor200(pk);
      case WaitFor200AndDie => OnWaitFor200AndDie(pk, known);
      case WaitFor200ThenAckAndDie => OnWaitFor200ThenAckAndDie(pk, known);
      case WaitForInviteProgress => OnWaitForInviteProgress(pk, known);
      case WaitForInviteProgressAfterAuth => OnWaitForInviteProgressAfterAuth(pk, known);
    }

    // ---- timer

    method OnTimer(known: bool)
      modifies this
      ensures Abstract() == Fire(old(Abstract()), known)
    {
      if timer.None? { return; }
      var h := timer.value;
      timer := None;
      RunHandler(h, known);
    }

    method RunHandler(h: Handler, known: bool)
      modifies this
      ensures Abstract() == Handle(old(Abstract()), h, known)
    {
      if h == OnTimeoutEndDialog {
        Remove();
      } else if h == OnTimeout486AndEndDialog {
        Unavailable480();
      } else if retries == 0 {
        if h == ResendBye || h == ResendCancel {
          TellControl(known);
        }
        Remove();
      } else {
        SendAgain(h, known);
      }
    }

    /** The rest of the resend handlers: send, count down, wait again. */
    method SendAgain(h: Handler, known: bool)
      requires h != OnTimeoutEndDialog && h != OnTimeout486AndEndDialog && retries != 0
      modifies this
      ensures Abstract() == Handle(old(Abstract()), h, known)
    {
      match h {
        case Resend200 => Send200Ok(Again); WaitAgain(h);
        case Resend401 => Demand(401); WaitAgain(h);
        case ResendError => SendErrorCode(); WaitAgain(h);
        case ResendBye => SendByeRequest(); WaitAgain(h);
        case ResendCancel => SendCancelRequest(); WaitAgain(ResendBye);
        case ResendNotify => SendNotifyRequest(); WaitAgain(h);
      }
    }

    method WaitAgain(h: Handler)
      modifies this
      ensures Abstract() == WaitForTimer(CountDown(old(Abstract())), h)
    {
      hide WaitForTimer;
      retries := retries - 1;
      Wait(h);
    }

    // ---- control requests and replies

    method Ring()
      modifies this
      ensures Abstract() == DoRinging(old(Abstract()))
    {
      hide WaitForTimer;
      if !callringing && !callanswered && !callhungup && invitepk.Some? {
        SendOut(Ringing, invitepk.value);
        timer := None;
        callringing := true;
        Wait(OnTimeout486AndEndDialog);
      }
    }

    method Answer()
      modifies this
      ensures Abstract() == DoAnswer(old(Abstract()))
    {
      hide Send200, WaitForTimer;
      if !callanswered {
        retries := MAX_RETRIES;
        Send200Ok(ForAnswer);
        ghost var accepted := Abstract();
        nextstate, callanswered := WaitForAck, true;
        assert Abstract() == Answered(accepted);
        Wait(OnTimeoutEndDialog);
      }
    }

    method Confirm()
      modifies this
      ensures Abstract() == DoOk(old(Abstract()))
    {
      hide Send200, WaitForTimer;
      retries := MAX_RETRIES;
      Send200Ok(ForOk);
      nextstate := WaitForAck;
      Wait(OnTimeoutEndDialog);
    }

    method Hangup()
      modifies this
      ensures Abstract() == DoHangup(old(Abstract()))
    {
      hide SendBye, SendCancel, SendError;
      callhungup := true;
      if callanswered {
        SendByeRequest();
      } else if originator {
        SendCancelRequest();
      } else {
        RefuseCall();
      }
    }

    /** Hanging up a call that came in and was not answered. */
    method RefuseCall()
      modifies this
      ensures Abstract() == WaitForTimer(SendError(SetRetries(old(Abstract()), MAX_RETRIES)), OnTimeoutEndDialog)
    {
      hide SendError, WaitForTimer;
      retries := MAX_RETRIES;
      SendErrorCode();
      nextstate := WaitForAckAndDie;
      Wait(OnTimeoutEndDialog);
    }

    method NotifyThem()
      modifies this
      ensures Abstract() == DoNotify(old(Abstract()))
    {
      hide GoTo;
      cseq := Next32(cseq);
      SendNotifyRequest();
      Enter(WaitFor200);
    }

    method OnRequest(action: Action)
      modifies this
      ensures Abstract() == Put(old(Abstract()), action)
    {
      hide DoRinging, DoAnswer, DoOk, DoHangup, DoNotify, SendInvite;
      match action
      case PutRing => Ring();
      case PutAnswer =>
        retries := MAX_RETRIES;
        Answer();
      case PutOk =>
        retries := MAX_RETRIES;
        Confirm();
      case PutHangup =>
        retries := MAX_RETRIES;
        Hangup();
      case PutNotify => NotifyThem();
      case PutInvite(reachable) =>
        var ok := SendInviteRequest(reachable);
    }

    method OnReply(success: bool)
      modifies this
      ensures Abstract() == Callback(old(Abstract()), success)
    {
      if requests == 0 { return; }
      requests := requests - 1;
      if callhungup {
        Remove();
        return;
      }
      if !success {
        Unavailable480();
      }
    }
  }
}
