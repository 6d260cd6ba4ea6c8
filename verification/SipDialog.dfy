// One SIP dialog as a state machine: what each packet, timer firing, control request
// and control-server reply does to its fields.

module SipDialog {
  import opened Common

  type Endpoint = int

  datatype Method = INVITE | ACK | BYE | CANCEL | REFER | RESPONSE | OtherMethod

  /** A received packet. answers is the set of challenges that its digest answers for
      the password the directory holds, that is, for which lookuppassword finds a
      password and checkauth accepts. */
  datatype Packet = Packet(
    verb: Method,
    code: int,
    cseq: u32,
    username: bool,
    totag: bool,
    fromtag: bool,
    answers: set<nat>,
    src: Endpoint
  )

  /** getstatuscode: -1 for a request. */
  function Status(pk: Packet): int { if pk.verb == RESPONSE then pk.code else -1 }

  datatype NextState =
    | InviteStart | WaitForAckThenInviteAuth | InviteAuth | WaitForNextInstruction
    | WaitForAck | WaitForAckAndDie | WaitFor200 | WaitFor200AndDie | WaitFor200ThenAckAndDie
    | WaitForInviteProgress | WaitForInviteProgressAfterAuth

  datatype Handler =
    | OnTimeoutEndDialog | OnTimeout486AndEndDialog
    | Resend200 | Resend401 | ResendError | ResendBye | ResendCancel | ResendNotify

  /** Why a 200 is sent. */
  datatype Reason = ForAnswer | ForOk | ForBye | Again

  datatype Kind =
    | Challenge(status: int, number: nat)
    | Trying | Unavailable | Ringing | Ok(why: Reason) | Accepted | Error
    | Invite | Ack | Bye | Cancel | Notify

  /** Where sendpk sends: back to the source of a packet, or to the called user's own
      registration or host. */
  datatype Destination = SourceOf(endpoint: Endpoint) | CalledUser

  datatype Sent = Sent(kind: Kind, cseq: u32, dest: Destination)

  /** Everything sent so far, the latest last. */
  datatype Log = Nothing | Then(before: Log, last: Sent)

  /** invitepk and ackpk stand for the CSeq of the INVITE and ACK kept. */
  datatype State = State(
    nextstate: NextState,
    timer: Option<Handler>,
    retries: int,
    cseq: u32,
    authenticated: bool,
    originator: bool,
    callringing: bool,
    callanswered: bool,
    callhungup: bool,
    theirtag: bool,
    control: bool,
    invitepk: Option<u32>,
    ackpk: Option<u32>,
    authrequest: Option<nat>,
    lastreceivedpk: Option<Packet>,
    lastauthenticatedpk: Option<Packet>,
    tracked: bool,
    requests: nat,
    challenges: nat,
    sent: Log
  )

  const MAX_RETRIES := 3

  function Next32(n: u32): u32 { (n + 1) % U32_RANGE }

  function NewDialog(cseq: u32): State {
    State(InviteStart, None, MAX_RETRIES, cseq, false, false, false, false, false, false, false, None,
          None, None, None, None, true, 0, 0, Nothing)
  }

  // ---- fields that are set together

  function Heard(s: State, pk: Packet): State { s.(lastreceivedpk := Some(pk)) }
  function GoTo(s: State, next: NextState): State { s.(nextstate := next) }
  function WaitForTimer(s: State, h: Handler): State { s.(timer := Some(h)) }
  function CancelTimer(s: State): State { s.(timer := None) }
  function Untrack(s: State): State { s.(timer := None, tracked := false) }
  function SetRetries(s: State, n: int): State { s.(retries := n) }
  function SetCseq(s: State, n: u32): State { s.(cseq := n) }
  function LearnTag(s: State, tag: bool): State { s.(theirtag := s.theirtag || tag) }
  function KeepAck(s: State, cseq: u32): State { s.(ackpk := Some(cseq)) }
  function RingingNow(s: State): State { s.(callringing := true) }
  function Answered(s: State): State { s.(callanswered := true) }
  function HungUp(s: State): State { s.(callhungup := true) }
  function Authenticated(s: State): State { s.(authenticated := true) }
  function NewChallenge(s: State): State { s.(authrequest := Some(s.challenges), challenges := s.challenges + 1) }
  function Accept(s: State, pk: Packet): State {
    s.(theirtag := s.theirtag || pk.fromtag, authenticated := true, cseq := pk.cseq)
  }
  function KeepInvite(s: State, pk: Packet): State { s.(invitepk := Some(pk.cseq), lastauthenticatedpk := Some(pk)) }

  // ---- sending

  function Destined(s: State): Destination {
    if s.lastauthenticatedpk.Some? then SourceOf(s.lastauthenticatedpk.value.src)
    else if s.lastreceivedpk.Some? then SourceOf(s.lastreceivedpk.value.src)
    else CalledUser
  }

  function SendPk(s: State, kind: Kind, cseq: u32): State {
    s.(sent := Then(s.sent, Sent(kind, cseq, Destined(s))))
  }

  /** A response repeats the CSeq of the last packet received. */
  function ReceivedCseq(s: State): u32 {
    if s.lastreceivedpk.Some? then s.lastreceivedpk.value.cseq else 0
  }

  function Respond(s: State, kind: Kind): State { SendPk(s, kind, ReceivedCseq(s)) }

  /** send401 and send403: both keep the challenge just made as the one to answer. */
  function SendChallenge(s: State, status: int): State {
    Respond(NewChallenge(s), Challenge(status, s.challenges))
  }

  function SendTrying(s: State): State {
    WaitForTimer(Respond(s, Trying), OnTimeout486AndEndDialog)
  }

  function TemporaryUnavailable(s: State): State {
    WaitForTimer(GoTo(Respond(s, Unavailable), WaitForAckAndDie), OnTimeoutEndDialog)
  }

  function Send200(s: State, why: Reason): State {
    WaitForTimer(GoTo(Respond(s, Ok(why)), WaitForAck), Resend200)
  }

  function SendError(s: State): State {
    WaitForTimer(GoTo(Respond(s, Error), WaitForAckAndDie), ResendError)
  }

  function SendBye(s: State): State {
    if !s.theirtag || s.ackpk.None? then s
    else WaitForTimer(GoTo(SendPk(SetCseq(s, Next32(s.ackpk.value)), Bye, Next32(s.ackpk.value)), WaitFor200AndDie), ResendBye)
  }

  function SendCancel(s: State): State {
    if s.lastreceivedpk.None? then s
    else WaitForTimer(GoTo(SendPk(SetCseq(s, Next32(ReceivedCseq(s))), Cancel, Next32(ReceivedCseq(s))), WaitFor200ThenAckAndDie),
                      ResendCancel)
  }

  function SendNotify(s: State): State {
    if s.lastreceivedpk.None? then s
    else WaitForTimer(SendPk(s, Notify, s.cseq), OnTimeoutEndDialog)
  }

  predicate Challenged(s: State) {
    s.lastreceivedpk.Some? && (Status(s.lastreceivedpk.value) == 401 || Status(s.lastreceivedpk.value) == 407)
  }

  function InviteSent(s: State, next: NextState): State { s.(invitepk := Some(s.cseq), nextstate := next) }

  /** sendinvite; it fails only if there is no packet to go back on and the called user
      cannot be reached. */
  function SendInvite(s: State, reachable: bool): State {
    if Destined(s) == CalledUser && !reachable then Untrack(SetCseq(s, Next32(s.cseq)))
    else InviteSent(SendPk(SetCseq(s, Next32(s.cseq)), Invite, Next32(s.cseq)),
                    if Challenged(s) then WaitForInviteProgressAfterAuth else WaitForInviteProgress)
  }

  function SendAck(s: State): State {
    SendPk(KeepAck(SetCseq(s, Next32(s.cseq)), s.cseq), Ack, s.cseq)
  }

  function AskControl(s: State): State { s.(control := true, requests := s.requests + 1) }

  /** Tell the control server. known: the directory knows the dialog's domain. */
  function UpdateControl(s: State, known: bool): State {
    if s.control || known then AskControl(s)
    else if s.callhungup then Untrack(s)
    else s
  }

  // ---- state functions

  function DoInviteStart(s: State, pk: Packet, known: bool): State {
    if pk.username then DoInviteAuth(Heard(s, pk), pk, known)
    else WaitForTimer(GoTo(SendChallenge(SetRetries(Heard(s, pk), MAX_RETRIES), 401), WaitForAckThenInviteAuth), Resend401)
  }

  predicate Answers(s: State, pk: Packet) { s.authrequest.Some? && s.authrequest.value in pk.answers }

  function Refuse(s: State): State {
    WaitForTimer(GoTo(SendChallenge(s, 403), WaitForAckAndDie), OnTimeoutEndDialog)
  }

  function DoInviteAuth(s: State, pk: Packet, known: bool): State {
    if pk.verb != INVITE then s
    else if !Answers(s, pk) then Refuse(s)
    else DoInvite(Accept(s, pk), pk, known)
  }

  function DoInvite(s: State, pk: Packet, known: bool): State {
    if pk.totag then UpdateControl(KeepInvite(s, pk), known)
    else SendTrying(UpdateControl(KeepInvite(s, pk), known))
  }

  function DoWaitForAckThenInviteAuth(s: State, pk: Packet): State {
    if pk.verb != ACK then s
    else GoTo(CancelTimer(KeepAck(s, pk.cseq)), InviteAuth)
  }

  function DoWaitForAck(s: State, pk: Packet, known: bool): State {
    if pk.verb != ACK then s
    else UpdateControl(CancelTimer(KeepAck(LearnTag(GoTo(s, WaitForNextInstruction), pk.fromtag), pk.cseq)), known)
  }

  function DoWaitForAckAndDie(s: State, pk: Packet, known: bool): State {
    if pk.verb != ACK then s else Untrack(UpdateControl(KeepAck(s, pk.cseq), known))
  }

  predicate Finished(pk: Packet) { Status(pk) == 200 || Status(pk) == 481 }

  function DoWaitFor200(s: State, pk: Packet): State {
    if !Finished(pk) then s
    else LearnTag(CancelTimer(GoTo(s, WaitForNextInstruction)), pk.totag)
  }

  function DoWaitFor200AndDie(s: State, pk: Packet, known: bool): State {
    if !Finished(pk) then s else Untrack(UpdateControl(s, known))
  }

  function DoWaitFor200ThenAckAndDie(s: State, pk: Packet, known: bool): State {
    if !Finished(pk) then s else Untrack(UpdateControl(SendAck(s), known))
  }

  function DoWaitForNextInstruction(s: State, pk: Packet, known: bool): State {
    WaitForTimer(NextInstruction(Heard(s, pk), pk, known), OnTimeoutEndDialog)
  }

  function NextInstruction(s: State, pk: Packet, known: bool): State {
    if pk.verb == INVITE then
      if s.callanswered && !s.callhungup then DoInviteStart(s, pk, known) else SendTrying(s)
    else if pk.verb == REFER then HandleRefer(s, pk, known)
    else s
  }

  function HandleRefer(s: State, pk: Packet, known: bool): State {
    if pk.username then ReferAuth(s, pk, known)
    else WaitForTimer(GoTo(SendChallenge(SetRetries(s, MAX_RETRIES), 401), WaitForAck), Resend401)
  }

  function ReferAuth(s: State, pk: Packet, known: bool): State {
    if !Answers(s, pk) then Refuse(s)
    else Respond(SetRetries(UpdateControl(Authenticated(s), known), MAX_RETRIES), Accepted)
  }

  predicate Failed(status: int) { 400 <= status < 500 }

  function DoWaitForInviteProgress(s: State, pk: Packet, known: bool): State {
    if Status(pk) == 180 then UpdateControl(RingingNow(s), known)
    else if Status(pk) == 200 then
      UpdateControl(SendAck(GoTo(LearnTag(Authenticated(Answered(s)), pk.totag), WaitForNextInstruction)), known)
    else if Status(pk) == 401 || Status(pk) == 407 then SendInvite(SendAck(s), true)
    else if Failed(Status(pk)) then UpdateControl(HungUp(s), known)
    else s
  }

  function DoWaitForInviteProgressAfterAuth(s: State, pk: Packet, known: bool): State {
    if Status(pk) == 180 then UpdateControl(RingingNow(s), known)
    else if Status(pk) == 200 then UpdateControl(SendAck(LearnTag(Answered(s), pk.totag)), known)
    else if Failed(Status(pk)) then UpdateControl(HungUp(SendAck(s)), known)
    else s
  }

  function HandleBye(s: State, pk: Packet, known: bool): State {
    UpdateControl(Send200(Heard(HungUp(s), pk), ForBye), known)
  }

  /** The part of invitesippacket for a dialog that exists. */
  function Receive(s: State, pk: Packet, known: bool): State {
    if pk.verb == BYE || pk.verb == CANCEL then HandleBye(Heard(s, pk), pk, known)
    else DoNextState(Heard(s, pk), pk, known)
  }

  /** The call through nextstate. */
  function DoNextState(s: State, pk: Packet, known: bool): State {
    match s.nextstate
    case InviteStart => DoInviteStart(s, pk, known)
    case WaitForAckThenInviteAuth => DoWaitForAckThenInviteAuth(s, pk)
    case InviteAuth => DoInviteAuth(s, pk, known)
    case WaitForNextInstruction => DoWaitForNextInstruction(s, pk, known)
    case WaitForAck => DoWaitForAck(s, pk, known)
    case WaitForAckAndDie => DoWaitForAckAndDie(s, pk, known)
    case WaitFor200 => DoWaitFor200(s, pk)
    case WaitFor200AndDie => DoWaitFor200AndDie(s, pk, known)
    case WaitFor200ThenAckAndDie => DoWaitFor200ThenAckAndDie(s, pk, known)
    case WaitForInviteProgress => DoWaitForInviteProgress(s, pk, known)
    case WaitForInviteProgressAfterAuth => DoWaitForInviteProgressAfterAuth(s, pk, known)
  }

  // ---- timer

  function CountDown(s: State): State { s.(retries := s.retries - 1) }

  /** The armed handler runs; the timer is then idle unless it is set again. */
  function Fire(s: State, known: bool): State {
    if s.timer.None? then s else Handle(CancelTimer(s), s.timer.value, known)
  }

  function Handle(s: State, h: Handler, known: bool): State {
    match h
    case OnTimeoutEndDialog => Untrack(s)
    case OnTimeout486AndEndDialog => TemporaryUnavailable(s)
    case Resend200 => if s.retries == 0 then Untrack(s) else WaitForTimer(CountDown(Send200(s, Again)), Resend200)
    case Resend401 => if s.retries == 0 then Untrack(s) else WaitForTimer(CountDown(SendChallenge(s, 401)), Resend401)
    case ResendError => if s.retries == 0 then Untrack(s) else WaitForTimer(CountDown(SendError(s)), ResendError)
    case ResendBye =>
      if s.retries == 0 then Untrack(UpdateControl(s, known)) else WaitForTimer(CountDown(SendBye(s)), ResendBye)
    case ResendCancel =>
      if s.retries == 0 then Untrack(UpdateControl(s, known)) else WaitForTimer(CountDown(SendCancel(s)), ResendBye)
    case ResendNotify => if s.retries == 0 then Untrack(s) else WaitForTimer(CountDown(SendNotify(s)), ResendNotify)
  }

  // ---- control requests and replies

  datatype Action = PutRing | PutAnswer | PutOk | PutHangup | PutNotify | PutInvite(reachable: bool)

  /** The 180 repeats the CSeq of the INVITE, whatever was received last. */
  function DoRinging(s: State): State {
    if s.callringing || s.callanswered || s.callhungup || s.invitepk.None? then s
    else WaitForTimer(RingingNow(CancelTimer(SendPk(s, Ringing, s.invitepk.value))), OnTimeout486AndEndDialog)
  }

  function DoAnswer(s: State): State {
    if s.callanswered then s
    else WaitForTimer(Answered(Send200(SetRetries(s, MAX_RETRIES), ForAnswer)), OnTimeoutEndDialog)
  }

  function DoOk(s: State): State {
    WaitForTimer(Send200(SetRetries(s, MAX_RETRIES), ForOk), OnTimeoutEndDialog)
  }

  function DoHangup(s: State): State {
    if s.callanswered then SendBye(HungUp(s))
    else if s.originator then SendCancel(HungUp(s))
    else WaitForTimer(SendError(SetRetries(HungUp(s), MAX_RETRIES)), OnTimeoutEndDialog)
  }

  function DoNotify(s: State): State {
    GoTo(SendNotify(SetCseq(s, Next32(s.cseq))), WaitFor200)
  }

  /** httpput: answer, ok and hangup put the retry count back first. */
  function Put(s: State, action: Action): State {
    match action
    case PutRing => DoRinging(s)
    case PutAnswer => DoAnswer(SetRetries(s, MAX_RETRIES))
    case PutOk => DoOk(SetRetries(s, MAX_RETRIES))
    case PutHangup => DoHangup(SetRetries(s, MAX_RETRIES))
    case PutNotify => DoNotify(s)
    case PutInvite(reachable) => SendInvite(s, reachable)
  }

  function ReplyArrived(s: State): State
    requires s.requests > 0
  {
    s.(requests := s.requests - 1)
  }

  /** httpcallback: the control server's reply to an outstanding request. */
  function Callback(s: State, success: bool): State {
    if s.requests == 0 then s
    else if s.callhungup then Untrack(ReplyArrived(s))
    else if !success then TemporaryUnavailable(ReplyArrived(s))
    else ReplyArrived(s)
  }

  // ---- runs

  datatype Event =
    | Packet(pk: Packet, known: bool)
    | Timer(known: bool)
    | Reply(success: bool)
    | Request(action: Action)

  /** Nothing reaches a dialog that is no longer in the container. */
  function Step(s: State, e: Event): State {
    if !s.tracked then s
    else match e
      case Packet(pk, known) => Receive(s, pk, known)
      case Timer(known) => Fire(s, known)
      case Reply(success) => Callback(s, success)
      case Request(action) => Put(s, action)
  }

  function Run(s: State, es: seq<Event>): State {
    if es == [] then s else Step(Run(s, es[..|es| - 1]), es[|es| - 1])
  }

  /** A dialog is made by an INVITE with an unknown Call-ID, or by a POST from the
      control server, which may name its own address. */
  datatype Origin =
    | ByInvite(cseq: u32, pk: Packet, known: bool)
    | ByPost(cseq: u32, control: bool, reachable: bool)

  function Start(o: Origin): State {
    match o
    case ByInvite(cseq, pk, known) => Receive(NewDialog(cseq), pk, known)
    case ByPost(cseq, control, reachable) =>
      SendInvite(NewDialog(cseq).(originator := true, control := control), reachable)
  }
}
