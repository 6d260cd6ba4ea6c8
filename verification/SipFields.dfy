// The dialog field by field: which events change each of them, and to what, in every state.

module SipFields {
  import opened Common
  import opened SipDialog
  import opened SipReplies

  // ---- what a packet is to the dialog

  predicate Final200(pk: Packet) { Coded(pk, 200, 200) || Coded(pk, 481, 481) }

  predicate Ending(pk: Packet) { pk.verb == BYE || pk.verb == CANCEL }

  /** The packet goes to the handler of this state. */
  predicate In(s: State, pk: Packet, next: NextState) { !Ending(pk) && s.nextstate == next }

  predicate Reinvite(s: State, pk: Packet) {
    In(s, pk, WaitForNextInstruction) && pk.verb == INVITE && s.callanswered && !s.callhungup
  }

  predicate Refers(s: State, pk: Packet) { In(s, pk, WaitForNextInstruction) && pk.verb == REFER }

  /** Challenged: the first packet of a call, an INVITE in a call, or a REFER, without credentials. */
  predicate Challenges401(s: State, pk: Packet) {
    !pk.username && (In(s, pk, InviteStart) || Reinvite(s, pk) || Refers(s, pk))
  }

  /** Its credentials are looked at. */
  predicate Presents(s: State, pk: Packet) {
    || (pk.username && pk.verb == INVITE && (In(s, pk, InviteStart) || Reinvite(s, pk)))
    || (pk.verb == INVITE && In(s, pk, InviteAuth))
    || (pk.username && Refers(s, pk))
  }

  predicate Passes(s: State, pk: Packet) { s.authrequest.Some? && s.authrequest.value in pk.answers }

  predicate AcceptsInvite(s: State, pk: Packet) { Presents(s, pk) && Passes(s, pk) && pk.verb == INVITE }
  predicate AcceptsRefer(s: State, pk: Packet) { Presents(s, pk) && Passes(s, pk) && pk.verb == REFER }
  predicate Refuses(s: State, pk: Packet) { Presents(s, pk) && !Passes(s, pk) }

  predicate FirstAnswered(s: State, pk: Packet) { In(s, pk, WaitForInviteProgress) && Coded(pk, 200, 200) }
  predicate SecondAnswered(s: State, pk: Packet) { In(s, pk, WaitForInviteProgressAfterAuth) && Coded(pk, 200, 200) }

  predicate Retries(s: State, pk: Packet) {
    In(s, pk, WaitForInviteProgress) && (Coded(pk, 401, 401) || Coded(pk, 407, 407))
  }

  predicate SecondFails(s: State, pk: Packet) { In(s, pk, WaitForInviteProgressAfterAuth) && Coded(pk, 400, 499) }

  predicate EndsCancel(s: State, pk: Packet) { In(s, pk, WaitFor200ThenAckAndDie) && Final200(pk) }

  /** The packets that are acknowledged, and the ACKs that are taken. */
  predicate Acknowledged(s: State, pk: Packet) {
    FirstAnswered(s, pk) || SecondAnswered(s, pk) || SecondFails(s, pk) || EndsCancel(s, pk)
  }

  predicate AckTaken(s: State, pk: Packet) {
    pk.verb == ACK && (s.nextstate == WaitForAckThenInviteAuth || s.nextstate == WaitForAck || s.nextstate == WaitForAckAndDie)
  }

  // ---- what else may be sent

  predicate ByeGoes(s: State) { s.theirtag && s.ackpk.Some? }

  predicate InviteGoes(s: State, reachable: bool) { s.lastauthenticatedpk.Some? || s.lastreceivedpk.Some? || reachable }

  /** This handler runs, and has retries left if it needs any. */
  predicate Fires(s: State, e: Event, h: Handler) {
    e.Timer? && s.timer == Some(h) && (h == OnTimeoutEndDialog || h == OnTimeout486AndEndDialog || s.retries != 0)
  }

  predicate SendsBye(s: State, e: Event) {
    ByeGoes(s) && ((e == Request(PutHangup) && s.callanswered) || Fires(s, e, ResendBye))
  }

  predicate SendsCancel(s: State, e: Event) {
    s.lastreceivedpk.Some? && ((e == Request(PutHangup) && !s.callanswered && s.originator) || Fires(s, e, ResendCancel))
  }

  // ---- numbers and tags

  /** The other side's tag: from an accepted INVITE, the ACK that establishes the dialog, the
      200 to a request, or the 200 to an INVITE. */
  function TagAfter(s: State, e: Event): bool {
    s.theirtag
    || (e.Packet? && AcceptsInvite(s, e.pk) && e.pk.fromtag)
    || (e.Packet? && e.pk.verb == ACK && s.nextstate == WaitForAck && e.pk.fromtag)
    || (e.Packet? && In(s, e.pk, WaitFor200) && Final200(e.pk) && e.pk.totag)
    || (e.Packet? && (FirstAnswered(s, e.pk) || SecondAnswered(s, e.pk)) && e.pk.totag)
  }

  function AckAfter(s: State, e: Event): Option<u32> {
    if e.Packet? && AckTaken(s, e.pk) then Some(e.pk.cseq)
    else if e.Packet? && (Acknowledged(s, e.pk) || Retries(s, e.pk)) then Some(s.cseq)
    else s.ackpk
  }

  function InviteAfter(s: State, e: Event): Option<u32> {
    if e.Packet? && AcceptsInvite(s, e.pk) then Some(e.pk.cseq)
    else if e.Packet? && Retries(s, e.pk) then Some(Next32(Next32(s.cseq)))
    else if e.Request? && e.action.PutInvite? && InviteGoes(s, e.action.reachable) then Some(Next32(s.cseq))
    else s.invitepk
  }

  function CseqAfter(s: State, e: Event): u32 {
    if e.Packet? && AcceptsInvite(s, e.pk) then e.pk.cseq
    else if e.Packet? && Acknowledged(s, e.pk) then Next32(s.cseq)
    else if e.Packet? && Retries(s, e.pk) then Next32(Next32(s.cseq))
    else if SendsBye(s, e) then Next32(s.ackpk.value)
    else if SendsCancel(s, e) then Next32(s.lastreceivedpk.value.cseq)
    else if e.Request? && (e.action.PutNotify? || e.action.PutInvite?) then Next32(s.cseq)
    else s.cseq
  }

  ghost predicate NumbersMove(s: State, t: State, e: Event) {
    && t.theirtag == TagAfter(s, e) && t.ackpk == AckAfter(s, e)
    && t.invitepk == InviteAfter(s, e) && t.cseq == CseqAfter(s, e)
  }

  // ---- who is at the other end

  predicate SendsChallenge(s: State, e: Event) {
    || (e.Packet? && (Challenges401(s, e.pk) || Refuses(s, e.pk)))
    || Fires(s, e, Resend401)
  }

  function RetriesAfter(s: State, e: Event): int {
    if e.Packet? && (Challenges401(s, e.pk) || AcceptsRefer(s, e.pk)) then 3
    else if e.Request? && (e.action.PutAnswer? || e.action.PutOk? || e.action.PutHangup?) then 3
    else if e.Timer? && s.timer.Some? && s.timer != Some(OnTimeoutEndDialog) && s.timer != Some(OnTimeout486AndEndDialog)
            && s.retries != 0 then s.retries - 1
    else s.retries
  }

  ghost predicate PartyMoves(s: State, t: State, e: Event) {
    && t.authenticated == (s.authenticated || (e.Packet? && (AcceptsInvite(s, e.pk) || AcceptsRefer(s, e.pk) || FirstAnswered(s, e.pk))))
    && t.authrequest == (if SendsChallenge(s, e) then Some(s.challenges) else s.authrequest)
    && t.challenges == s.challenges + (if SendsChallenge(s, e) then 1 else 0)
    && t.lastreceivedpk == (if e.Packet? then Some(e.pk) else s.lastreceivedpk)
    && t.lastauthenticatedpk == (if e.Packet? && AcceptsInvite(s, e.pk) then Some(e.pk) else s.lastauthenticatedpk)
    && t.originator == s.originator && t.retries == RetriesAfter(s, e)
  }

  // ---- the course of the dialog

  /** The control server is told, or would be if it were known. */
  predicate Tells(s: State, e: Event) {
    || (e.Packet? && (Ending(e.pk) || AcceptsInvite(s, e.pk) || AcceptsRefer(s, e.pk)))
    || (e.Packet? && e.pk.verb == ACK && (s.nextstate == WaitForAck || s.nextstate == WaitForAckAndDie))
    || (e.Packet? && Final200(e.pk) && (In(s, e.pk, WaitFor200AndDie) || In(s, e.pk, WaitFor200ThenAckAndDie)))
    || (e.Packet? && In(s, e.pk, WaitForInviteProgress)
        && (Coded(e.pk, 180, 180) || Coded(e.pk, 200, 200) || (Coded(e.pk, 400, 499) && !Retries(s, e.pk))))
    || (e.Packet? && In(s, e.pk, WaitForInviteProgressAfterAuth)
        && (Coded(e.pk, 180, 180) || Coded(e.pk, 200, 200) || Coded(e.pk, 400, 499)))
    || (e.Timer? && s.retries == 0 && (s.timer == Some(ResendBye) || s.timer == Some(ResendCancel)))
  }

  predicate Knows(e: Event) { (e.Packet? && e.known) || (e.Timer? && e.known) }

  /** It is told by a hung-up dialog, but nobody knows where. */
  predicate TellsNobody(s: State, e: Event) {
    Tells(s, e) && !s.control && !Knows(e) && (s.callhungup || HangsUp(s, e))
  }

  /** The dialog is over: acknowledged or answered for the last time, timed out, hung up and told,
      or not to be reached. */
  predicate Over(s: State, e: Event) {
    || (e.Packet? && e.pk.verb == ACK && s.nextstate == WaitForAckAndDie)
    || (e.Packet? && Final200(e.pk) && (In(s, e.pk, WaitFor200AndDie) || In(s, e.pk, WaitFor200ThenAckAndDie)))
    || (e.Timer? && s.timer.Some? && s.timer != Some(OnTimeout486AndEndDialog)
        && (s.timer == Some(OnTimeoutEndDialog) || s.retries == 0))
    || (e.Reply? && s.requests > 0 && s.callhungup)
    || (e.Request? && e.action.PutInvite? && !InviteGoes(s, e.action.reachable))
  }

  function NextAfterPacket(s: State, pk: Packet): NextState {
    if Ending(pk) then WaitForAck
    else if Challenges401(s, pk) then if Refers(s, pk) then WaitForAck else WaitForAckThenInviteAuth
    else if Refuses(s, pk) then WaitForAckAndDie
    else if pk.verb == ACK && s.nextstate == WaitForAckThenInviteAuth then InviteAuth
    else if pk.verb == ACK && s.nextstate == WaitForAck then WaitForNextInstruction
    else if (In(s, pk, WaitFor200) && Final200(pk)) || FirstAnswered(s, pk) then WaitForNextInstruction
    else if Retries(s, pk) then WaitForInviteProgressAfterAuth
    else s.nextstate
  }

  function NextAfter(s: State, e: Event): NextState {
    if e.Packet? then NextAfterPacket(s, e.pk)
    else if SendsBye(s, e) then WaitFor200AndDie
    else if SendsCancel(s, e) then WaitFor200ThenAckAndDie
    else if Fires(s, e, OnTimeout486AndEndDialog) || Fires(s, e, ResendError)
            || (e.Reply? && s.requests > 0 && !s.callhungup && !e.success)
            || (e == Request(PutHangup) && !s.callanswered && !s.originator) then WaitForAckAndDie
    else if Fires(s, e, Resend200) || (e == Request(PutAnswer) && !s.callanswered) || e == Request(PutOk) then WaitForAck
    else if e == Request(PutNotify) then WaitFor200
    else if e.Request? && e.action.PutInvite? && InviteGoes(s, e.action.reachable) then
      if s.lastreceivedpk.Some? && (Coded(s.lastreceivedpk.value, 401, 401) || Coded(s.lastreceivedpk.value, 407, 407))
      then WaitForInviteProgressAfterAuth else WaitForInviteProgress
    else s.nextstate
  }

  /** The handler armed while the dialog goes on. */
  function TimerAfter(s: State, e: Event): Option<Handler> {
    match e
    case Packet(pk, _) =>
      if Ending(pk) then Some(Resend200)
      else if s.nextstate == WaitForNextInstruction || Refuses(s, pk) then Some(OnTimeoutEndDialog)
      else if Challenges401(s, pk) then Some(Resend401)
      else if AcceptsInvite(s, pk) && !pk.totag then Some(OnTimeout486AndEndDialog)
      else if (pk.verb == ACK && (s.nextstate == WaitForAckThenInviteAuth || s.nextstate == WaitForAck))
              || (In(s, pk, WaitFor200) && Final200(pk)) then None
      else s.timer
    case Timer(_) =>
      if Fires(s, e, OnTimeout486AndEndDialog) then Some(OnTimeoutEndDialog)
      else if Fires(s, e, ResendCancel) then Some(ResendBye)
      else s.timer
    case Reply(success) => if s.requests > 0 && !s.callhungup && !success then Some(OnTimeoutEndDialog) else s.timer
    case Request(action) =>
      if SendsBye(s, e) then Some(ResendBye)
      else if SendsCancel(s, e) then Some(ResendCancel)
      else if Rings(s, e) && !s.callringing then Some(OnTimeout486AndEndDialog)
      else if (action.PutAnswer? && !s.callanswered) || action.PutOk?
              || (action.PutHangup? && !s.callanswered && !s.originator)
              || (action.PutNotify? && s.lastreceivedpk.Some?) then Some(OnTimeoutEndDialog)
      else s.timer
  }

  /** Arming the timer is the last thing done, so that it stays armed even if the dialog has
      just been dropped. */
  predicate ArmsLast(s: State, e: Event) {
    e.Packet? && !Ending(e.pk) && (s.nextstate == WaitForNextInstruction || (AcceptsInvite(s, e.pk) && !e.pk.totag))
  }

  ghost predicate CourseMoves(s: State, t: State, e: Event) {
    && t.nextstate == NextAfter(s, e)
    && t.tracked == !(TellsNobody(s, e) || Over(s, e))
    && t.timer == (if t.tracked || ArmsLast(s, e) then TimerAfter(s, e) else None)
    && t.control == (s.control || (Tells(s, e) && Knows(e)))
    && t.requests == s.requests + (if Tells(s, e) && (s.control || Knows(e)) then 1 else 0)
                                - (if e.Reply? && s.requests > 0 then 1 else 0)
  }

  ghost predicate Moved(s: State, t: State, e: Event) {
    NumbersMove(s, t, e) && PartyMoves(s, t, e) && CourseMoves(s, t, e)
  }

  /** What telling control comes to. */
  lemma ControlIs(s: State, known: bool)
    ensures UpdateControl(s, known) == s.(
      control := s.control || known, requests := if s.control || known then s.requests + 1 else s.requests,
      timer := if !s.control && !known && s.callhungup then None else s.timer,
      tracked := s.tracked && (s.control || known || !s.callhungup))
  {
  }

  // ---- packets

  lemma ByeMoved(s: State, pk: Packet, known: bool)
    requires s.tracked && Ending(pk)
    ensures Moved(s, Receive(s, pk, known), Event.Packet(pk, known))
  {
    ControlIs(Send200(Heard(HungUp(Heard(s, pk)), pk), ForBye), known);
    hide UpdateControl;
  }

  /** A packet that is only kept as the last one. */
  lemma OnlyHeard(s: State, pk: Packet, known: bool)
    requires s.tracked && !Ending(pk) && !Presents(s, pk) && !Challenges401(s, pk) && !AckTaken(s, pk)
    requires s.nextstate != WaitForNextInstruction && s.nextstate != WaitForInviteProgress
    requires s.nextstate != WaitForInviteProgressAfterAuth
    requires s.nextstate == WaitFor200 || s.nextstate == WaitFor200AndDie || s.nextstate == WaitFor200ThenAckAndDie ==> !Final200(pk)
    ensures Moved(s, Heard(s, pk), Event.Packet(pk, known))
  {
  }

  lemma DemandIs(s: State, pk: Packet)
    ensures var t := SendChallenge(SetRetries(Heard(s, pk), MAX_RETRIES), 401);
      t == s.(lastreceivedpk := Some(pk), retries := 3, authrequest := Some(s.challenges), challenges := s.challenges + 1, sent := t.sent)
  {
  }

  lemma DemandedFirst(s: State, pk: Packet, known: bool)
    requires s.tracked && Challenges401(s, pk)
    requires In(s, pk, InviteStart)
    ensures var t := SendChallenge(SetRetries(Heard(s, pk), MAX_RETRIES), 401);
      if Refers(s, pk) then Moved(s, WaitForTimer(WaitForTimer(GoTo(t, WaitForAck), Resend401), OnTimeoutEndDialog), Event.Packet(pk, known))
      else if Reinvite(s, pk) then
        Moved(s, WaitForTimer(WaitForTimer(GoTo(t, WaitForAckThenInviteAuth), Resend401), OnTimeoutEndDialog), Event.Packet(pk, known))
      else Moved(s, WaitForTimer(GoTo(t, WaitForAckThenInviteAuth), Resend401), Event.Packet(pk, known))
  {
    DemandIs(s, pk);
    hide SendChallenge, SetRetries, Heard;
  }

  lemma DemandedInvite(s: State, pk: Packet, known: bool, t: State)
    requires s.tracked && Challenges401(s, pk) && Reinvite(s, pk)
    requires t == s.(lastreceivedpk := Some(pk), retries := 3, authrequest := Some(s.challenges), challenges := s.challenges + 1, sent := t.sent)
    ensures Moved(s, WaitForTimer(WaitForTimer(GoTo(t, WaitForAckThenInviteAuth), Resend401), OnTimeoutEndDialog), Event.Packet(pk, known))
  {
  }

  lemma DemandedRefer(s: State, pk: Packet, known: bool, t: State)
    requires s.tracked && Challenges401(s, pk) && Refers(s, pk)
    requires t == s.(lastreceivedpk := Some(pk), retries := 3, authrequest := Some(s.challenges), challenges := s.challenges + 1, sent := t.sent)
    ensures Moved(s, WaitForTimer(WaitForTimer(GoTo(t, WaitForAck), Resend401), OnTimeoutEndDialog), Event.Packet(pk, known))
  {
  }

  lemma DemandedInCall(s: State, pk: Packet, known: bool)
    requires s.tracked && Challenges401(s, pk)
    requires !In(s, pk, InviteStart)
    ensures var t := SendChallenge(SetRetries(Heard(s, pk), MAX_RETRIES), 401);
      if Refers(s, pk) then Moved(s, WaitForTimer(WaitForTimer(GoTo(t, WaitForAck), Resend401), OnTimeoutEndDialog), Event.Packet(pk, known))
      else if Reinvite(s, pk) then
        Moved(s, WaitForTimer(WaitForTimer(GoTo(t, WaitForAckThenInviteAuth), Resend401), OnTimeoutEndDialog), Event.Packet(pk, known))
      else Moved(s, WaitForTimer(GoTo(t, WaitForAckThenInviteAuth), Resend401), Event.Packet(pk, known))
  {
    DemandIs(s, pk);
    var t := SendChallenge(SetRetries(Heard(s, pk), MAX_RETRIES), 401);
    hide Moved, SendChallenge, SetRetries, Heard, WaitForTimer, GoTo;
    if Refers(s, pk) { DemandedRefer(s, pk, known, t); } else { DemandedInvite(s, pk, known, t); }
  }

  lemma Demanded(s: State, pk: Packet, known: bool)
    requires s.tracked && Challenges401(s, pk)
    ensures var t := SendChallenge(SetRetries(Heard(s, pk), MAX_RETRIES), 401);
      if Refers(s, pk) then Moved(s, WaitForTimer(WaitForTimer(GoTo(t, WaitForAck), Resend401), OnTimeoutEndDialog), Event.Packet(pk, known))
      else if Reinvite(s, pk) then
        Moved(s, WaitForTimer(WaitForTimer(GoTo(t, WaitForAckThenInviteAuth), Resend401), OnTimeoutEndDialog), Event.Packet(pk, known))
      else Moved(s, WaitForTimer(GoTo(t, WaitForAckThenInviteAuth), Resend401), Event.Packet(pk, known))
  {
    hide Moved, SendChallenge, WaitForTimer, GoTo, SetRetries, Heard;
    if In(s, pk, InviteStart) { DemandedFirst(s, pk, known); } else { DemandedInCall(s, pk, known); }
  }

  lemma RefusedIs(s: State, pk: Packet)
    ensures var t := Refuse(Heard(s, pk));
      t == s.(lastreceivedpk := Some(pk), authrequest := Some(s.challenges), challenges := s.challenges + 1,
              sent := t.sent, nextstate := WaitForAckAndDie, timer := Some(OnTimeoutEndDialog))
  {
  }

  lemma RefusedInCall(s: State, pk: Packet, known: bool)
    requires s.tracked && Refuses(s, pk)
    requires s.nextstate == WaitForNextInstruction
    ensures var t := Refuse(Heard(s, pk));
      Moved(s, if s.nextstate == WaitForNextInstruction then WaitForTimer(t, OnTimeoutEndDialog) else t, Event.Packet(pk, known))
  {
    RefusedIs(s, pk);
    hide Refuse, Heard;
  }

  lemma RefusedAtFirst(s: State, pk: Packet, known: bool)
    requires s.tracked && Refuses(s, pk)
    requires s.nextstate != WaitForNextInstruction
    ensures var t := Refuse(Heard(s, pk));
      Moved(s, if s.nextstate == WaitForNextInstruction then WaitForTimer(t, OnTimeoutEndDialog) else t, Event.Packet(pk, known))
  {
    RefusedIs(s, pk);
    hide Refuse, Heard;
  }

  lemma Refused(s: State, pk: Packet, known: bool)
    requires s.tracked && Refuses(s, pk)
    ensures var t := Refuse(Heard(s, pk));
      Moved(s, if s.nextstate == WaitForNextInstruction then WaitForTimer(t, OnTimeoutEndDialog) else t, Event.Packet(pk, known))
  {
    hide Moved, Refuse, WaitForTimer, Heard;
    if s.nextstate == WaitForNextInstruction { RefusedInCall(s, pk, known); } else { RefusedAtFirst(s, pk, known); }
  }

  /** The state of an accepted INVITE. */
  lemma InviteTakenAgain(s: State, pk: Packet, known: bool)
    requires s.tracked && AcceptsInvite(s, pk)
    requires pk.totag
    ensures var t := DoInvite(Accept(Heard(s, pk), pk), pk, known);
      Moved(s, if s.nextstate == WaitForNextInstruction then WaitForTimer(t, OnTimeoutEndDialog) else t, Event.Packet(pk, known))
  {
    ControlIs(KeepInvite(Accept(Heard(s, pk), pk), pk), known);
    hide UpdateControl;
  }

  lemma InviteTakenNew(s: State, pk: Packet, known: bool)
    requires s.tracked && AcceptsInvite(s, pk)
    requires !pk.totag
    ensures var t := DoInvite(Accept(Heard(s, pk), pk), pk, known);
      Moved(s, if s.nextstate == WaitForNextInstruction then WaitForTimer(t, OnTimeoutEndDialog) else t, Event.Packet(pk, known))
  {
    ControlIs(KeepInvite(Accept(Heard(s, pk), pk), pk), known);
    hide UpdateControl;
  }

  lemma InviteTaken(s: State, pk: Packet, known: bool)
    requires s.tracked && AcceptsInvite(s, pk)
    ensures var t := DoInvite(Accept(Heard(s, pk), pk), pk, known);
      Moved(s, if s.nextstate == WaitForNextInstruction then WaitForTimer(t, OnTimeoutEndDialog) else t, Event.Packet(pk, known))
  {
    hide Moved, DoInvite, Accept, WaitForTimer, Heard;
    if pk.totag { InviteTakenAgain(s, pk, known); } else { InviteTakenNew(s, pk, known); }
  }

  /** An accepted REFER. */
  lemma ReferTaken(s: State, pk: Packet, known: bool)
    requires s.tracked && AcceptsRefer(s, pk)
    ensures var t := Respond(SetRetries(UpdateControl(Authenticated(Heard(s, pk)), known), MAX_RETRIES), Accepted);
      Moved(s, WaitForTimer(t, OnTimeoutEndDialog), Event.Packet(pk, known))
  {
    ControlIs(Authenticated(Heard(s, pk)), known);
    hide UpdateControl;
  }

  /** Any other packet in a call. */
  lemma OtherInCall(s: State, pk: Packet, known: bool)
    requires s.tracked && In(s, pk, WaitForNextInstruction) && !Presents(s, pk) && !Challenges401(s, pk)
    ensures Moved(s, WaitForTimer(Heard(s, pk), OnTimeoutEndDialog), Event.Packet(pk, known))
  {
  }

  /** An INVITE in a call that is not to be had. */
  lemma TriedInCall(s: State, pk: Packet, known: bool)
    requires s.tracked && In(s, pk, WaitForNextInstruction) && pk.verb == INVITE && !Reinvite(s, pk)
    ensures Moved(s, WaitForTimer(SendTrying(Heard(s, pk)), OnTimeoutEndDialog), Event.Packet(pk, known))
  {
  }

  lemma SameHeard(s: State, pk: Packet)
    ensures Heard(Heard(s, pk), pk) == Heard(s, pk)
  {
  }

  lemma InviteStartMoved(s: State, pk: Packet, known: bool)
    requires s.tracked && In(s, pk, InviteStart)
    ensures Moved(s, Receive(s, pk, known), Event.Packet(pk, known))
  {
    SameHeard(s, pk);
    hide Moved, Heard, Refuse, DoInvite, Accept, SendChallenge, SetRetries, WaitForTimer, GoTo;
    assert Heard(s, pk).nextstate == s.nextstate && Heard(s, pk).authrequest == s.authrequest by { HeardKeeps(s, pk); }
    if !pk.username { Demanded(s, pk, known); }
    else if pk.verb != INVITE { OnlyHeard(s, pk, known); }
    else if !Passes(s, pk) { Refused(s, pk, known); }
    else { InviteTaken(s, pk, known); }
  }

  lemma HeardKeeps(s: State, pk: Packet)
    ensures Heard(s, pk) == s.(lastreceivedpk := Some(pk))
  {
  }

  lemma InviteAuthMoved(s: State, pk: Packet, known: bool)
    requires s.tracked && In(s, pk, InviteAuth)
    ensures Moved(s, Receive(s, pk, known), Event.Packet(pk, known))
  {
    hide Moved, Heard, Refuse, DoInvite, Accept;
    HeardKeeps(s, pk);
    if pk.verb != INVITE { OnlyHeard(s, pk, known); }
    else if !Passes(s, pk) { Refused(s, pk, known); }
    else { InviteTaken(s, pk, known); }
  }

  lemma InCallMoved(s: State, pk: Packet, known: bool)
    requires s.tracked && In(s, pk, WaitForNextInstruction)
    ensures Moved(s, Receive(s, pk, known), Event.Packet(pk, known))
  {
    SameHeard(s, pk);
    HeardKeeps(s, pk);
    hide Moved, Heard, Refuse, DoInvite, Accept, SendChallenge, SetRetries, WaitForTimer, GoTo, SendTrying, Respond, Authenticated,
      UpdateControl;
    if Challenges401(s, pk) { Demanded(s, pk, known); }
    else if Refuses(s, pk) { Refused(s, pk, known); }
    else if AcceptsInvite(s, pk) { InviteTaken(s, pk, known); }
    else if AcceptsRefer(s, pk) { ReferTaken(s, pk, known); }
    else if pk.verb == INVITE { TriedInCall(s, pk, known); }
    else { OtherInCall(s, pk, known); }
  }

  lemma AcksMoved(s: State, pk: Packet, known: bool)
    requires s.tracked && !Ending(pk)
    requires s.nextstate == WaitForAckThenInviteAuth || s.nextstate == WaitForAck || s.nextstate == WaitForAckAndDie
    ensures Moved(s, Receive(s, pk, known), Event.Packet(pk, known))
  {
    hide Moved;
    if pk.verb != ACK { OnlyHeard(s, pk, known); }
    else if s.nextstate == WaitForAckThenInviteAuth { ChallengeAcked(s, pk, known); }
    else if s.nextstate == WaitForAck { Established(s, pk, known); }
    else { LastAck(s, pk, known); }
  }

  lemma ChallengeAcked(s: State, pk: Packet, known: bool)
    requires s.tracked && pk.verb == ACK && s.nextstate == WaitForAckThenInviteAuth
    ensures Moved(s, GoTo(CancelTimer(KeepAck(Heard(s, pk), pk.cseq)), InviteAuth), Event.Packet(pk, known))
  {
  }

  lemma Established(s: State, pk: Packet, known: bool)
    requires s.tracked && pk.verb == ACK && s.nextstate == WaitForAck
    ensures Moved(s, DoWaitForAck(Heard(s, pk), pk, known), Event.Packet(pk, known))
  {
    ControlIs(CancelTimer(KeepAck(LearnTag(GoTo(Heard(s, pk), WaitForNextInstruction), pk.fromtag), pk.cseq)), known);
    hide UpdateControl;
  }

  lemma LastAck(s: State, pk: Packet, known: bool)
    requires s.tracked && pk.verb == ACK && s.nextstate == WaitForAckAndDie
    ensures Moved(s, DoWaitForAckAndDie(Heard(s, pk), pk, known), Event.Packet(pk, known))
  {
    ControlIs(KeepAck(Heard(s, pk), pk.cseq), known);
    hide UpdateControl;
  }

  lemma FinalsMoved(s: State, pk: Packet, known: bool)
    requires s.tracked && !Ending(pk)
    requires s.nextstate == WaitFor200 || s.nextstate == WaitFor200AndDie || s.nextstate == WaitFor200ThenAckAndDie
    ensures Moved(s, Receive(s, pk, known), Event.Packet(pk, known))
  {
    HeardKeeps(s, pk);
    hide Moved, Heard, SendAck, UpdateControl, LearnTag, CancelTimer, GoTo, Untrack;
    if !Final200(pk) { OnlyHeard(s, pk, known); }
    else if s.nextstate == WaitFor200 { NotifyAnswered(s, pk, known); }
    else if s.nextstate == WaitFor200AndDie { ByeAnswered(s, pk, known); }
    else { CancelAnswered(s, pk, known); }
  }

  lemma NotifyAnswered(s: State, pk: Packet, known: bool)
    requires s.tracked && In(s, pk, WaitFor200) && Final200(pk)
    ensures Moved(s, LearnTag(CancelTimer(GoTo(Heard(s, pk), WaitForNextInstruction)), pk.totag), Event.Packet(pk, known))
  {
    assert LearnTag(CancelTimer(GoTo(Heard(s, pk), WaitForNextInstruction)), pk.totag)
        == s.(lastreceivedpk := Some(pk), nextstate := WaitForNextInstruction, timer := None, theirtag := s.theirtag || pk.totag);
    hide LearnTag, CancelTimer, GoTo, Heard;
  }

  lemma ByeAnswered(s: State, pk: Packet, known: bool)
    requires s.tracked && In(s, pk, WaitFor200AndDie) && Final200(pk)
    ensures Moved(s, Untrack(UpdateControl(Heard(s, pk), known)), Event.Packet(pk, known))
  {
    ControlIs(Heard(s, pk), known);
    hide UpdateControl;
  }

  lemma CancelAnswered(s: State, pk: Packet, known: bool)
    requires s.tracked && In(s, pk, WaitFor200ThenAckAndDie) && Final200(pk)
    ensures Moved(s, Untrack(UpdateControl(SendAck(Heard(s, pk)), known)), Event.Packet(pk, known))
  {
    ControlIs(SendAck(Heard(s, pk)), known);
    hide UpdateControl;
  }

  /** The progress of an INVITE: ringing, refused, or something that says nothing. */
  lemma ProgressMoved(s: State, pk: Packet, known: bool)
    requires s.tracked && (In(s, pk, WaitForInviteProgress) || In(s, pk, WaitForInviteProgressAfterAuth))
    ensures Coded(pk, 180, 180) ==> Moved(s, UpdateControl(RingingNow(Heard(s, pk)), known), Event.Packet(pk, known))
    ensures !Coded(pk, 180, 180) && !Coded(pk, 200, 200) && !Coded(pk, 400, 499) ==> Moved(s, Heard(s, pk), Event.Packet(pk, known))
  {
    if Coded(pk, 180, 180) { RangSays(s, pk, known); }
    else if !Coded(pk, 200, 200) && !Coded(pk, 400, 499) { NoProgressMade(s, pk, known); }
  }

  lemma RangSays(s: State, pk: Packet, known: bool)
    requires s.tracked && (In(s, pk, WaitForInviteProgress) || In(s, pk, WaitForInviteProgressAfterAuth)) && Coded(pk, 180, 180)
    ensures Moved(s, UpdateControl(RingingNow(Heard(s, pk)), known), Event.Packet(pk, known))
  {
    ControlIs(RingingNow(Heard(s, pk)), known);
    hide UpdateControl;
  }

  lemma NoProgressMade(s: State, pk: Packet, known: bool)
    requires s.tracked && (In(s, pk, WaitForInviteProgress) || In(s, pk, WaitForInviteProgressAfterAuth))
    requires !Coded(pk, 180, 180) && !Coded(pk, 200, 200) && !Coded(pk, 400, 499)
    ensures Moved(s, Heard(s, pk), Event.Packet(pk, known))
  {
  }

  lemma FirstTaken(s: State, pk: Packet, known: bool)
    requires s.tracked && FirstAnswered(s, pk)
    ensures Moved(s, DoWaitForInviteProgress(Heard(s, pk), pk, known), Event.Packet(pk, known))
  {
    ControlIs(SendAck(GoTo(LearnTag(Authenticated(Answered(Heard(s, pk))), pk.totag), WaitForNextInstruction)), known);
    hide UpdateControl;
  }

  lemma RetryMoved(s: State, pk: Packet, known: bool)
    requires s.tracked && Retries(s, pk)
    ensures Moved(s, SendInvite(SendAck(Heard(s, pk)), true), Event.Packet(pk, known))
  {
  }

  lemma FirstFailed(s: State, pk: Packet, known: bool)
    requires s.tracked && In(s, pk, WaitForInviteProgress) && Coded(pk, 400, 499) && !Retries(s, pk)
    ensures Moved(s, UpdateControl(HungUp(Heard(s, pk)), known), Event.Packet(pk, known))
  {
    ControlIs(HungUp(Heard(s, pk)), known);
    hide UpdateControl;
  }

  lemma FirstIs(s: State, pk: Packet, known: bool)
    requires In(s, pk, WaitForInviteProgress)
    ensures Receive(s, pk, known) == (
      var h := Heard(s, pk);
      if Coded(pk, 180, 180) then UpdateControl(RingingNow(h), known)
      else if FirstAnswered(s, pk) then DoWaitForInviteProgress(h, pk, known)
      else if Retries(s, pk) then SendInvite(SendAck(h), true)
      else if Coded(pk, 400, 499) then UpdateControl(HungUp(h), known)
      else h)
  {
    hide UpdateControl, SendInvite, SendAck, Answered, Authenticated, LearnTag, RingingNow, HungUp;
  }

  lemma FirstMoved(s: State, pk: Packet, known: bool)
    requires s.tracked && In(s, pk, WaitForInviteProgress)
    ensures Moved(s, Receive(s, pk, known), Event.Packet(pk, known))
  {
    FirstIs(s, pk, known);
    ProgressMoved(s, pk, known);
    hide Moved, Receive, Heard, HungUp, RingingNow, SendAck, SendInvite, UpdateControl, DoWaitForInviteProgress;
    if FirstAnswered(s, pk) { FirstTaken(s, pk, known); }
    else if Retries(s, pk) { RetryMoved(s, pk, known); }
    else if Coded(pk, 400, 499) { FirstFailed(s, pk, known); }
  }

  lemma SecondTaken(s: State, pk: Packet, known: bool)
    requires s.tracked && SecondAnswered(s, pk)
    ensures Moved(s, UpdateControl(SendAck(LearnTag(Answered(Heard(s, pk)), pk.totag)), known), Event.Packet(pk, known))
  {
    ControlIs(SendAck(LearnTag(Answered(Heard(s, pk)), pk.totag)), known);
    hide UpdateControl;
  }

  lemma SecondFailed(s: State, pk: Packet, known: bool)
    requires s.tracked && SecondFails(s, pk)
    ensures Moved(s, UpdateControl(HungUp(SendAck(Heard(s, pk))), known), Event.Packet(pk, known))
  {
    ControlIs(HungUp(SendAck(Heard(s, pk))), known);
    hide UpdateControl;
  }

  lemma SecondIs(s: State, pk: Packet, known: bool)
    requires In(s, pk, WaitForInviteProgressAfterAuth)
    ensures Receive(s, pk, known) == (
      var h := Heard(s, pk);
      if Coded(pk, 180, 180) then UpdateControl(RingingNow(h), known)
      else if SecondAnswered(s, pk) then UpdateControl(SendAck(LearnTag(Answered(h), pk.totag)), known)
      else if SecondFails(s, pk) then UpdateControl(HungUp(SendAck(h)), known)
      else h)
  {
    hide UpdateControl, SendAck, Answered, LearnTag, RingingNow, HungUp;
  }

  lemma SecondMoved(s: State, pk: Packet, known: bool)
    requires s.tracked && In(s, pk, WaitForInviteProgressAfterAuth)
    ensures Moved(s, Receive(s, pk, known), Event.Packet(pk, known))
  {
    SecondIs(s, pk, known);
    ProgressMoved(s, pk, known);
    hide Moved, Receive, Heard, HungUp, RingingNow, SendAck, UpdateControl, LearnTag, Answered;
    if SecondAnswered(s, pk) { SecondTaken(s, pk, known); }
    else if SecondFails(s, pk) { SecondFailed(s, pk, known); }
  }

  lemma ReceiveMoved(s: State, pk: Packet, known: bool)
    requires s.tracked
    ensures Moved(s, Receive(s, pk, known), Event.Packet(pk, known))
  {
    hide Moved, Receive;
    if Ending(pk) { ByeMoved(s, pk, known); }
    else {
      match s.nextstate {
        case InviteStart => InviteStartMoved(s, pk, known);
        case InviteAuth => InviteAuthMoved(s, pk, known);
        case WaitForNextInstruction => InCallMoved(s, pk, known);
        case WaitForAckThenInviteAuth => AcksMoved(s, pk, known);
        case WaitForAck => AcksMoved(s, pk, known);
        case WaitForAckAndDie => AcksMoved(s, pk, known);
        case WaitFor200 => FinalsMoved(s, pk, known);
        case WaitFor200AndDie => FinalsMoved(s, pk, known);
        case WaitFor200ThenAckAndDie => FinalsMoved(s, pk, known);
        case WaitForInviteProgress => FirstMoved(s, pk, known);
        case WaitForInviteProgressAfterAuth => SecondMoved(s, pk, known);
      }
    }
  }

  // ---- timer

  lemma TimedOut(s: State, known: bool)
    requires s.tracked && (s.timer == Some(OnTimeoutEndDialog) || s.timer == Some(OnTimeout486AndEndDialog))
    ensures Moved(s, Fire(s, known), Timer(known))
  {
  }

  lemma GivenUpTelling(s: State, known: bool)
    requires s.timer == Some(ResendBye) || s.timer == Some(ResendCancel)
    requires s.tracked && s.timer.Some? && s.retries == 0
    requires s.timer != Some(OnTimeoutEndDialog) && s.timer != Some(OnTimeout486AndEndDialog)
    ensures Moved(s, Fire(s, known), Timer(known))
  {
    ToldAndGone(s, known);
    ControlIs(CancelTimer(s), known);
    hide UpdateControl, Fire;
  }

  lemma ToldAndGone(s: State, known: bool)
    requires s.retries == 0 && (s.timer == Some(ResendBye) || s.timer == Some(ResendCancel))
    ensures Fire(s, known) == Untrack(UpdateControl(CancelTimer(s), known))
  {
    hide CancelTimer, Untrack, UpdateControl, SendBye, SendCancel, WaitForTimer, CountDown;
    assert CancelTimer(s).retries == 0 by { CancelKeeps(s); }
  }

  lemma CancelKeeps(s: State)
    ensures CancelTimer(s).retries == s.retries
  {
  }

  lemma GivenUpQuietly(s: State, known: bool)
    requires s.timer != Some(ResendBye) && s.timer != Some(ResendCancel)
    requires s.tracked && s.timer.Some? && s.retries == 0
    requires s.timer != Some(OnTimeoutEndDialog) && s.timer != Some(OnTimeout486AndEndDialog)
    ensures Moved(s, Fire(s, known), Timer(known))
  {
    QuietlyGone(s, known);
    hide Fire;
  }

  lemma QuietlyGone(s: State, known: bool)
    requires s.timer.Some? && s.retries == 0 && s.timer != Some(OnTimeout486AndEndDialog)
    requires s.timer != Some(ResendBye) && s.timer != Some(ResendCancel)
    ensures Fire(s, known) == Untrack(s)
  {
    var r := CancelTimer(s);
    assert r.retries == 0 && Untrack(r) == Untrack(s);
    hide CancelTimer, Untrack, UpdateControl, Send200, SendChallenge, SendError, SendNotify, SendBye, SendCancel, TemporaryUnavailable,
      WaitForTimer, CountDown;
  }

  lemma GivenUp(s: State, known: bool)
    requires s.tracked && s.timer.Some? && s.retries == 0
    requires s.timer != Some(OnTimeoutEndDialog) && s.timer != Some(OnTimeout486AndEndDialog)
    ensures Moved(s, Fire(s, known), Timer(known))
  {
    hide Moved, Fire;
    if s.timer == Some(ResendBye) || s.timer == Some(ResendCancel) { GivenUpTelling(s, known); } else { GivenUpQuietly(s, known); }
  }

  lemma Resent200Is(s: State, known: bool)
    requires s.retries != 0 && s.timer == Some(Resend200)
    ensures var t := Fire(s, known); t == s.(sent := t.sent, nextstate := WaitForAck, retries := s.retries - 1)
  {
  }

  lemma Resent200(s: State, known: bool)
    requires s.tracked && s.retries != 0
    requires s.timer == Some(Resend200) || s.timer == Some(Resend401) || s.timer == Some(ResendError)
    requires s.timer == Some(Resend200)
    ensures Moved(s, Fire(s, known), Timer(known))
  {
    Resent200Is(s, known);
    hide Fire;
  }

  lemma Resent401(s: State, known: bool)
    requires s.tracked && s.retries != 0
    requires s.timer == Some(Resend200) || s.timer == Some(Resend401) || s.timer == Some(ResendError)
    requires s.timer == Some(Resend401)
    ensures Moved(s, Fire(s, known), Timer(known))
  {
  }

  lemma ErrorResent(s: State, known: bool)
    requires s.tracked && s.retries != 0
    requires s.timer == Some(Resend200) || s.timer == Some(Resend401) || s.timer == Some(ResendError)
    requires s.timer == Some(ResendError)
    ensures Moved(s, Fire(s, known), Timer(known))
  {
  }

  lemma ResentPlain(s: State, known: bool)
    requires s.tracked && s.retries != 0
    requires s.timer == Some(Resend200) || s.timer == Some(Resend401) || s.timer == Some(ResendError)
    ensures Moved(s, Fire(s, known), Timer(known))
  {
    hide Moved, Fire;
    if s.timer == Some(Resend200) { Resent200(s, known); } else if s.timer == Some(Resend401) { Resent401(s, known); } else { ErrorResent(s, known); }
  }

  lemma ByeAgainIs(s: State, known: bool)
    requires s.retries != 0 && s.timer == Some(ResendBye) && ByeGoes(s)
    ensures var t := Fire(s, known);
      t == s.(sent := t.sent, cseq := Next32(s.ackpk.value), nextstate := WaitFor200AndDie, retries := s.retries - 1)
  {
  }

  lemma ByeGoesAgain(s: State, known: bool)
    requires s.tracked && s.retries != 0 && s.timer == Some(ResendBye)
    requires ByeGoes(s)
    ensures Moved(s, Fire(s, known), Timer(known))
  {
    ByeAgainIs(s, known);
    hide Fire;
  }

  lemma NoByeGoes(s: State, known: bool)
    requires s.tracked && s.retries != 0 && s.timer == Some(ResendBye)
    requires !ByeGoes(s)
    ensures Moved(s, Fire(s, known), Timer(known))
  {
  }

  lemma ByeResent(s: State, known: bool)
    requires s.tracked && s.retries != 0 && s.timer == Some(ResendBye)
    ensures Moved(s, Fire(s, known), Timer(known))
  {
    hide Moved, Fire;
    if ByeGoes(s) { ByeGoesAgain(s, known); } else { NoByeGoes(s, known); }
  }

  lemma CancelGoesAgain(s: State, known: bool)
    requires s.tracked && s.retries != 0 && s.timer == Some(ResendCancel) && s.lastreceivedpk.Some?
    ensures Moved(s, Fire(s, known), Timer(known))
  {
  }

  lemma NoCancelGoes(s: State, known: bool)
    requires s.tracked && s.retries != 0 && s.timer == Some(ResendCancel) && s.lastreceivedpk.None?
    ensures Moved(s, Fire(s, known), Timer(known))
  {
  }

  lemma CancelResent(s: State, known: bool)
    requires s.tracked && s.retries != 0 && s.timer == Some(ResendCancel)
    ensures Moved(s, Fire(s, known), Timer(known))
  {
    hide Moved, Fire;
    if s.lastreceivedpk.Some? { CancelGoesAgain(s, known); } else { NoCancelGoes(s, known); }
  }

  lemma NotifyGoesAgain(s: State, known: bool)
    requires s.tracked && s.retries != 0 && s.timer == Some(ResendNotify)
    requires s.lastreceivedpk.Some?
    ensures Moved(s, Fire(s, known), Timer(known))
  {
  }

  lemma NoNotifyGoes(s: State, known: bool)
    requires s.tracked && s.retries != 0 && s.timer == Some(ResendNotify)
    requires s.lastreceivedpk.None?
    ensures Moved(s, Fire(s, known), Timer(known))
  {
  }

  lemma NotifyResent(s: State, known: bool)
    requires s.tracked && s.retries != 0 && s.timer == Some(ResendNotify)
    ensures Moved(s, Fire(s, known), Timer(known))
  {
    hide Moved, Fire;
    if s.lastreceivedpk.Some? { NotifyGoesAgain(s, known); } else { NoNotifyGoes(s, known); }
  }

  lemma FireMoved(s: State, known: bool)
    requires s.tracked
    ensures Moved(s, Fire(s, known), Timer(known))
  {
    if s.timer.None? { NothingFires(s, known); }
    hide Moved, Fire;
    if s.timer.Some? {
      var h := s.timer.value;
      if h == OnTimeoutEndDialog || h == OnTimeout486AndEndDialog { TimedOut(s, known); }
      else if s.retries == 0 { GivenUp(s, known); }
      else if h == ResendBye { ByeResent(s, known); }
      else if h == ResendCancel { CancelResent(s, known); }
      else if h == ResendNotify { NotifyResent(s, known); }
      else { ResentPlain(s, known); }
    }
  }

  lemma NothingFires(s: State, known: bool)
    requires s.tracked && s.timer.None?
    ensures Moved(s, Fire(s, known), Timer(known))
  {
  }

  // ---- replies and requests

  lemma ReplyIgnored(s: State, success: bool)
    requires s.tracked
    requires s.requests == 0
    ensures Moved(s, Callback(s, success), Reply(success))
  {
  }

  lemma ReplyEnds(s: State, success: bool)
    requires s.tracked && s.requests > 0 && s.callhungup
    ensures Moved(s, Callback(s, success), Reply(success))
  {
  }

  lemma ReplySucceeds(s: State)
    requires s.tracked && s.requests > 0 && !s.callhungup
    ensures Moved(s, Callback(s, true), Reply(true))
  {
  }

  lemma ReplyFails(s: State)
    requires s.tracked && s.requests > 0 && !s.callhungup
    ensures Moved(s, Callback(s, false), Reply(false))
  {
  }

  lemma ReplyTaken(s: State, success: bool)
    requires s.tracked && s.requests > 0
    ensures Moved(s, Callback(s, success), Reply(success))
  {
    hide Moved, Callback;
    if s.callhungup { ReplyEnds(s, success); }
    else if success { ReplySucceeds(s); }
    else { ReplyFails(s); }
  }

  lemma ReplyMoved(s: State, success: bool)
    requires s.tracked
    ensures Moved(s, Callback(s, success), Reply(success))
  {
    hide Moved, Callback;
    if s.requests == 0 { ReplyIgnored(s, success); } else { ReplyTaken(s, success); }
  }

  lemma RingIs(s: State)
    ensures var t := Put(s, PutRing); var rings := !s.callringing && !s.callanswered && !s.callhungup && s.invitepk.Some?;
      t == if rings then s.(sent := t.sent, callringing := true, timer := Some(OnTimeout486AndEndDialog)) else s
  {
  }

  lemma RingMoved(s: State)
    requires s.tracked
    ensures Moved(s, Put(s, PutRing), Request(PutRing))
  {
    RingIs(s);
    hide Put;
  }

  lemma AnswerIs(s: State)
    ensures var t := Put(s, PutAnswer);
      t == if s.callanswered then s.(retries := 3)
           else s.(retries := 3, sent := t.sent, nextstate := WaitForAck, callanswered := true, timer := Some(OnTimeoutEndDialog))
  {
  }

  lemma AnswerMoved(s: State)
    requires s.tracked
    ensures Moved(s, Put(s, PutAnswer), Request(PutAnswer))
  {
    AnswerIs(s);
    hide Put;
  }

  lemma OkMoved(s: State)
    requires s.tracked
    ensures Moved(s, Put(s, PutOk), Request(PutOk))
  {
  }

  lemma HangupAnswered(s: State)
    requires s.tracked
    requires s.callanswered
    ensures Moved(s, Put(s, PutHangup), Request(PutHangup))
  {
  }

  lemma HangupMade(s: State)
    requires s.tracked
    requires !s.callanswered && s.originator
    ensures Moved(s, Put(s, PutHangup), Request(PutHangup))
  {
  }

  lemma HangupReceived(s: State)
    requires s.tracked
    requires !s.callanswered && !s.originator
    ensures Moved(s, Put(s, PutHangup), Request(PutHangup))
  {
  }

  lemma HangupMoved(s: State)
    requires s.tracked
    ensures Moved(s, Put(s, PutHangup), Request(PutHangup))
  {
    hide Moved, Put;
    if s.callanswered { HangupAnswered(s); } else if !s.callanswered && s.originator { HangupMade(s); } else { HangupReceived(s); }
  }

  lemma NotifyGoes(s: State)
    requires s.tracked
    requires s.lastreceivedpk.Some?
    ensures Moved(s, Put(s, PutNotify), Request(PutNotify))
  {
  }

  lemma NotifyToNobody(s: State)
    requires s.tracked
    requires s.lastreceivedpk.None?
    ensures Moved(s, Put(s, PutNotify), Request(PutNotify))
  {
  }

  lemma NotifyMoved(s: State)
    requires s.tracked
    ensures Moved(s, Put(s, PutNotify), Request(PutNotify))
  {
    hide Moved, Put;
    if s.lastreceivedpk.Some? { NotifyGoes(s); } else { NotifyToNobody(s); }
  }

  lemma InviteMade(s: State, reachable: bool)
    requires s.tracked && InviteGoes(s, reachable)
    ensures Moved(s, Put(s, PutInvite(reachable)), Request(PutInvite(reachable)))
  {
    InviteIs(s, reachable);
    hide Put;
  }

  lemma InviteIs(s: State, reachable: bool)
    requires InviteGoes(s, reachable)
    ensures var n := Next32(s.cseq); var r := Put(s, PutInvite(reachable));
      r == s.(cseq := n, invitepk := Some(n), sent := r.sent, nextstate := if Challenged(s) then WaitForInviteProgressAfterAuth else WaitForInviteProgress)
  {
  }

  lemma InviteFails(s: State, reachable: bool)
    requires s.tracked
    requires !InviteGoes(s, reachable)
    ensures Moved(s, Put(s, PutInvite(reachable)), Request(PutInvite(reachable)))
  {
  }

  lemma InviteMoved(s: State, reachable: bool)
    requires s.tracked
    ensures Moved(s, Put(s, PutInvite(reachable)), Request(PutInvite(reachable)))
  {
    hide Moved, Put;
    if InviteGoes(s, reachable) { InviteMade(s, reachable); } else { InviteFails(s, reachable); }
  }

  lemma RequestMoved(s: State, action: Action)
    requires s.tracked
    ensures Moved(s, Put(s, action), Request(action))
  {
    hide Moved, Put;
    match action
    case PutRing => RingMoved(s);
    case PutAnswer => AnswerMoved(s);
    case PutOk => OkMoved(s);
    case PutHangup => HangupMoved(s);
    case PutNotify => NotifyMoved(s);
    case PutInvite(reachable) => InviteMoved(s, reachable);
  }

  /** Main result: in every state, each event changes each field exactly as these functions say. */
  lemma StepMovesFields(s: State, e: Event)
    requires s.tracked
    ensures Moved(s, Step(s, e), e)
  {
    hide Moved, Receive, Fire, Callback, Put;
    match e
    case Packet(pk, known) => ReceiveMoved(s, pk, known);
    case Timer(known) => FireMoved(s, known);
    case Reply(success) => ReplyMoved(s, success);
    case Request(action) => RequestMoved(s, action);
  }
}
