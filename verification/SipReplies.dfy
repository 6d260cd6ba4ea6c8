// What a dialog sends and which flags it sets, event by event, and what that comes to over
// whole runs: every request answered, every answer counted.

module SipReplies {
  import opened Common
  import opened SipDialog
  import opened SipOutbound

  datatype Line = Line(kind: Kind, cseq: u32)

  /** The log with these packets added, all to one destination. */
  function Tell(log: Log, lines: seq<Line>, dest: Destination): Log {
    if lines == [] then log
    else Then(Tell(log, lines[..|lines| - 1], dest), Sent(lines[|lines| - 1].kind, lines[|lines| - 1].cseq, dest))
  }

  /** An INVITE or REFER that has to be authenticated: 401 without credentials, 403 with wrong
      ones, and otherwise what it is for. */
  function Checked(s: State, pk: Packet, challenge: bool, good: seq<Line>): seq<Line> {
    if challenge && !pk.username then [Line(Challenge(401, s.challenges), pk.cseq)]
    else if !Answers(s, pk) then [Line(Challenge(403, s.challenges), pk.cseq)]
    else good
  }

  function ForInvite(s: State, pk: Packet, challenge: bool): seq<Line> {
    if !(challenge && !pk.username) && pk.verb != INVITE then []
    else Checked(s, pk, challenge, if pk.totag then [] else [Line(Trying, pk.cseq)])
  }

  function ForBye200(pk: Packet): seq<Line> { [Line(Ok(ForBye), pk.cseq)] }

  /** A response with a code in this range. */
  predicate Coded(pk: Packet, low: int, high: int) { pk.verb == RESPONSE && low <= pk.code <= high }

  /** What a packet is answered with. */
  function ForPacket(s: State, pk: Packet): seq<Line> {
    if pk.verb == BYE || pk.verb == CANCEL then ForBye200(pk)
    else match s.nextstate
      case InviteStart => ForInvite(s, pk, true)
      case InviteAuth => ForInvite(s, pk, false)
      case WaitForNextInstruction =>
        if pk.verb == INVITE then
          if s.callanswered && !s.callhungup then ForInvite(s, pk, true) else [Line(Trying, pk.cseq)]
        else if pk.verb == REFER then Checked(s, pk, true, [Line(Accepted, pk.cseq)])
        else []
      case WaitForInviteProgress =>
        if Coded(pk, 200, 200) then [Line(Ack, s.cseq)]
        else if Coded(pk, 401, 401) || Coded(pk, 407, 407) then [Line(Ack, s.cseq), Line(Invite, Next32(Next32(s.cseq)))]
        else []
      case WaitForInviteProgressAfterAuth =>
        if Coded(pk, 200, 200) || Coded(pk, 400, 499) then [Line(Ack, s.cseq)] else []
      case WaitFor200ThenAckAndDie =>
        if Coded(pk, 200, 200) || Coded(pk, 481, 481) then [Line(Ack, s.cseq)] else []
      case _ => []
  }

  function ByeLine(s: State): seq<Line> {
    if s.theirtag && s.ackpk.Some? then [Line(Bye, Next32(s.ackpk.value))] else []
  }

  function CancelLine(s: State): seq<Line> {
    if s.lastreceivedpk.Some? then [Line(Cancel, Next32(s.lastreceivedpk.value.cseq))] else []
  }

  function NotifyLine(s: State, cseq: u32): seq<Line> { if s.lastreceivedpk.Some? then [Line(Notify, cseq)] else [] }

  /** What a resend handler sends while it has retries. */
  function Resent(s: State, h: Handler): seq<Line> {
    match h
    case OnTimeoutEndDialog => []
    case OnTimeout486AndEndDialog => [Line(Unavailable, ReceivedCseq(s))]
    case Resend200 => [Line(Ok(Again), ReceivedCseq(s))]
    case Resend401 => [Line(Challenge(401, s.challenges), ReceivedCseq(s))]
    case ResendError => [Line(Error, ReceivedCseq(s))]
    case ResendBye => ByeLine(s)
    case ResendCancel => CancelLine(s)
    case ResendNotify => NotifyLine(s, s.cseq)
  }

  function ForTimer(s: State): seq<Line> {
    if s.timer.None? || (s.retries == 0 && s.timer.value != OnTimeout486AndEndDialog) then []
    else Resent(s, s.timer.value)
  }

  function ForRequest(s: State, action: Action): seq<Line> {
    match action
    case PutRing =>
      if s.callringing || s.callanswered || s.callhungup || s.invitepk.None? then [] else [Line(Ringing, s.invitepk.value)]
    case PutAnswer => if s.callanswered then [] else [Line(Ok(ForAnswer), ReceivedCseq(s))]
    case PutOk => [Line(Ok(ForOk), ReceivedCseq(s))]
    case PutHangup =>
      if s.callanswered then ByeLine(s) else if s.originator then CancelLine(s) else [Line(Error, ReceivedCseq(s))]
    case PutNotify => NotifyLine(s, Next32(s.cseq))
    case PutInvite(reachable) => if Destined(s) == CalledUser && !reachable then [] else [Line(Invite, Next32(s.cseq))]
  }

  function Lines(s: State, e: Event): seq<Line> {
    match e
    case Packet(pk, _) => ForPacket(s, pk)
    case Timer(_) => ForTimer(s)
    case Reply(success) =>
      if s.requests > 0 && !s.callhungup && !success then [Line(Unavailable, ReceivedCseq(s))] else []
    case Request(action) => ForRequest(s, action)
  }

  // ---- which events set which flag

  predicate Progress(s: State) { s.nextstate == WaitForInviteProgress || s.nextstate == WaitForInviteProgressAfterAuth }

  /** A response while an INVITE of this dialog is waited on. */
  predicate Response(s: State, e: Event, low: int, high: int) {
    e.Packet? && Progress(s) && Coded(e.pk, low, high)
  }

  predicate Rings(s: State, e: Event) {
    || Response(s, e, 180, 180)
    || (e == Request(PutRing) && !s.callanswered && !s.callhungup && s.invitepk.Some?)
  }

  predicate IsAnswered(s: State, e: Event) { Response(s, e, 200, 200) || e == Request(PutAnswer) }

  /** A BYE or CANCEL, a refusal that is no challenge of the first INVITE, or a hang-up. */
  predicate HangsUp(s: State, e: Event) {
    || (e.Packet? && (e.pk.verb == BYE || e.pk.verb == CANCEL))
    || (Response(s, e, 400, 499)
        && !(s.nextstate == WaitForInviteProgress && (Coded(e.pk, 401, 401) || Coded(e.pk, 407, 407))))
    || e == Request(PutHangup)
  }

  /** t is s with these packets sent, and exactly these flags set. */
  ghost predicate Does(s: State, t: State, lines: seq<Line>, rung: bool, answered: bool, hungup: bool) {
    && t.sent == Tell(s.sent, lines, Destined(t))
    && t.callringing == (s.callringing || rung)
    && t.callanswered == (s.callanswered || answered)
    && t.callhungup == (s.callhungup || hungup)
  }

  ghost predicate Says(s: State, t: State, lines: seq<Line>) { Does(s, t, lines, false, false, false) }

  lemma TellOne(log: Log, x: Line, dest: Destination)
    ensures Tell(log, [x], dest) == Then(log, Sent(x.kind, x.cseq, dest))
  {
    assert [x][..0] == [];
  }

  lemma TellTwo(log: Log, x: Line, y: Line, dest: Destination)
    ensures Tell(log, [x, y], dest) == Then(Then(log, Sent(x.kind, x.cseq, dest)), Sent(y.kind, y.cseq, dest))
  {
    assert [x, y][..1] == [x];
    TellOne(log, x, dest);
  }

  /** Telling control sends nothing and sets no flag. */
  lemma ControlOnly(s: State, known: bool)
    ensures var t := UpdateControl(s, known);
      t == s.(control := t.control, requests := t.requests, timer := t.timer, tracked := t.tracked)
  {
  }

  lemma SaysBye(s: State)
    ensures Says(s, SendBye(s), ByeLine(s))
  {
    if s.theirtag && s.ackpk.Some? { TellOne(s.sent, ByeLine(s)[0], Destined(s)); }
  }

  lemma SaysCancel(s: State)
    ensures Says(s, SendCancel(s), CancelLine(s))
  {
    if s.lastreceivedpk.Some? { TellOne(s.sent, CancelLine(s)[0], Destined(s)); }
  }

  lemma SaysNotify(s: State)
    ensures Says(s, SendNotify(s), NotifyLine(s, s.cseq))
  {
    if s.lastreceivedpk.Some? { TellOne(s.sent, NotifyLine(s, s.cseq)[0], Destined(s)); }
  }

  lemma SaysChallenge(s: State, status: int)
    ensures Says(s, SendChallenge(s, status), [Line(Challenge(status, s.challenges), ReceivedCseq(s))])
  {
    TellOne(s.sent, Line(Challenge(status, s.challenges), ReceivedCseq(s)), Destined(s));
  }

  lemma SaysResponse(s: State, kind: Kind)
    ensures Says(s, Respond(s, kind), [Line(kind, ReceivedCseq(s))])
  {
    TellOne(s.sent, Line(kind, ReceivedCseq(s)), Destined(s));
  }

  /** s and t are the same as far as Does looks. */
  predicate Like(s: State, t: State) {
    && t.sent == s.sent && t.callringing == s.callringing && t.callanswered == s.callanswered
    && t.callhungup == s.callhungup && Destined(t) == Destined(s)
  }

  lemma Carried(s: State, r: State, t: State, u: State, lines: seq<Line>, rung: bool, answered: bool, hungup: bool)
    requires Like(s, r) && Like(t, u) && Does(s, t, lines, rung, answered, hungup)
    ensures Does(r, u, lines, rung, answered, hungup)
  {
  }

  lemma ControlIsLike(s: State, known: bool)
    ensures Like(s, UpdateControl(s, known)) && Like(s, Untrack(UpdateControl(s, known)))
  {
    ControlOnly(s, known);
  }

  // ---- packets

  lemma SaysRefuse(s: State, pk: Packet)
    requires s.lastreceivedpk == Some(pk)
    ensures Says(s, Refuse(s), [Line(Challenge(403, s.challenges), pk.cseq)])
  {
    SaysChallenge(s, 403);
  }

  lemma SaysAccepted(s: State, pk: Packet, known: bool)
    requires s.lastreceivedpk == Some(pk)
    ensures Says(s, DoInvite(Accept(s, pk), pk, known), if pk.totag then [] else [Line(Trying, pk.cseq)])
  {
    var r := KeepInvite(Accept(s, pk), pk);
    var u := UpdateControl(r, known);
    ControlOnly(r, known);
    hide UpdateControl;
    if !pk.totag { SaysResponse(u, Trying); }
  }

  lemma SaysInviteAuth(s: State, pk: Packet, known: bool)
    requires s.lastreceivedpk == Some(pk)
    ensures Says(s, DoInviteAuth(s, pk, known), ForInvite(s, pk, false))
  {
    hide Refuse, DoInvite, Accept, Does;
    assert Says(s, s, []) by { NothingSaid(s); }
    SaysRefuse(s, pk);
    SaysAccepted(s, pk, known);
  }

  lemma NothingSaid(s: State)
    ensures Says(s, s, [])
  {
  }

  lemma SaysDemand(s: State, pk: Packet, next: NextState)
    requires s.lastreceivedpk == Some(pk)
    ensures Says(s, WaitForTimer(GoTo(SendChallenge(SetRetries(s, MAX_RETRIES), 401), next), Resend401),
                 [Line(Challenge(401, s.challenges), pk.cseq)])
  {
    SaysChallenge(SetRetries(s, MAX_RETRIES), 401);
  }

  lemma SaysInviteStart(s: State, pk: Packet, known: bool)
    requires s.lastreceivedpk == Some(pk)
    ensures Says(s, DoInviteStart(s, pk, known), ForInvite(s, pk, true))
  {
    hide DoInviteAuth, SendChallenge, Does;
    assert Heard(s, pk) == s;
    if pk.username { SaysInviteAuth(s, pk, known); } else { SaysDemand(s, pk, WaitForAckThenInviteAuth); }
  }

  lemma SaysReferAuth(s: State, pk: Packet, known: bool)
    requires s.lastreceivedpk == Some(pk) && pk.username
    ensures Says(s, ReferAuth(s, pk, known), Checked(s, pk, true, [Line(Accepted, pk.cseq)]))
  {
    SaysRefuse(s, pk);
    var u := SetRetries(UpdateControl(Authenticated(s), known), MAX_RETRIES);
    ControlOnly(Authenticated(s), known);
    hide UpdateControl, Refuse;
    SaysResponse(u, Accepted);
  }

  lemma SaysRefer(s: State, pk: Packet, known: bool)
    requires s.lastreceivedpk == Some(pk)
    ensures Says(s, HandleRefer(s, pk, known), Checked(s, pk, true, [Line(Accepted, pk.cseq)]))
  {
    hide ReferAuth, SendChallenge, Does;
    if pk.username { SaysReferAuth(s, pk, known); } else { SaysDemand(s, pk, WaitForAck); }
  }

  lemma TimedSays(s: State, t: State, h: Handler, lines: seq<Line>)
    requires Says(s, t, lines)
    ensures Says(s, WaitForTimer(t, h), lines)
  {
  }

  lemma SaysInstruction(s: State, pk: Packet, known: bool)
    requires s.lastreceivedpk == Some(pk) && s.nextstate == WaitForNextInstruction
    requires pk.verb != BYE && pk.verb != CANCEL
    ensures Says(s, DoWaitForNextInstruction(s, pk, known), ForPacket(s, pk))
  {
    hide DoInviteStart, HandleRefer, Does, SendTrying;
    assert Heard(s, pk) == s;
    if pk.verb == INVITE && s.callanswered && !s.callhungup { SaysInviteStart(s, pk, known); }
    else if pk.verb == INVITE { SaysTrying(s, pk); }
    else if pk.verb == REFER { SaysRefer(s, pk, known); }
    else { NothingSaid(s); }
    TimedSays(s, NextInstruction(s, pk, known), OnTimeoutEndDialog, ForPacket(s, pk));
  }

  lemma SaysTrying(s: State, pk: Packet)
    requires s.lastreceivedpk == Some(pk)
    ensures Says(s, SendTrying(s), [Line(Trying, pk.cseq)])
  {
    SaysResponse(s, Trying);
  }

  lemma SaysAcks(s: State, pk: Packet, known: bool)
    ensures Says(s, DoWaitForAckThenInviteAuth(s, pk), []) && Says(s, DoWaitForAck(s, pk, known), [])
    ensures Says(s, DoWaitForAckAndDie(s, pk, known), []) && Says(s, DoWaitFor200(s, pk), [])
    ensures Says(s, DoWaitFor200AndDie(s, pk, known), [])
  {
    AcksAreLike(s, pk, known);
    NothingSaid(s);
    hide Does, Like, DoWaitForAckThenInviteAuth, DoWaitForAck, DoWaitForAckAndDie, DoWaitFor200, DoWaitFor200AndDie;
    Carried(s, s, s, DoWaitForAckThenInviteAuth(s, pk), [], false, false, false);
    Carried(s, s, s, DoWaitForAck(s, pk, known), [], false, false, false);
    Carried(s, s, s, DoWaitForAckAndDie(s, pk, known), [], false, false, false);
    Carried(s, s, s, DoWaitFor200(s, pk), [], false, false, false);
    Carried(s, s, s, DoWaitFor200AndDie(s, pk, known), [], false, false, false);
  }

  lemma AcksAreLike(s: State, pk: Packet, known: bool)
    ensures Like(s, s) && Like(s, DoWaitForAckThenInviteAuth(s, pk)) && Like(s, DoWaitForAck(s, pk, known))
    ensures Like(s, DoWaitForAckAndDie(s, pk, known)) && Like(s, DoWaitFor200(s, pk))
    ensures Like(s, DoWaitFor200AndDie(s, pk, known))
  {
    var established := CancelTimer(KeepAck(LearnTag(GoTo(s, WaitForNextInstruction), pk.fromtag), pk.cseq));
    FieldsAreLike(s, pk);
    hide CancelTimer, KeepAck, LearnTag, GoTo, UpdateControl, Untrack;
    ToldIsLike(s, established, known);
    ToldIsLike(s, KeepAck(s, pk.cseq), known);
    ToldIsLike(s, s, known);
  }

  lemma FieldsAreLike(s: State, pk: Packet)
    ensures Like(s, s) && Like(s, KeepAck(s, pk.cseq))
    ensures Like(s, GoTo(CancelTimer(KeepAck(s, pk.cseq)), InviteAuth))
    ensures Like(s, LearnTag(CancelTimer(GoTo(s, WaitForNextInstruction)), pk.totag))
    ensures Like(s, CancelTimer(KeepAck(LearnTag(GoTo(s, WaitForNextInstruction), pk.fromtag), pk.cseq)))
  {
    var a, l := KeepAck(s, pk.cseq), GoTo(s, WaitForNextInstruction);
    SettersAreLike(s, pk);
    SettersAreLike(a, pk);
    SettersAreLike(CancelTimer(a), pk);
    SettersAreLike(l, pk);
    SettersAreLike(CancelTimer(l), pk);
    SettersAreLike(LearnTag(l, pk.fromtag), pk);
    SettersAreLike(KeepAck(LearnTag(l, pk.fromtag), pk.cseq), pk);
    hide KeepAck, GoTo, CancelTimer, LearnTag, Destined;
  }

  lemma SettersAreLike(s: State, pk: Packet)
    ensures Like(s, s) && Like(s, KeepAck(s, pk.cseq)) && Like(s, CancelTimer(s))
    ensures forall next :: Like(s, GoTo(s, next))
    ensures forall tag :: Like(s, LearnTag(s, tag))
  {
  }

  lemma ToldIsLike(s: State, t: State, known: bool)
    requires Like(s, t)
    ensures Like(s, UpdateControl(t, known)) && Like(s, Untrack(UpdateControl(t, known)))
  {
    ControlIsLike(t, known);
  }

  lemma SaysAck(s: State)
    ensures Says(s, SendAck(s), [Line(Ack, s.cseq)])
  {
    TellOne(s.sent, Line(Ack, s.cseq), Destined(s));
  }

  lemma SaysEndOfCall(s: State, pk: Packet, known: bool)
    ensures Says(s, DoWaitFor200ThenAckAndDie(s, pk, known), if Status(pk) == 200 || Status(pk) == 481 then [Line(Ack, s.cseq)] else [])
  {
    SaysAck(s);
    ControlOnly(SendAck(s), known);
    hide UpdateControl, SendAck;
  }

  lemma DoesFirst(s: State, pk: Packet, known: bool)
    requires s.nextstate == WaitForInviteProgress && pk.verb != BYE && pk.verb != CANCEL
    ensures var e := Event.Packet(pk, known);
      Does(s, DoWaitForInviteProgress(s, pk, known), ForPacket(s, pk), Rings(s, e), IsAnswered(s, e), HangsUp(s, e))
  {
    FlagsDo(s, pk.totag);
    NothingSaid(s);
    if Status(pk) == 401 || Status(pk) == 407 { DoesRetry(s); }
    var answered := GoTo(LearnTag(Authenticated(Answered(s)), pk.totag), WaitForNextInstruction);
    hide Does, UpdateControl, SendAck, SendInvite, RingingNow, HungUp, Answered, Authenticated, LearnTag, GoTo;
    if Status(pk) == 180 {
      ToldFlag(s, RingingNow(s), known, [], true, false, false);
    } else if Status(pk) == 200 {
      AckedFlag(s, answered, known, false, true, false);
    } else if Failed(Status(pk)) && !Challenges(s, pk) {
      ToldFlag(s, HungUp(s), known, [], false, false, true);
    }
  }

  lemma FlagsDo(s: State, totag: bool)
    ensures Does(s, RingingNow(s), [], true, false, false) && Does(s, HungUp(s), [], false, false, true)
    ensures var t := GoTo(LearnTag(Authenticated(Answered(s)), totag), WaitForNextInstruction);
      Does(s, t, [], false, true, false) && t.cseq == s.cseq && Destined(t) == Destined(s)
    ensures var t := LearnTag(Answered(s), totag);
      Does(s, t, [], false, true, false) && t.cseq == s.cseq && Destined(t) == Destined(s)
  {
    AnsweredDoes(s, totag);
    hide GoTo, LearnTag, Authenticated, Answered;
  }

  lemma AnsweredDoes(s: State, totag: bool)
    ensures var t := GoTo(LearnTag(Authenticated(Answered(s)), totag), WaitForNextInstruction);
      t == s.(callanswered := true, authenticated := true, theirtag := s.theirtag || totag, nextstate := WaitForNextInstruction)
    ensures LearnTag(Answered(s), totag) == s.(callanswered := true, theirtag := s.theirtag || totag)
  {
  }

  /** Flags set, and control told. */
  lemma ToldFlag(s: State, t: State, known: bool, lines: seq<Line>, rung: bool, answered: bool, hungup: bool)
    requires Does(s, t, lines, rung, answered, hungup)
    ensures Does(s, UpdateControl(t, known), lines, rung, answered, hungup)
  {
    ControlIsLike(t, known);
    hide UpdateControl;
    Carried(s, s, t, UpdateControl(t, known), lines, rung, answered, hungup);
  }

  /** Flags set, an ACK sent, and control told. */
  lemma AckedFlag(s: State, t: State, known: bool, rung: bool, answered: bool, hungup: bool)
    requires Does(s, t, [], rung, answered, hungup) && t.cseq == s.cseq && Destined(t) == Destined(s)
    ensures Does(s, UpdateControl(SendAck(t), known), [Line(Ack, s.cseq)], rung, answered, hungup)
  {
    SaysAck(t);
    ToldFlag(s, SendAck(t), known, [Line(Ack, s.cseq)], rung, answered, hungup);
  }

  lemma DoesRetry(s: State)
    ensures Says(s, SendInvite(SendAck(s), true), [Line(Ack, s.cseq), Line(Invite, Next32(Next32(s.cseq)))])
  {
    TellTwo(s.sent, Line(Ack, s.cseq), Line(Invite, Next32(Next32(s.cseq))), Destined(s));
  }

  lemma DoesSecond(s: State, pk: Packet, known: bool)
    requires s.nextstate == WaitForInviteProgressAfterAuth && pk.verb != BYE && pk.verb != CANCEL
    ensures var e := Event.Packet(pk, known);
      Does(s, DoWaitForInviteProgressAfterAuth(s, pk, known), ForPacket(s, pk), Rings(s, e), IsAnswered(s, e), HangsUp(s, e))
  {
    FlagsDo(s, pk.totag);
    NothingSaid(s);
    FailedDoes(s);
    hide Does, UpdateControl, SendAck, RingingNow, HungUp, Answered, LearnTag;
    if Status(pk) == 180 {
      ToldFlag(s, RingingNow(s), known, [], true, false, false);
    } else if Status(pk) == 200 {
      AckedFlag(s, LearnTag(Answered(s), pk.totag), known, false, true, false);
    } else if Failed(Status(pk)) {
      ToldFlag(s, HungUp(SendAck(s)), known, [Line(Ack, s.cseq)], false, false, true);
    }
  }

  lemma FailedDoes(s: State)
    ensures Does(s, HungUp(SendAck(s)), [Line(Ack, s.cseq)], false, false, true)
  {
    SaysAck(s);
  }

  lemma DoesBye(s: State, pk: Packet, known: bool)
    requires s.lastreceivedpk == Some(pk)
    ensures Does(s, HandleBye(s, pk, known), ForBye200(pk), false, false, true)
  {
    var r := Heard(HungUp(s), pk);
    SaysResponse(r, Ok(ForBye));
    ControlOnly(Send200(r, ForBye), known);
    hide UpdateControl, Respond;
  }

  lemma ReceiveDoes(s: State, pk: Packet, known: bool)
    ensures var e := Event.Packet(pk, known);
      Does(s, Receive(s, pk, known), ForPacket(s, pk), Rings(s, e), IsAnswered(s, e), HangsUp(s, e))
  {
    var h := Heard(s, pk);
    hide Does, HandleBye, DoInviteStart, DoInviteAuth, DoWaitForNextInstruction, DoWaitForAck, DoWaitForAckAndDie, DoWaitFor200,
      DoWaitFor200AndDie, DoWaitFor200ThenAckAndDie, DoWaitForInviteProgress, DoWaitForInviteProgressAfterAuth,
      DoWaitForAckThenInviteAuth, ForInvite, Checked;
    SameFromHere(s, pk, known);
    if pk.verb == BYE || pk.verb == CANCEL { DoesBye(h, pk, known); }
    else {
      SaysAcks(h, pk, known);
      match s.nextstate {
        case InviteStart => SaysInviteStart(h, pk, known);
        case InviteAuth => SaysInviteAuth(h, pk, known);
        case WaitForNextInstruction => SaysInstruction(h, pk, known);
        case WaitForInviteProgress => DoesFirst(h, pk, known);
        case WaitForInviteProgressAfterAuth => DoesSecond(h, pk, known);
        case WaitFor200ThenAckAndDie => SaysEndOfCall(h, pk, known);
        case _ =>
      }
    }
  }

  /** Only what was received last is new, and that makes no difference to any of this. */
  lemma SameFromHere(s: State, pk: Packet, known: bool)
    ensures ForPacket(Heard(s, pk), pk) == ForPacket(s, pk)
    ensures var e, h := Event.Packet(pk, known), Heard(s, pk);
      Rings(h, e) == Rings(s, e) && IsAnswered(h, e) == IsAnswered(s, e) && HangsUp(h, e) == HangsUp(s, e)
    ensures forall t, lines, rung, answered, hungup ::
      Does(Heard(s, pk), t, lines, rung, answered, hungup) ==> Does(s, t, lines, rung, answered, hungup)
  {
  }

  // ---- timer, replies and requests

  lemma AgainSays(s: State, h: Handler, known: bool)
    requires s.retries != 0
    ensures Says(s, Handle(s, h, known), Resent(s, h))
  {
    hide Does, SendBye, SendCancel, SendNotify, Respond, SendChallenge;
    match h {
      case OnTimeoutEndDialog => NothingSaid(s); AgainLike(s, s); Carried(s, s, s, Untrack(s), [], false, false, false);
      case OnTimeout486AndEndDialog => UnavailableSays(s);
      case Resend200 => SaysResponse(s, Ok(Again)); Counted(s, Respond(s, Ok(Again)), Send200(s, Again), Resend200, Resent(s, h));
      case Resend401 => SaysChallenge(s, 401); Counted(s, SendChallenge(s, 401), SendChallenge(s, 401), Resend401, Resent(s, h));
      case ResendError => SaysResponse(s, Error); Counted(s, Respond(s, Error), SendError(s), ResendError, Resent(s, h));
      case ResendBye => SaysBye(s); Counted(s, SendBye(s), SendBye(s), ResendBye, Resent(s, h));
      case ResendCancel => SaysCancel(s); Counted(s, SendCancel(s), SendCancel(s), ResendBye, Resent(s, h));
      case ResendNotify => SaysNotify(s); Counted(s, SendNotify(s), SendNotify(s), ResendNotify, Resent(s, h));
    }
  }

  lemma AgainLike(s: State, t: State)
    requires Like(s, t) || s == t
    ensures Like(s, Untrack(t)) && Like(s, CancelTimer(t)) && Like(s, s)
  {
  }

  lemma UnavailableSays(s: State)
    ensures Says(s, TemporaryUnavailable(s), [Line(Unavailable, ReceivedCseq(s))])
  {
    SaysResponse(s, Unavailable);
  }

  /** Sent again, counted down and armed again. */
  lemma Counted(s: State, t: State, u: State, h: Handler, lines: seq<Line>)
    requires Says(s, t, lines) && Like(t, u)
    ensures Says(s, WaitForTimer(CountDown(u), h), lines)
  {
  }

  lemma FireSays(s: State, known: bool)
    ensures Says(s, Fire(s, known), ForTimer(s))
  {
    if s.timer.Some? {
      var r, h := CancelTimer(s), s.timer.value;
      AgainLike(s, s);
      assert Like(r, s);
      hide Does, Like;
      if h == OnTimeout486AndEndDialog {
        UnavailableSays(r);
        CarriedBack(s, r, TemporaryUnavailable(r), ForTimer(s));
      } else if s.retries == 0 {
        GivesUp(r, h, known);
        CarriedBack(s, r, Handle(r, h, known), []);
      } else {
        AgainSays(r, h, known);
        CarriedBack(s, r, Handle(r, h, known), ForTimer(s));
      }
    } else {
      NothingSaid(s);
    }
  }

  lemma CarriedBack(s: State, r: State, t: State, lines: seq<Line>)
    requires Like(r, s) && Says(r, t, lines)
    ensures Says(s, t, lines)
  {
  }

  lemma GivesUp(s: State, h: Handler, known: bool)
    requires s.retries == 0 && h != OnTimeout486AndEndDialog
    ensures Says(s, Handle(s, h, known), [])
  {
    ControlIsLike(s, known);
    NothingSaid(s);
    hide UpdateControl;
    Carried(s, s, s, Untrack(s), [], false, false, false);
    Carried(s, s, s, Untrack(UpdateControl(s, known)), [], false, false, false);
  }

  lemma RequestDoes(s: State, action: Action)
    ensures var e := Request(action);
      Does(s, Put(s, action), ForRequest(s, action), Rings(s, e), IsAnswered(s, e), HangsUp(s, e))
  {
    var r := SetRetries(s, MAX_RETRIES);
    assert Like(r, s) && Like(s, s);
    match action {
      case PutRing => RingDoes(s);
      case PutAnswer => AnswerDoes(r); SameForRetries(s, DoAnswer(r), PutAnswer);
      case PutOk => OkSays(r); SameForRetries(s, DoOk(r), PutOk);
      case PutHangup => HangupDoes(r); SameForRetries(s, DoHangup(r), PutHangup);
      case PutNotify => NotifySays(s);
      case PutInvite(reachable) => InviteSays(s, reachable);
    }
  }

  lemma SameForRetries(s: State, t: State, action: Action)
    requires action.PutAnswer? || action.PutOk? || action.PutHangup?
    requires var r, e := SetRetries(s, MAX_RETRIES), Request(action);
      Does(r, t, ForRequest(r, action), Rings(r, e), IsAnswered(r, e), HangsUp(r, e))
    ensures var e := Request(action); Does(s, t, ForRequest(s, action), Rings(s, e), IsAnswered(s, e), HangsUp(s, e))
  {
    var r := SetRetries(s, MAX_RETRIES);
    assert ForRequest(r, action) == ForRequest(s, action);
  }

  lemma AnswerDoes(s: State)
    ensures Does(s, DoAnswer(s), ForRequest(s, PutAnswer), false, true, false)
  {
    var r := SetRetries(s, MAX_RETRIES);
    SaysResponse(r, Ok(ForAnswer));
    hide Respond;
  }

  lemma OkSays(s: State)
    ensures Says(s, DoOk(s), ForRequest(s, PutOk))
  {
    var r := SetRetries(s, MAX_RETRIES);
    SaysResponse(r, Ok(ForOk));
    hide Respond;
  }

  lemma NotifySays(s: State)
    ensures Says(s, DoNotify(s), ForRequest(s, PutNotify))
  {
    SaysNotify(SetCseq(s, Next32(s.cseq)));
    hide SendNotify;
  }

  lemma RingDoes(s: State)
    ensures Does(s, DoRinging(s), ForRequest(s, PutRing), Rings(s, Request(PutRing)), false, false)
  {
    if !s.callringing && !s.callanswered && !s.callhungup && s.invitepk.Some? {
      TellOne(s.sent, Line(Ringing, s.invitepk.value), Destined(s));
    }
  }

  lemma HangupDoes(s: State)
    ensures Does(s, DoHangup(s), ForRequest(s, PutHangup), false, false, true)
  {
    var h := HungUp(s);
    SaysBye(h);
    SaysCancel(h);
    SaysResponse(SetRetries(h, MAX_RETRIES), Error);
    hide SendBye, SendCancel, Respond;
  }

  lemma InviteSays(s: State, reachable: bool)
    ensures Says(s, SendInvite(s, reachable), ForRequest(s, PutInvite(reachable)))
  {
    var r := SetCseq(s, Next32(s.cseq));
    InviteLineSaid(s, if Challenged(s) then WaitForInviteProgressAfterAuth else WaitForInviteProgress);
    hide SendPk, InviteSent;
    assert Destined(r) == Destined(s);
  }

  lemma InviteLineSaid(s: State, next: NextState)
    ensures var n := Next32(s.cseq); Says(s, InviteSent(SendPk(SetCseq(s, n), Invite, n), next), [Line(Invite, n)])
    ensures Says(s, Untrack(SetCseq(s, Next32(s.cseq))), [])
  {
    TellOne(s.sent, Line(Invite, Next32(s.cseq)), Destined(s));
  }

  lemma ReplySays(s: State, success: bool)
    ensures Says(s, Callback(s, success), Lines(s, Reply(success)))
  {
    NothingSaid(s);
    if s.requests > 0 {
      UnavailableSays(ReplyArrived(s));
      hide TemporaryUnavailable;
    }
  }

  /** Each event sends exactly its lines and sets exactly its flags, whatever the state. */
  lemma StepDoes(s: State, e: Event)
    requires s.tracked
    ensures Does(s, Step(s, e), Lines(s, e), Rings(s, e), IsAnswered(s, e), HangsUp(s, e))
  {
    hide Does, Receive, Fire, Put, Callback, Rings, IsAnswered, HangsUp, ForPacket, ForTimer, ForRequest;
    match e
    case Packet(pk, known) => ReceiveDoes(s, pk, known);
    case Timer(known) => FireSays(s, known); NoFlags(s, e);
    case Reply(success) => ReplySays(s, success); NoFlags(s, e);
    case Request(action) => RequestDoes(s, action);
  }

  lemma NoFlags(s: State, e: Event)
    requires e.Timer? || e.Reply?
    ensures !Rings(s, e) && !IsAnswered(s, e) && !HangsUp(s, e)
  {
  }
}
