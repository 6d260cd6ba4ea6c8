// Which CSeq the ACKs of a dialog carry, for packets, timers, replies and control
// requests in any order.

module SipOutbound {
  import opened Common
  import opened SipDialog
  import opened SipDialogRuns

  // ---- what the log says

  /** The CSeq of the latest INVITE; zero without one. */
  function LastInvite(log: Log): u32 {
    match log
    case Nothing => 0
    case Then(before, x) => if x.kind == Invite then x.cseq else LastInvite(before)
  }

  /** How many ACKs since the latest INVITE. */
  function AcksSince(log: Log): nat {
    match log
    case Nothing => 0
    case Then(before, x) =>
      if x.kind == Invite then 0 else AcksSince(before) + (if x.kind == Ack then 1 else 0)
  }

  /** The CSeq of the latest CANCEL since the latest INVITE. */
  function CancelSince(log: Log): Option<u32> {
    match log
    case Nothing => None
    case Then(before, x) =>
      if x.kind == Invite then None else if x.kind == Cancel then Some(x.cseq) else CancelSince(before)
  }

  function Plus32(n: u32, k: nat): u32 { (n + k) % U32_RANGE }

  /** The number the next ACK will have: the CANCEL's, or on from the INVITE's by the ACKs
      already sent for it. */
  function AckNumber(log: Log): u32 {
    match CancelSince(log)
    case Some(n) => n
    case None => Plus32(LastInvite(log), AcksSince(log))
  }

  ghost predicate AcksNumbered(log: Log) {
    log.Then? ==> AcksNumbered(log.before) && (log.last.kind == Ack ==> log.last.cseq == AckNumber(log.before))
  }

  /** Every ACK carries the CSeq of the INVITE it answers. */
  ghost predicate AcksMatch(log: Log) {
    log.Then? ==> AcksMatch(log.before) && (log.last.kind == Ack ==> log.last.cseq == LastInvite(log.before))
  }

  /** The next ACK is the first for its INVITE (modulo 2^32), or follows a CANCEL that had
      the INVITE's own number. */
  predicate NextAckRight(log: Log) {
    match CancelSince(log)
    case Some(n) => n == LastInvite(log)
    case None => AcksSince(log) % U32_RANGE == 0
  }

  ghost predicate AcksRight(log: Log) {
    log.Then? ==> AcksRight(log.before) && (log.last.kind == Ack ==> NextAckRight(log.before))
  }

  lemma NumberedOn(n: u32, k: nat)
    ensures Plus32(n, k) == n <==> k % U32_RANGE == 0
  {
    var q, r := k / U32_RANGE, k % U32_RANGE;
    assert n + k == (n + r) + U32_RANGE * q;
    assert Plus32(n, k) == (n + r) % U32_RANGE;
  }

  lemma NextMatchesIff(log: Log)
    ensures AckNumber(log) == LastInvite(log) <==> NextAckRight(log)
  {
    NumberedOn(LastInvite(log), AcksSince(log));
  }

  lemma {:induction false} MatchIff(log: Log)
    requires AcksNumbered(log)
    ensures AcksMatch(log) <==> AcksRight(log)
    decreases log
  {
    if log.Then? {
      MatchIff(log.before);
      NextMatchesIff(log.before);
    }
  }

  // ---- what one step can do

  /** The states in which an ACK may be sent. */
  predicate Answering(s: State) {
    s.nextstate == WaitForInviteProgress || s.nextstate == WaitForInviteProgressAfterAuth
    || s.nextstate == WaitFor200ThenAckAndDie
  }

  predicate Sends(s: State, t: State, kind: Kind, cseq: u32) {
    t.sent.Then? && t.sent.before == s.sent && t.sent.last.kind == kind && t.sent.last.cseq == cseq
  }

  /** No INVITE, ACK or CANCEL, and no such state is entered nor its number changed. */
  ghost predicate Calm(s: State, t: State) {
    && (t.tracked && Answering(t) ==> t.nextstate == s.nextstate && t.cseq == s.cseq)
    && (t.sent == s.sent
        || (t.sent.Then? && t.sent.before == s.sent
            && t.sent.last.kind != Invite && t.sent.last.kind != Ack && t.sent.last.kind != Cancel))
  }

  ghost predicate Cancelled(s: State, t: State) {
    && Sends(s, t, Cancel, Next32(ReceivedCseq(s)))
    && t.cseq == Next32(ReceivedCseq(s)) && t.nextstate == WaitFor200ThenAckAndDie
  }

  ghost predicate Invited(s: State, t: State) {
    && Sends(s, t, Invite, Next32(s.cseq)) && t.cseq == Next32(s.cseq)
    && t.nextstate != WaitFor200ThenAckAndDie
  }

  ghost predicate Acked(s: State, t: State) {
    && Sends(s, t, Ack, s.cseq)
    && (t.tracked && Answering(t) ==>
          s.nextstate == t.nextstate == WaitForInviteProgressAfterAuth && t.cseq == Next32(s.cseq))
  }

  /** An ACK, and an INVITE with credentials. */
  ghost predicate Retried(s: State, t: State) {
    && t.sent.Then? && t.sent.before.Then? && t.sent.before.before == s.sent
    && t.sent.before.last.kind == Ack && t.sent.before.last.cseq == s.cseq
    && t.sent.last.kind == Invite && t.sent.last.cseq == t.cseq == Next32(Next32(s.cseq))
    && t.nextstate == WaitForInviteProgressAfterAuth
  }

  predicate Challenges(s: State, pk: Packet) {
    s.nextstate == WaitForInviteProgress && (Status(pk) == 401 || Status(pk) == 407)
  }

  /** A final response that is not a challenge to the first INVITE. */
  predicate Final(s: State, pk: Packet) { Status(pk) >= 200 && !Challenges(s, pk) }

  /** What each kind of event can do to a dialog in the container. */
  ghost predicate StepKind(s: State, t: State, e: Event) {
    match e
    case Packet(pk, _) =>
      if Challenges(s, pk) then Retried(s, t)
      else Calm(s, t) || (Acked(s, t) && Answering(s) && Final(s, pk))
    case Timer(_) => Calm(s, t) || Cancelled(s, t)
    case Reply(_) => Calm(s, t)
    case Request(action) => Calm(s, t) || (if action.PutInvite? then Invited(s, t) else action.PutHangup? && Cancelled(s, t))
  }

  /** Telling the control server changes nothing of this. */
  lemma UpdateKeeps(s: State, known: bool)
    ensures var t := UpdateControl(s, known);
      && t.sent == s.sent && t.nextstate == s.nextstate && t.cseq == s.cseq && t.callhungup == s.callhungup
      && (t.tracked ==> s.tracked) && (s.tracked && !s.callhungup ==> t.tracked)
  {
    if s.control || known {} else if s.callhungup {} else {}
  }

  // ---- timer, replies and control requests

  lemma CalmBye(s: State)
    ensures Calm(s, SendBye(s))
  {
    if s.theirtag && s.ackpk.Some? {
      var n := Next32(s.ackpk.value);
      assert SendBye(s).sent == Then(s.sent, Sent(Bye, n, Destined(s)));
    }
  }

  lemma CancelSent(s: State)
    ensures if s.lastreceivedpk.None? then SendCancel(s) == s else Cancelled(s, SendCancel(s))
  {
    if s.lastreceivedpk.Some? {
      var n := Next32(ReceivedCseq(s));
      assert SendCancel(s).sent == Then(s.sent, Sent(Cancel, n, Destined(s)));
    }
  }

  lemma CalmNotify(s: State)
    ensures Calm(s, SendNotify(s))
  {
    if s.lastreceivedpk.Some? { assert SendNotify(s).sent == Then(s.sent, Sent(Notify, s.cseq, Destined(s))); }
  }

  lemma KindAgain(s: State, h: Handler, known: bool)
    requires s.retries != 0 && h != OnTimeoutEndDialog && h != OnTimeout486AndEndDialog
    ensures Calm(s, Handle(s, h, known)) || Cancelled(s, Handle(s, h, known))
  {
    hide SendBye, SendCancel, SendNotify;
    match h
    case Resend200 =>
    case Resend401 =>
    case ResendError =>
    case ResendBye => CalmBye(s);
    case ResendCancel => CancelSent(s);
    case ResendNotify => CalmNotify(s);
  }

  lemma KindHandle(s: State, h: Handler, known: bool)
    ensures Calm(s, Handle(s, h, known)) || Cancelled(s, Handle(s, h, known))
  {
    if h == OnTimeoutEndDialog || h == OnTimeout486AndEndDialog {
    } else if s.retries == 0 {
      UpdateKeeps(s, known);
    } else {
      KindAgain(s, h, known);
    }
  }

  lemma KindFire(s: State, known: bool)
    ensures Calm(s, Fire(s, known)) || Cancelled(s, Fire(s, known))
  {
    if s.timer.Some? { KindHandle(CancelTimer(s), s.timer.value, known); }
  }

  lemma CalmCallback(s: State, success: bool)
    ensures Calm(s, Callback(s, success))
  {
    if s.requests > 0 {}
  }

  lemma KindHangup(s: State)
    ensures Calm(s, DoHangup(s)) || Cancelled(s, DoHangup(s))
  {
    hide SendBye, SendCancel;
    CalmBye(HungUp(s));
    CancelSent(HungUp(s));
  }

  lemma CalmNotified(s: State)
    ensures Calm(s, DoNotify(s))
  {
    hide SendNotify;
    CalmNotify(SetCseq(s, Next32(s.cseq)));
  }

  lemma KindInvite(s: State, reachable: bool)
    ensures Calm(s, SendInvite(s, reachable)) || Invited(s, SendInvite(s, reachable))
  {
    if !(Destined(s) == CalledUser && !reachable) {
      assert SendInvite(s, reachable).sent == Then(s.sent, Sent(Invite, Next32(s.cseq), Destined(s)));
    }
  }

  lemma KindPut(s: State, action: Action)
    ensures StepKind(s, Put(s, action), Request(action))
  {
    hide DoHangup, DoNotify, SendInvite;
    match action
    case PutRing =>
    case PutAnswer =>
    case PutOk =>
    case PutHangup => KindHangup(SetRetries(s, MAX_RETRIES));
    case PutNotify => CalmNotified(s);
    case PutInvite(reachable) => KindInvite(s, reachable);
  }

  // ---- packets

  lemma CalmChallenge(s: State, status: int, next: NextState, h: Handler)
    requires next == WaitForAck || next == WaitForAckThenInviteAuth
    ensures Calm(s, WaitForTimer(GoTo(SendChallenge(SetRetries(s, MAX_RETRIES), status), next), h))
    ensures Calm(s, Refuse(s))
  {
    var x := Sent(Challenge(status, s.challenges), ReceivedCseq(s), Destined(s));
    assert SendChallenge(SetRetries(s, MAX_RETRIES), status).sent == Then(s.sent, x);
  }

  lemma CalmAccepted(s: State, pk: Packet, known: bool)
    requires !Answering(s)
    ensures Calm(s, DoInvite(Accept(s, pk), pk, known))
  {
    var u := UpdateControl(KeepInvite(Accept(s, pk), pk), known);
    UpdateKeeps(KeepInvite(Accept(s, pk), pk), known);
    assert u.sent == s.sent && u.nextstate == s.nextstate;
    hide UpdateControl;
    if !pk.totag { assert SendTrying(u).sent == Then(u.sent, Sent(Trying, ReceivedCseq(u), Destined(u))); }
  }

  lemma CalmInviteAuth(s: State, pk: Packet, known: bool)
    requires !Answering(s)
    ensures Calm(s, DoInviteAuth(s, pk, known))
  {
    hide Refuse, DoInvite;
    CalmChallenge(s, 401, WaitForAck, Resend401);
    CalmAccepted(s, pk, known);
  }

  lemma CalmInviteStart(s: State, pk: Packet, known: bool)
    requires !Answering(s)
    ensures Calm(s, DoInviteStart(s, pk, known))
  {
    hide Refuse, DoInviteAuth, SendChallenge;
    CalmChallenge(Heard(s, pk), 401, WaitForAckThenInviteAuth, Resend401);
    CalmInviteAuth(Heard(s, pk), pk, known);
  }

  lemma CalmReferAuth(s: State, pk: Packet, known: bool)
    requires !Answering(s)
    ensures Calm(s, ReferAuth(s, pk, known))
  {
    CalmChallenge(s, 401, WaitForAck, Resend401);
    UpdateKeeps(Authenticated(s), known);
    var u := SetRetries(UpdateControl(Authenticated(s), known), MAX_RETRIES);
    hide UpdateControl, Refuse;
    assert Respond(u, Accepted).sent == Then(s.sent, Sent(Accepted, ReceivedCseq(u), Destined(u)));
  }

  lemma CalmRefer(s: State, pk: Packet, known: bool)
    requires !Answering(s)
    ensures Calm(s, HandleRefer(s, pk, known))
  {
    hide ReferAuth, SendChallenge;
    CalmChallenge(s, 401, WaitForAck, Resend401);
    CalmReferAuth(s, pk, known);
  }

  lemma CalmInstruction(s: State, pk: Packet, known: bool)
    requires !Answering(s)
    ensures Calm(s, DoWaitForNextInstruction(s, pk, known))
  {
    hide DoInviteStart, HandleRefer;
    CalmInviteStart(Heard(s, pk), pk, known);
    CalmRefer(Heard(s, pk), pk, known);
  }

  lemma CalmAck(s: State, pk: Packet, known: bool)
    requires !Answering(s)
    ensures Calm(s, DoWaitForAckThenInviteAuth(s, pk)) && Calm(s, DoWaitForAck(s, pk, known))
    ensures Calm(s, DoWaitForAckAndDie(s, pk, known))
  {
    hide UpdateControl;
    UpdateKeeps(CancelTimer(KeepAck(LearnTag(GoTo(s, WaitForNextInstruction), pk.fromtag), pk.cseq)), known);
    UpdateKeeps(KeepAck(s, pk.cseq), known);
  }

  lemma CalmFinished(s: State, pk: Packet, known: bool)
    requires !Answering(s)
    ensures Calm(s, DoWaitFor200(s, pk)) && Calm(s, DoWaitFor200AndDie(s, pk, known))
  {
    hide UpdateControl;
    UpdateKeeps(s, known);
  }

  lemma AckedThenUntracked(s: State, pk: Packet, known: bool)
    ensures var t := DoWaitFor200ThenAckAndDie(s, pk, known);
      if Finished(pk) then Acked(s, t) && !t.tracked else t == s
  {
    hide UpdateControl;
    UpdateKeeps(SendAck(s), known);
  }

  lemma KindSecond(s: State, pk: Packet, known: bool)
    requires s.nextstate == WaitForInviteProgressAfterAuth
    ensures var t := DoWaitForInviteProgressAfterAuth(s, pk, known);
      if Status(pk) == 200 || Failed(Status(pk)) then Acked(s, t) else Calm(s, t)
  {
    hide UpdateControl;
    UpdateKeeps(RingingNow(s), known);
    UpdateKeeps(SendAck(LearnTag(Answered(s), pk.totag)), known);
    UpdateKeeps(HungUp(SendAck(s)), known);
  }

  lemma KindFirst(s: State, pk: Packet, known: bool)
    requires s.nextstate == WaitForInviteProgress && !Challenges(s, pk)
    ensures var t := DoWaitForInviteProgress(s, pk, known);
      if Status(pk) == 200 then Acked(s, t) else Calm(s, t)
  {
    hide UpdateControl;
    UpdateKeeps(RingingNow(s), known);
    UpdateKeeps(HungUp(s), known);
    UpdateKeeps(SendAck(GoTo(LearnTag(Authenticated(Answered(s)), pk.totag), WaitForNextInstruction)), known);
  }

  /** The challenge of the first INVITE. */
  lemma ChallengeRetried(s: State, pk: Packet, known: bool)
    requires Challenges(s, pk)
    ensures var t := Receive(s, pk, known);
      Retried(s, t) && t.tracked == s.tracked && t.callhungup == s.callhungup
  {
    var h := Heard(s, pk);
    var a := SendAck(h);
    var t := SendInvite(a, true);
    assert pk.verb == RESPONSE && Receive(s, pk, known) == t;
    assert a.sent == Then(s.sent, Sent(Ack, s.cseq, Destined(h)));
    assert t.sent == Then(a.sent, Sent(Invite, Next32(a.cseq), Destined(a)));
  }

  lemma CalmHandleBye(s: State, pk: Packet, known: bool)
    ensures Calm(s, HandleBye(s, pk, known))
  {
    hide UpdateControl;
    UpdateKeeps(Send200(Heard(HungUp(s), pk), ForBye), known);
  }

  lemma KindReceive(s: State, pk: Packet, known: bool)
    requires !Challenges(s, pk)
    ensures StepKind(s, Receive(s, pk, known), Event.Packet(pk, known))
  {
    hide UpdateControl, HandleBye, DoInviteStart, DoWaitForAckThenInviteAuth, DoInviteAuth, DoWaitForNextInstruction,
         DoWaitForAck, DoWaitForAckAndDie, DoWaitFor200, DoWaitFor200AndDie, DoWaitFor200ThenAckAndDie,
         DoWaitForInviteProgress, DoWaitForInviteProgressAfterAuth;
    var h := Heard(s, pk);
    if pk.verb == BYE || pk.verb == CANCEL {
      CalmHandleBye(h, pk, known);
    } else {
      match h.nextstate
      case InviteStart => CalmInviteStart(h, pk, known);
      case WaitForAckThenInviteAuth => CalmAck(h, pk, known);
      case InviteAuth => CalmInviteAuth(h, pk, known);
      case WaitForNextInstruction => CalmInstruction(h, pk, known);
      case WaitForAck => CalmAck(h, pk, known);
      case WaitForAckAndDie => CalmAck(h, pk, known);
      case WaitFor200 => CalmFinished(h, pk, known);
      case WaitFor200AndDie => CalmFinished(h, pk, known);
      case WaitFor200ThenAckAndDie => AckedThenUntracked(h, pk, known);
      case WaitForInviteProgress => KindFirst(h, pk, known);
      case WaitForInviteProgressAfterAuth => KindSecond(h, pk, known);
    }
  }

  /** Every step of every dialog in the container. */
  lemma StepHasKind(s: State, e: Event)
    requires s.tracked
    ensures StepKind(s, Step(s, e), e)
  {
    hide Receive, Fire, Callback, Put, Calm, Cancelled, Acked, Retried, Invited;
    match e
    case Packet(pk, known) => if Challenges(s, pk) { ChallengeRetried(s, pk, known); } else { KindReceive(s, pk, known); }
    case Timer(known) => KindFire(s, known);
    case Reply(success) => CalmCallback(s, success);
    case Request(action) => KindPut(s, action);
  }

  // ---- the account of ACK numbers

  /** Where an ACK may be sent, the dialog's number is the one the log asks for. */
  ghost predicate Numbered(s: State) {
    && AcksNumbered(s.sent)
    && (s.tracked && Answering(s) ==>
          && s.cseq == AckNumber(s.sent)
          && (s.nextstate == WaitFor200ThenAckAndDie <==> CancelSince(s.sent).Some?)
          && (s.nextstate == WaitForInviteProgress ==> AcksSince(s.sent) == 0))
  }

  lemma CalmKeepsNumbers(s: State, t: State)
    requires Numbered(s) && Calm(s, t) && s.tracked
    ensures Numbered(t)
  {
  }

  lemma SendingKeepsNumbers(s: State, t: State)
    requires Numbered(s) && s.tracked && (Cancelled(s, t) || Invited(s, t) || (Acked(s, t) && Answering(s)))
    ensures Numbered(t)
  {
  }

  lemma RetryKeepsNumbers(s: State, t: State)
    requires Numbered(s) && s.tracked && s.nextstate == WaitForInviteProgress && Retried(s, t)
    ensures Numbered(t) && AcksSince(t.sent) == 0
  {
    var a := t.sent.before;
    assert AckNumber(s.sent) == s.cseq && AcksNumbered(a);
    assert AcksNumbered(t.sent) && AckNumber(t.sent) == t.cseq;
  }

  lemma StepKeepsNumbers(s: State, e: Event)
    requires Numbered(s)
    ensures Numbered(Step(s, e))
  {
    hide Step, Numbered, Calm, Cancelled, Acked, Retried, Invited;
    if s.tracked {
      var t := Step(s, e);
      StepHasKind(s, e);
      if Calm(s, t) { CalmKeepsNumbers(s, t); }
      else if e.Packet? && Challenges(s, e.pk) { RetryKeepsNumbers(s, t); }
      else { SendingKeepsNumbers(s, t); }
    } else {
      assert Step(s, e) == s by { StepUntracked(s, e); }
    }
  }

  lemma StepUntracked(s: State, e: Event)
    requires !s.tracked
    ensures Step(s, e) == s
  {
  }

  lemma {:induction false} NumberedAlways(o: Origin, es: seq<Event>)
    ensures Numbered(After(o, es))
  {
    hide Step, Start;
    if es == [] {
      StartIsAStep(o);
      StepKeepsNumbers(Origins(o), FirstEvent(o));
    } else {
      NumberedAlways(o, es[..|es| - 1]);
      StepKeepsNumbers(After(o, es[..|es| - 1]), es[|es| - 1]);
    }
  }

  /** Main result, over every run with every kind of event: all ACKs carry the CSeq of the
      INVITE they answer exactly when each is the first for its INVITE, or follows a
      CANCEL that had the INVITE's own CSeq. */
  lemma AcksMatchIff(o: Origin, es: seq<Event>)
    ensures AcksMatch(After(o, es).sent) <==> AcksRight(After(o, es).sent)
  {
    NumberedAlways(o, es);
    MatchIff(After(o, es).sent);
  }

  /** After the second INVITE each answer is acknowledged again, and the ACK carries the
      INVITE's CSeq exactly when none has been sent for it yet (modulo 2^32): an answer
      that is retransmitted gets an ACK with a CSeq of its own. */
  lemma SecondAckMatchesIff(o: Origin, es: seq<Event>, pk: Packet, known: bool)
    requires After(o, es).tracked && After(o, es).nextstate == WaitForInviteProgressAfterAuth
    requires Status(pk) == 200 || Failed(Status(pk))
    ensures var s, t := After(o, es), Step(After(o, es), Event.Packet(pk, known));
      && Sends(s, t, Ack, s.cseq)
      && (t.sent.last.cseq == LastInvite(s.sent) <==> AcksSince(s.sent) % U32_RANGE == 0)
  {
    var s := After(o, es);
    hide UpdateControl, DoWaitForInviteProgressAfterAuth;
    NumberedAlways(o, es);
    NextMatchesIff(s.sent);
    KindSecond(Heard(s, pk), pk, known);
  }

  // ---- hanging up during setup

  /** The CSeq of the packet received last when the latest CANCEL was sent. */
  ghost function ReceivedAtCancel(o: Origin, es: seq<Event>): u32 {
    if es == [] then 0
    else
      var s, e := After(o, es[..|es| - 1]), es[|es| - 1];
      if Cancelled(s, Step(s, e)) then ReceivedCseq(s) else ReceivedAtCancel(o, es[..|es| - 1])
  }

  lemma CancelStays(s: State, e: Event)
    requires s.tracked && !Cancelled(s, Step(s, e)) && CancelSince(Step(s, e).sent).Some?
    ensures CancelSince(s.sent) == CancelSince(Step(s, e).sent)
  {
    hide Step;
    StepHasKind(s, e);
  }

  lemma {:induction false} CancelNumber(o: Origin, es: seq<Event>)
    ensures CancelSince(After(o, es).sent).Some? ==>
      CancelSince(After(o, es).sent).value == Next32(ReceivedAtCancel(o, es))
  {
    hide Step, Start;
    if es == [] {
      StartIsAStep(o);
      StepHasKind(Origins(o), FirstEvent(o));
    } else {
      var s, e := After(o, es[..|es| - 1]), es[|es| - 1];
      CancelNumber(o, es[..|es| - 1]);
      if !s.tracked { StepUntracked(s, e); }
      else if !Cancelled(s, Step(s, e)) && CancelSince(Step(s, e).sent).Some? { CancelStays(s, e); }
    }
  }

  /** The ACK that ends a cancelled call carries the INVITE's CSeq exactly when that is one
      more than the CSeq of the packet received last before the CANCEL. */
  lemma CancelledAckMatchesIff(o: Origin, es: seq<Event>, pk: Packet, known: bool)
    requires After(o, es).tracked && After(o, es).nextstate == WaitFor200ThenAckAndDie && Finished(pk)
    ensures var s, t := After(o, es), Step(After(o, es), Event.Packet(pk, known));
      && Sends(s, t, Ack, s.cseq) && !t.tracked
      && (t.sent.last.cseq == LastInvite(s.sent) <==> Next32(ReceivedAtCancel(o, es)) == LastInvite(s.sent))
  {
    var s := After(o, es);
    hide UpdateControl, DoWaitFor200ThenAckAndDie, ReceivedAtCancel;
    NumberedAlways(o, es);
    CancelNumber(o, es);
    AckedThenUntracked(Heard(s, pk), pk, known);
  }

  /** So it never does when the packet before the CANCEL was a response to the INVITE: a
      hang-up in setup, after a provisional response, is acknowledged with a wrong CSeq. */
  lemma HangupMisnumbersTheAck(cseq: u32, control: bool, trying: Packet, answer: Packet, known: bool)
    requires 100 <= Status(trying) < 200 && trying.cseq == Next32(cseq) && Status(answer) == 200
    ensures var es := [Event.Packet(trying, known), Request(PutHangup), Event.Packet(answer, known)];
            var log := After(ByPost(cseq, control, true), es).sent;
            && Invitation(log, Next32(cseq), Next32(Next32(cseq)))
            && !AcksMatch(log)
  {
    var o := ByPost(cseq, control, true);
    var e1, e2, e3 := Event.Packet(trying, known), Request(PutHangup), Event.Packet(answer, known);
    ThreeSteps(o, e1, e2, e3);
    Begun(o);
    TryingHeard(Start(o), trying, known);
    var s1 := Step(Start(o), e1);
    HungUpInSetup(s1);
    var s2 := Step(s1, e2);
    EndOfCall(s2, answer, known);
    hide Step, Start;
    assert Invitation(Step(s2, e3).sent, Next32(cseq), Next32(Next32(cseq)));
    Misnumbered(Step(s2, e3).sent, cseq);
  }

  lemma ThreeSteps(o: Origin, e1: Event, e2: Event, e3: Event)
    ensures After(o, [e1, e2, e3]) == Step(Step(Step(Start(o), e1), e2), e3)
  {
    hide Step, Start;
    assert [e1, e2, e3][..2] == [e1, e2] && [e1, e2][..1] == [e1] && [e1][..0] == [];
    assert After(o, [e1]) == Step(After(o, []), e1);
    assert After(o, [e1, e2]) == Step(After(o, [e1]), e2);
  }

  lemma Misnumbered(log: Log, cseq: u32)
    requires Invitation(log, Next32(cseq), Next32(Next32(cseq)))
    ensures !AcksMatch(log)
  {
    assert LastInvite(log.before) == Next32(cseq);
  }

  /** An INVITE with one number, and a CANCEL and an ACK with another. */
  predicate Invitation(log: Log, invite: u32, other: u32) {
    && log.Then? && log.before.Then? && log.before.before.Then? && log.before.before.before.Nothing?
    && log.before.before.last.kind == Invite && log.before.before.last.cseq == invite
    && log.before.last.kind == Cancel && log.before.last.cseq == other
    && log.last.kind == Ack && log.last.cseq == other
  }

  lemma Begun(o: Origin)
    requires o.ByPost? && o.reachable
    ensures var s := Start(o);
      && s.tracked && s.nextstate == WaitForInviteProgress && s.originator && !s.callanswered && s.callhungup == false
      && s.cseq == Next32(o.cseq) && s.sent == Then(Nothing, Sent(Invite, Next32(o.cseq), CalledUser))
  {
  }

  lemma TryingHeard(s: State, pk: Packet, known: bool)
    requires s.tracked && s.nextstate == WaitForInviteProgress && 100 <= Status(pk) < 200
    requires !s.callhungup
    ensures var t := Step(s, Event.Packet(pk, known));
      && t.tracked && t.nextstate == s.nextstate && t.sent == s.sent && t.lastreceivedpk == Some(pk)
      && t.callanswered == s.callanswered && t.originator == s.originator
  {
    var r := RingingNow(Heard(s, pk));
    if r.control || known {} else {}
  }

  lemma HungUpInSetup(s: State)
    requires s.tracked && s.originator && !s.callanswered && s.lastreceivedpk.Some?
    ensures Cancelled(s, Step(s, Request(PutHangup))) && Step(s, Request(PutHangup)).tracked
  {
    CancelSent(HungUp(SetRetries(s, MAX_RETRIES)));
    assert SendCancel(HungUp(SetRetries(s, MAX_RETRIES))).tracked == s.tracked;
  }

  lemma EndOfCall(s: State, pk: Packet, known: bool)
    requires s.tracked && s.nextstate == WaitFor200ThenAckAndDie && Finished(pk)
    ensures Sends(s, Step(s, Event.Packet(pk, known)), Ack, s.cseq)
  {
    hide UpdateControl, DoWaitFor200ThenAckAndDie;
    AckedThenUntracked(Heard(s, pk), pk, known);
  }

  // ---- up to the first final response

  /** No final response has been received, except challenges to a first INVITE. */
  ghost predicate NoFinal(o: Origin, es: seq<Event>) {
    es == [] || (NoFinal(o, es[..|es| - 1])
                 && !(es[|es| - 1].Packet? && Final(After(o, es[..|es| - 1]), es[|es| - 1].pk)))
  }

  ghost predicate RightSoFar(s: State) {
    AcksRight(s.sent) && AcksSince(s.sent) == 0
  }

  lemma StepStaysRight(s: State, e: Event)
    requires Numbered(s) && RightSoFar(s) && !(e.Packet? && Final(s, e.pk))
    ensures RightSoFar(Step(s, e))
  {
    hide Step;
    if s.tracked {
      StepHasKind(s, e);
      var t := Step(s, e);
      if e.Packet? && Challenges(s, e.pk) {
        assert AcksRight(t.sent.before);
      }
    } else {
      StepUntracked(s, e);
    }
  }

  lemma {:induction false} RightUntilFinal(o: Origin, es: seq<Event>)
    requires NoFinal(o, es)
    ensures RightSoFar(After(o, es))
  {
    hide Step, Start, RightSoFar, Numbered;
    if es == [] {
      FirstStepRight(o);
    } else {
      RightUntilFinal(o, es[..|es| - 1]);
      NumberedAlways(o, es[..|es| - 1]);
      StepStaysRight(After(o, es[..|es| - 1]), es[|es| - 1]);
    }
  }

  /** The event that makes a dialog is no answer to an INVITE. */
  lemma FirstStepRight(o: Origin)
    ensures RightSoFar(Start(o))
  {
    hide Step, Start;
    StartIsAStep(o);
    StepHasKind(Origins(o), FirstEvent(o));
    var s, t := Origins(o), Start(o);
    assert RightSoFar(s) && (Calm(s, t) || Invited(s, t));
    hide Origins, FirstEvent;
    RightWithoutAck(s, t);
  }

  lemma RightWithoutAck(s: State, t: State)
    requires RightSoFar(s) && (Calm(s, t) || Invited(s, t))
    ensures RightSoFar(t)
  {
  }

  /** The step ends a cancelled call whose CANCEL did not have the INVITE's CSeq. */
  ghost predicate EndsMisnumbered(s: State, e: Event) {
    && e.Packet? && Sends(s, Step(s, e), Ack, s.cseq)
    && s.nextstate == WaitFor200ThenAckAndDie && CancelSince(s.sent) != Some(LastInvite(s.sent))
  }

  /** Main result on setup, with all control requests admitted: every ACK up to the first
      final response carries the CSeq of the INVITE it answers, and so does the one for
      that response, exactly unless it ends a call cancelled under another CSeq (sections
      13.2.2.4 and 17.1.1.3 of RFC 3261). */
  lemma SetupAcksMatch(o: Origin, es: seq<Event>, e: Event)
    requires NoFinal(o, es)
    ensures AcksMatch(After(o, es).sent)
    ensures AcksMatch(Step(After(o, es), e).sent) <==> !EndsMisnumbered(After(o, es), e)
  {
    hide Step;
    var s := After(o, es);
    var t := Step(s, e);
    RightUntilFinal(o, es);
    NumberedAlways(o, es);
    StepKeepsNumbers(s, e);
    MatchIff(s.sent);
    MatchIff(t.sent);
    if s.tracked {
      StepHasKind(s, e);
      if e.Packet? && Challenges(s, e.pk) { assert AcksRight(t.sent.before); }
    } else {
      StepUntracked(s, e);
    }
  }

  // ---- setup goes on

  /** A final answer, a BYE or CANCEL, a refusal by the control server, a timeout, or a
      request other than ringing. */
  predicate EndsSetup(s: State, e: Event) {
    match e
    case Packet(pk, _) => pk.verb == BYE || pk.verb == CANCEL || Final(s, pk)
    case Reply(success) => !success
    case Timer(_) => s.timer.Some?
    case Request(action) => !action.PutRing?
  }

  ghost predicate StillInSetup(o: Origin, es: seq<Event>) {
    es == [] || (StillInSetup(o, es[..|es| - 1]) && !EndsSetup(After(o, es[..|es| - 1]), es[|es| - 1]))
  }

  /** The dialog waits for an answer to an INVITE that it has not acknowledged. */
  ghost predicate InSetup(s: State) {
    && s.tracked && !s.callhungup && AcksSince(s.sent) == 0 && CancelSince(s.sent).None?
    && (s.nextstate == WaitForInviteProgress || s.nextstate == WaitForInviteProgressAfterAuth)
  }

  lemma ProgressStays(s: State, pk: Packet, known: bool)
    requires s.nextstate == WaitForInviteProgress || s.nextstate == WaitForInviteProgressAfterAuth
    requires pk.verb != BYE && pk.verb != CANCEL && Status(pk) < 200 && s.tracked && !s.callhungup
    ensures var t := Receive(s, pk, known);
      t.nextstate == s.nextstate && t.sent == s.sent && t.tracked && !t.callhungup
  {
    hide UpdateControl;
    UpdateKeeps(RingingNow(Heard(s, pk)), known);
  }

  lemma StepStaysInSetup(s: State, e: Event)
    requires InSetup(s) && !EndsSetup(s, e)
    ensures InSetup(Step(s, e))
  {
    match e
    case Packet(pk, known) =>
      hide Receive;
      if Challenges(s, pk) {
        ChallengeRetried(s, pk, known);
        assert AcksSince(Receive(s, pk, known).sent) == 0;
      } else {
        ProgressStays(s, pk, known);
      }
    case Timer(_) =>
    case Reply(_) => if s.requests > 0 {}
    case Request(action) => RingStays(s);
  }

  lemma RingStays(s: State)
    requires InSetup(s)
    ensures InSetup(DoRinging(s))
  {
  }

  /** An INVITE that can be sent is: while nothing ends it, setup goes on, and no INVITE has
      been acknowledged twice. Otherwise the dialog is not kept at all. */
  lemma {:induction false} SetupLasts(o: Origin, es: seq<Event>)
    requires o.ByPost? && StillInSetup(o, es)
    ensures if o.reachable then InSetup(After(o, es)) else !After(o, es).tracked
    ensures AcksRight(After(o, es).sent)
  {
    hide Step, InSetup, EndsSetup, Start;
    SetupHasNoFinal(o, es);
    RightUntilFinal(o, es);
    if es == [] {
      StartInSetup(o);
    } else {
      var s, e := After(o, es[..|es| - 1]), es[|es| - 1];
      SetupLasts(o, es[..|es| - 1]);
      if o.reachable { StepStaysInSetup(s, e); } else { StepUntracked(s, e); }
    }
  }

  lemma StartInSetup(o: Origin)
    requires o.ByPost?
    ensures if o.reachable then InSetup(Start(o)) else !Start(o).tracked
  {
    if o.reachable { Begun(o); }
  }

  lemma {:induction false} SetupHasNoFinal(o: Origin, es: seq<Event>)
    requires StillInSetup(o, es)
    ensures NoFinal(o, es)
  {
    if es != [] { SetupHasNoFinal(o, es[..|es| - 1]); }
  }
}
