// What the lines of each event come to over whole runs.

module SipAccounts {
  import opened Common
  import opened SipDialog
  import opened SipDialogRuns
  import opened SipOutbound
  import opened SipInvites
  import opened SipReplies
  import opened SipFields

  function Times(lines: seq<Line>, kind: Kind): nat {
    if lines == [] then 0
    else Times(lines[..|lines| - 1], kind) + if lines[|lines| - 1].kind == kind then 1 else 0
  }

  lemma {:induction false} CountTold(log: Log, lines: seq<Line>, dest: Destination, kind: Kind)
    ensures Count(Tell(log, lines, dest), kind) == Count(log, kind) + Times(lines, kind)
  {
    if lines != [] { CountTold(log, lines[..|lines| - 1], dest, kind); }
  }

  lemma TimesOne(x: Line, kind: Kind)
    ensures Times([x], kind) == if x.kind == kind then 1 else 0
  {
    assert [x][..0] == [];
  }

  lemma TimesTwo(x: Line, y: Line, kind: Kind)
    ensures Times([x, y], kind) == (if x.kind == kind then 1 else 0) + if y.kind == kind then 1 else 0
  {
    assert [x, y][..1] == [x];
    TimesOne(x, kind);
  }

  /** How one step adds to the count of a kind. */
  lemma StepCountsExactly(s: State, e: Event, kind: Kind)
    requires s.tracked
    ensures Count(Step(s, e).sent, kind) == Count(s.sent, kind) + Times(Lines(s, e), kind)
  {
    hide Step, Lines, Rings, IsAnswered, HangsUp;
    StepDoes(s, e);
    CountTold(s.sent, Lines(s, e), Destined(Step(s, e)), kind);
  }

  lemma {:induction false} TimesOfFew(lines: seq<Line>, kind: Kind)
    requires |lines| <= 2
    ensures Times(lines, kind) == (if |lines| > 0 && lines[0].kind == kind then 1 else 0)
                                + if |lines| > 1 && lines[1].kind == kind then 1 else 0
  {
    if |lines| == 1 { assert lines == [lines[0]]; TimesOne(lines[0], kind); }
    if |lines| == 2 { assert lines == [lines[0], lines[1]]; TimesTwo(lines[0], lines[1], kind); }
  }

  function BitOf(b: bool): nat { if b then 1 else 0 }

  /** No packet is answered with a 180 or a 200, but for a BYE or CANCEL. */
  lemma PacketKinds(s: State, pk: Packet)
    ensures |ForPacket(s, pk)| <= 2
    ensures forall i :: 0 <= i < |ForPacket(s, pk)| ==>
      ForPacket(s, pk)[i].kind != Ringing && (ForPacket(s, pk)[i].kind.Ok? ==> ForPacket(s, pk) == ForBye200(pk))
    ensures ForPacket(s, pk) == ForBye200(pk) <==> pk.verb == BYE || pk.verb == CANCEL
  {
    hide Coded;
  }

  lemma PacketTimes(s: State, pk: Packet, kind: Kind)
    requires kind == Ringing || kind.Ok?
    ensures kind != Ok(ForBye) ==> Times(ForPacket(s, pk), kind) == 0
    ensures Times(ForPacket(s, pk), Ok(ForBye)) == BitOf(pk.verb == BYE || pk.verb == CANCEL)
  {
    PacketKinds(s, pk);
    hide ForPacket;
    TimesOfFew(ForPacket(s, pk), kind);
    TimesOfFew(ForPacket(s, pk), Ok(ForBye));
    hide Times;
  }

  lemma TimerTimes(s: State, kind: Kind)
    requires kind == Ringing || (kind.Ok? && kind.why != Again)
    ensures Times(ForTimer(s), kind) == 0
  {
    TimesOfFew(ForTimer(s), kind);
    hide Times;
  }

  lemma RequestTimes(s: State, action: Action, kind: Kind)
    requires kind == Ringing || (kind.Ok? && kind.why != Again)
    ensures Times(ForRequest(s, action), kind) == BitOf(
      || (kind == Ringing && action == PutRing && !s.callringing && !s.callanswered && !s.callhungup && s.invitepk.Some?)
      || (kind == Ok(ForAnswer) && action == PutAnswer && !s.callanswered)
      || (kind == Ok(ForOk) && action == PutOk))
  {
    TimesOfFew(ForRequest(s, action), kind);
    hide Times;
  }

  /** A 180 is sent by a ring request, an answering 200 by an answer request, a 200 to a BYE or
      CANCEL by that and a confirming 200 by an ok request, each once, and by nothing else. */
  lemma LinesOfKinds(s: State, e: Event)
    ensures Times(Lines(s, e), Ringing) == BitOf(e == Request(PutRing) && !s.callringing && Rings(s, e))
    ensures Times(Lines(s, e), Ok(ForAnswer)) == BitOf(e == Request(PutAnswer) && !s.callanswered)
    ensures Times(Lines(s, e), Ok(ForBye)) == BitOf(IsBye(e))
    ensures Times(Lines(s, e), Ok(ForOk)) == BitOf(e == Request(PutOk))
  {
    hide ForPacket, ForTimer, ForRequest;
    forall kind | kind in {Ringing, Ok(ForAnswer), Ok(ForBye), Ok(ForOk)}
      ensures e.Packet? ==> Times(Lines(s, e), kind) == BitOf(kind == Ok(ForBye) && IsBye(e))
      ensures e.Timer? || e.Reply? ==> Times(Lines(s, e), kind) == 0
    {
      if e.Packet? { PacketTimes(s, e.pk, kind); }
      TimerTimes(s, kind);
      TimesOne(Line(Unavailable, ReceivedCseq(s)), kind);
    }
    if e.Request? {
      RequestTimes(s, e.action, Ringing);
      RequestTimes(s, e.action, Ok(ForAnswer));
      RequestTimes(s, e.action, Ok(ForBye));
      RequestTimes(s, e.action, Ok(ForOk));
    }
  }

  // ---- over runs

  predicate IsBye(e: Event) { e.Packet? && (e.pk.verb == BYE || e.pk.verb == CANCEL) }

  /** How many of the events that reach the dialog are such; the one that makes it counts. */
  ghost function Reaching(o: Origin, es: seq<Event>, such: Event -> bool): nat {
    if es == [] then BitOf(such(FirstEvent(o)))
    else Reaching(o, es[..|es| - 1], such) + BitOf(After(o, es[..|es| - 1]).tracked && such(es[|es| - 1]))
  }

  lemma StillLogged(s: State, e: Event)
    requires !s.tracked
    ensures Step(s, e) == s
  {
  }

  lemma NewHasSaidNothing(o: Origin, kind: Kind)
    ensures Origins(o).tracked && Count(Origins(o).sent, kind) == 0
    ensures !Origins(o).callringing && !Origins(o).callanswered && !Origins(o).callhungup
  {
  }

  /** Over every run: one 200 for each BYE or CANCEL received, and one for each ok request. */
  lemma {:induction false} ByesAndOksAnswered(o: Origin, es: seq<Event>)
    ensures Count(After(o, es).sent, Ok(ForBye)) == Reaching(o, es, IsBye)
    ensures Count(After(o, es).sent, Ok(ForOk)) == Reaching(o, es, (e: Event) => e == Request(PutOk))
  {
    hide Step, Lines, Start;
    if es == [] {
      StartIsAStep(o);
      NewHasSaidNothing(o, Ok(ForBye));
      NewHasSaidNothing(o, Ok(ForOk));
      CountsOfStep(Origins(o), FirstEvent(o));
    } else {
      var s, e := After(o, es[..|es| - 1]), es[|es| - 1];
      ByesAndOksAnswered(o, es[..|es| - 1]);
      if s.tracked { CountsOfStep(s, e); } else { StillLogged(s, e); }
    }
  }

  lemma CountsOfStep(s: State, e: Event)
    requires s.tracked
    ensures var t := Step(s, e);
      && Count(t.sent, Ringing) == Count(s.sent, Ringing) + BitOf(e == Request(PutRing) && !s.callringing && Rings(s, e))
      && Count(t.sent, Ok(ForAnswer)) == Count(s.sent, Ok(ForAnswer)) + BitOf(e == Request(PutAnswer) && !s.callanswered)
      && Count(t.sent, Ok(ForBye)) == Count(s.sent, Ok(ForBye)) + BitOf(IsBye(e))
      && Count(t.sent, Ok(ForOk)) == Count(s.sent, Ok(ForOk)) + BitOf(e == Request(PutOk))
  {
    hide Step, Lines, Rings;
    LinesOfKinds(s, e);
    StepCountsExactly(s, e, Ringing);
    StepCountsExactly(s, e, Ok(ForAnswer));
    StepCountsExactly(s, e, Ok(ForBye));
    StepCountsExactly(s, e, Ok(ForOk));
  }

  lemma FlagsOfStep(s: State, e: Event)
    requires s.tracked
    ensures var t := Step(s, e);
      && t.callringing == (s.callringing || Rings(s, e))
      && t.callanswered == (s.callanswered || IsAnswered(s, e))
      && t.callhungup == (s.callhungup || HangsUp(s, e))
  {
    hide Step, Lines, Rings, IsAnswered, HangsUp;
    StepDoes(s, e);
  }

  /** A dialog that sends no INVITE of its own never waits for the answer to one. */
  lemma NoProgress(s: State, e: Event)
    requires s.tracked && !Progress(s) && !(e.Request? && e.action.PutInvite?)
    ensures Step(s, e).tracked ==> !Progress(Step(s, e))
  {
    hide Step;
    StepHasKind(s, e);
  }

  /** Over every run of a dialog made by an INVITE, short of a re-invite by the control server:
      it has sent exactly one 180 if it is ringing and none if not, and exactly one answering
      200 if it is answered and none if not. */
  lemma {:induction false} AnsweredExactlyOnce(o: Origin, es: seq<Event>)
    requires o.ByInvite? && NoReinvite(es)
    ensures var t := After(o, es);
      && (t.tracked ==> !Progress(t))
      && Count(t.sent, Ringing) == BitOf(t.callringing)
      && Count(t.sent, Ok(ForAnswer)) == BitOf(t.callanswered)
  {
    hide Step, Lines, Start, StepKind;
    if es == [] {
      StartIsAStep(o);
      NewHasSaidNothing(o, Ringing);
      NewHasSaidNothing(o, Ok(ForAnswer));
      ExactStep(Origins(o), FirstEvent(o));
    } else {
      var s, e := After(o, es[..|es| - 1]), es[|es| - 1];
      AnsweredExactlyOnce(o, es[..|es| - 1]);
      if s.tracked { ExactStep(s, e); } else { StillLogged(s, e); }
    }
  }

  lemma ExactStep(s: State, e: Event)
    requires s.tracked && !Progress(s) && !(e.Request? && e.action.PutInvite?)
    requires Count(s.sent, Ringing) == BitOf(s.callringing) && Count(s.sent, Ok(ForAnswer)) == BitOf(s.callanswered)
    ensures var t := Step(s, e);
      && (t.tracked ==> !Progress(t))
      && Count(t.sent, Ringing) == BitOf(t.callringing) && Count(t.sent, Ok(ForAnswer)) == BitOf(t.callanswered)
  {
    hide Step;
    NoProgress(s, e);
    CountsOfStep(s, e);
    FlagsOfStep(s, e);
  }

  /** An answer request on a call that is not answered: one 200 with the CSeq of the packet
      received last, and the dialog waits for its ACK. */
  lemma AnswerIsSent(s: State)
    requires s.tracked && !s.callanswered
    ensures var t := Step(s, Request(PutAnswer));
      && Sends(s, t, Ok(ForAnswer), ReceivedCseq(s))
      && t.callanswered && t.nextstate == WaitForAck && t.timer.Some?
  {
    hide Step;
    StepDoes(s, Request(PutAnswer));
    TellOne(s.sent, Line(Ok(ForAnswer), ReceivedCseq(s)), Destined(Step(s, Request(PutAnswer))));
    assert Step(s, Request(PutAnswer)) == DoAnswer(SetRetries(s, MAX_RETRIES)) by { AnswerStep(s); }
  }

  lemma AnswerStep(s: State)
    requires s.tracked
    ensures Step(s, Request(PutAnswer)) == DoAnswer(SetRetries(s, MAX_RETRIES))
  {
  }

  /** Has any event that reached the dialog rung it, answered it or hung it up? */
  ghost function EverRung(o: Origin, es: seq<Event>): bool {
    if es == [] then Rings(Origins(o), FirstEvent(o))
    else var s := After(o, es[..|es| - 1]); EverRung(o, es[..|es| - 1]) || (s.tracked && Rings(s, es[|es| - 1]))
  }

  ghost function EverAnswered(o: Origin, es: seq<Event>): bool {
    if es == [] then IsAnswered(Origins(o), FirstEvent(o))
    else var s := After(o, es[..|es| - 1]); EverAnswered(o, es[..|es| - 1]) || (s.tracked && IsAnswered(s, es[|es| - 1]))
  }

  ghost function EverHungUp(o: Origin, es: seq<Event>): bool {
    if es == [] then HangsUp(Origins(o), FirstEvent(o))
    else var s := After(o, es[..|es| - 1]); EverHungUp(o, es[..|es| - 1]) || (s.tracked && HangsUp(s, es[|es| - 1]))
  }

  /** Over every run of every dialog the flags say exactly what has happened. */
  lemma {:induction false} FlagsTellTheStory(o: Origin, es: seq<Event>)
    ensures var t := After(o, es);
      && (t.callringing <==> EverRung(o, es))
      && (t.callanswered <==> EverAnswered(o, es))
      && (t.callhungup <==> EverHungUp(o, es))
  {
    hide Step, Start, Rings, IsAnswered, HangsUp;
    if es == [] {
      StartIsAStep(o);
      NewHasSaidNothing(o, Trying);
      FlagsOfStep(Origins(o), FirstEvent(o));
    } else {
      var s, e := After(o, es[..|es| - 1]), es[|es| - 1];
      FlagsTellTheStory(o, es[..|es| - 1]);
      if s.tracked { FlagsOfStep(s, e); } else { StillLogged(s, e); }
    }
  }

  ghost function EverTagged(o: Origin, es: seq<Event>): bool {
    if es == [] then TagAfter(Origins(o), FirstEvent(o))
    else var s := After(o, es[..|es| - 1]); EverTagged(o, es[..|es| - 1]) || (s.tracked && TagAfter(s, es[|es| - 1]))
  }

  /** An event that authenticates the other side: an accepted INVITE or REFER, or the 200 to
      the dialog's own first INVITE. */
  predicate Authenticates(s: State, e: Event) {
    e.Packet? && (AcceptsInvite(s, e.pk) || AcceptsRefer(s, e.pk) || FirstAnswered(s, e.pk))
  }

  ghost function EverAuthenticated(o: Origin, es: seq<Event>): bool {
    if es == [] then Authenticates(Origins(o), FirstEvent(o))
    else
      var s := After(o, es[..|es| - 1]);
      EverAuthenticated(o, es[..|es| - 1]) || (s.tracked && Authenticates(s, es[|es| - 1]))
  }

  /** Requests to the control server that this event makes, and replies that it is. */
  function Asks(s: State, e: Event): nat { BitOf(Tells(s, e) && (s.control || Knows(e))) }
  function IsReply(s: State, e: Event): nat { BitOf(e.Reply? && s.requests > 0) }

  ghost function RequestsMade(o: Origin, es: seq<Event>): nat {
    if es == [] then Asks(Origins(o), FirstEvent(o))
    else
      var s := After(o, es[..|es| - 1]);
      RequestsMade(o, es[..|es| - 1]) + if s.tracked then Asks(s, es[|es| - 1]) else 0
  }

  ghost function RepliesTaken(o: Origin, es: seq<Event>): nat {
    if es == [] then 0
    else
      var s := After(o, es[..|es| - 1]);
      RepliesTaken(o, es[..|es| - 1]) + if s.tracked then IsReply(s, es[|es| - 1]) else 0
  }

  ghost function EverTold(o: Origin, es: seq<Event>): bool {
    if es == [] then Tells(Origins(o), FirstEvent(o)) && Knows(FirstEvent(o))
    else
      var s, e := After(o, es[..|es| - 1]), es[|es| - 1];
      EverTold(o, es[..|es| - 1]) || (s.tracked && Tells(s, e) && Knows(e))
  }

  ghost function ChallengesMade(o: Origin, es: seq<Event>): nat {
    if es == [] then BitOf(SendsChallenge(Origins(o), FirstEvent(o)))
    else
      var s := After(o, es[..|es| - 1]);
      ChallengesMade(o, es[..|es| - 1]) + BitOf(s.tracked && SendsChallenge(s, es[|es| - 1]))
  }

  ghost predicate Books(o: Origin, es: seq<Event>) {
    var t := After(o, es);
    && (t.theirtag <==> EverTagged(o, es)) && (t.authenticated <==> EverAuthenticated(o, es))
    && (t.originator <==> o.ByPost?) && (t.control <==> (o.ByPost? && o.control) || EverTold(o, es))
    && t.requests + RepliesTaken(o, es) == RequestsMade(o, es)
    && t.challenges == ChallengesMade(o, es)
  }

  lemma FirstBooks(o: Origin)
    ensures Books(o, [])
  {
    var s, e := Origins(o), FirstEvent(o);
    StartIsAStep(o);
    assert s.tracked && !s.theirtag && !s.authenticated && s.requests == 0 && s.challenges == 0 && s.lastreceivedpk.None?
           && (s.originator <==> o.ByPost?) && (s.control <==> o.ByPost? && o.control) by { NothingYet(o); }
    hide Step, Start, Origins;
    StepMovesFields(s, e);
  }

  lemma NothingYet(o: Origin)
    ensures var s := Origins(o);
      && s.tracked && !s.theirtag && !s.authenticated && s.requests == 0 && s.challenges == 0 && s.lastreceivedpk.None?
      && (s.originator <==> o.ByPost?) && (s.control <==> o.ByPost? && o.control)
  {
  }

  lemma NextBooks(o: Origin, es: seq<Event>)
    requires es != [] && Books(o, es[..|es| - 1])
    ensures Books(o, es)
  {
    var s, e := After(o, es[..|es| - 1]), es[|es| - 1];
    hide Step, Start, Tells, Knows, TagAfter, AcceptsInvite, AcceptsRefer, FirstAnswered, SendsChallenge, NumbersMove, CourseMoves, PartyMoves;
    if s.tracked { BooksOfStep(s, e); } else { StillLogged(s, e); }
  }

  lemma BooksOfStep(s: State, e: Event)
    requires s.tracked
    ensures var t := Step(s, e);
      && t.theirtag == TagAfter(s, e) && t.authenticated == (s.authenticated || Authenticates(s, e))
      && t.originator == s.originator && t.control == (s.control || (Tells(s, e) && Knows(e)))
      && t.requests + IsReply(s, e) == s.requests + Asks(s, e)
      && t.challenges == s.challenges + BitOf(SendsChallenge(s, e))
      && (s.theirtag ==> TagAfter(s, e))
  {
    hide Step;
    StepMovesFields(s, e);
  }

  /** Over every run of every dialog: whether it has the other side's tag, has authenticated it, made
      the call, and knows its control server, how many of its requests are outstanding and how
      many challenges it has sent, are what its history says. */
  lemma {:induction false} BooksAreKept(o: Origin, es: seq<Event>)
    ensures Books(o, es)
  {
    hide Books, Step, Start;
    if es == [] { FirstBooks(o); } else { BooksAreKept(o, es[..|es| - 1]); NextBooks(o, es); }
  }

  /** A request that has to be answered is, with its own CSeq: 200 for BYE and CANCEL; for an
      INVITE or REFER in a state that takes one, a challenge, a refusal, 100 or 202; only an
      authenticated re-INVITE waits for the control server to say ok. */
  lemma EveryRequestAnswered(s: State, pk: Packet, known: bool)
    requires s.tracked
    requires || pk.verb == BYE || pk.verb == CANCEL
             || (pk.verb == INVITE && (s.nextstate == InviteStart || s.nextstate == InviteAuth))
             || ((pk.verb == INVITE || pk.verb == REFER) && s.nextstate == WaitForNextInstruction)
    ensures var t := Step(s, Event.Packet(pk, known));
      || (t.sent.Then? && t.sent.before == s.sent && t.sent.last.cseq == pk.cseq
          && t.sent.last.kind !in {Invite, Ack, Bye, Cancel, Notify, Ringing})
      || (t.sent == s.sent && pk.verb == INVITE && pk.totag && Answers(s, pk))
  {
    var e := Event.Packet(pk, known);
    var lines := Lines(s, e);
    hide Step, Rings, IsAnswered, HangsUp;
    StepDoes(s, e);
    if |lines| == 1 {
      assert lines == [lines[0]];
      TellOne(s.sent, lines[0], Destined(Step(s, e)));
    }
  }

  // ---- waiting

  /** The states in which a dialog waits for an ACK, or for a 200 that ends it. */
  predicate Waits(n: NextState) {
    || n == WaitForAckThenInviteAuth || n == WaitForAck || n == WaitForAckAndDie
    || n == WaitFor200AndDie || n == WaitFor200ThenAckAndDie
  }

  ghost predicate TimedWhileWaiting(s: State) { s.tracked && Waits(s.nextstate) ==> s.timer.Some? }

  lemma StepKeepsTimed(s: State, e: Event)
    requires s.tracked && TimedWhileWaiting(s)
    ensures TimedWhileWaiting(Step(s, e))
  {
    hide Step;
    StepMovesFields(s, e);
    var t := Step(s, e);
    assert t.nextstate == NextAfter(s, e) && t.timer == if t.tracked || ArmsLast(s, e) then TimerAfter(s, e) else None;
    NewWaitIsTimed(s, e);
  }

  lemma NewWaitIsTimed(s: State, e: Event)
    requires s.tracked && TimedWhileWaiting(s)
    ensures Waits(NextAfter(s, e)) ==> TimerAfter(s, e).Some?
  {
  }

  /** Over every run of every dialog: while it waits for an ACK or for the 200 that ends it, its
      timer is armed, so that silence ends it. */
  lemma {:induction false} WaitsAreTimed(o: Origin, es: seq<Event>)
    ensures TimedWhileWaiting(After(o, es))
  {
    hide Step, Start, TimedWhileWaiting;
    if es == [] {
      StartIsAStep(o);
      assert TimedWhileWaiting(Origins(o)) && Origins(o).tracked by { NewIsTimed(o); }
      StepKeepsTimed(Origins(o), FirstEvent(o));
    } else {
      var s, e := After(o, es[..|es| - 1]), es[|es| - 1];
      WaitsAreTimed(o, es[..|es| - 1]);
      if s.tracked { StepKeepsTimed(s, e); } else { StillLogged(s, e); }
    }
  }

  lemma NewIsTimed(o: Origin)
    ensures TimedWhileWaiting(Origins(o)) && Origins(o).tracked
  {
  }

  // ---- resending

  function Length(log: Log): nat { if log.Nothing? then 0 else Length(log.before) + 1 }

  lemma {:induction false} LengthTold(log: Log, lines: seq<Line>, dest: Destination)
    ensures Length(Tell(log, lines, dest)) == Length(log) + |lines|
  {
    if lines != [] { LengthTold(log, lines[..|lines| - 1], dest); }
  }

  /** The handler has something to resend. */
  predicate CanResend(s: State, h: Handler) {
    || h == Resend200 || h == Resend401 || h == ResendError
    || (h == ResendBye && ByeGoes(s)) || (h == ResendNotify && s.lastreceivedpk.Some?)
  }

  lemma ResendOnce(s: State, h: Handler, known: bool)
    requires s.tracked && s.timer == Some(h) && CanResend(s, h) && s.retries >= 0
    ensures var t := Step(s, Timer(known));
      && Length(t.sent) == Length(s.sent) + (if s.retries > 0 then 1 else 0)
      && (t.tracked <==> s.retries > 0)
      && (s.retries > 0 ==> t.timer == Some(h) && CanResend(t, h) && t.retries == s.retries - 1
                            && t.sent.Then? && [Line(t.sent.last.kind, t.sent.last.cseq)] == Resent(s, h))
  {
    var e, t := Timer(known), Step(s, Timer(known));
    hide Step;
    StepMovesFields(s, e);
    StepDoes(s, e);
    LengthTold(s.sent, Lines(s, e), Destined(t));
    if s.retries > 0 { TellOne(s.sent, Resent(s, h)[0], Destined(t)); }
  }

  /** Silence resends: a handler with something to resend sends it once at each firing, as often
      as there are retries, and then no more. */
  lemma {:induction false} SilenceResends(s: State, h: Handler, knowns: seq<bool>)
    requires s.tracked && s.timer == Some(h) && CanResend(s, h) && s.retries >= 0
    ensures var t, n := Silence(s, knowns), |knowns|;
      && Length(t.sent) == Length(s.sent) + (if n < s.retries then n else s.retries)
      && (t.tracked <==> n <= s.retries)
      && (n <= s.retries ==> t.timer == Some(h) && CanResend(t, h) && t.retries == s.retries - n)
    decreases |knowns|
  {
    hide Step, CanResend;
    if knowns != [] {
      var before := knowns[..|knowns| - 1];
      SilenceResends(s, h, before);
      var t := Silence(s, before);
      if t.tracked { ResendOnce(t, h, knowns[|knowns| - 1]); } else { StillLogged(t, Timer(knowns[|knowns| - 1])); }
    }
  }
}
