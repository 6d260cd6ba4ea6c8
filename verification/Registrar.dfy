// The registrar's entries for one user: registration, OPTIONS pings, and expiry. An entry
// that has left the container lives on while its timer or a request of its own is pending.

module Registrar {
  import opened Common

  const MAX_FAIL_COUNT := 7
  const DEFAULT_EXPIRES := 3600

  /** A REGISTER. expires is -1 when it names none; answers is the set of challenges its
      credentials answer for the user's password. */
  datatype Register = Register(expires: int, authorization: bool, answers: set<nat>, cseq: string)

  datatype Mark =
    | Accepted | Ping | Answer
    | Challenged(nonce: nat) | Forbidden | TooBrief | Unregistered

  /** What was sent to the client and heard from it, the latest last. */
  datatype Log = Nothing | Then(before: Log, last: Mark)

  /** The challenge that is waiting for an answer, and the CSeq it was sent with. */
  datatype Demand = Demand(nonce: nat, cseq: string)

  datatype Entry = Entry(
    isregistered: bool,
    outstandingping: int,
    optionscseq: u32,
    authrequest: Option<Demand>,
    authacceptpacket: Option<Register>,
    timer: bool,
    expires: int,
    deletes: nat,
    log: Log
  )

  function NewEntry(now: int): Entry {
    Entry(false, 0, 0, None, None, false, now + DEFAULT_EXPIRES, 0, Nothing)
  }

  function Say(r: Entry, m: Mark): Entry { r.(log := Then(r.log, m)) }

  function Asked(expires: int): int { if expires == -1 then DEFAULT_EXPIRES else expires }

  /** The DELETE to the control server is sent only for an accepted user of a known domain. */
  function Expire(r: Entry, known: bool): Entry {
    if r.authacceptpacket.None? || !known then r.(isregistered := false)
    else r.(isregistered := false, deletes := r.deletes + 1)
  }

  function RegStart(r: Entry, pk: Register, known: bool, nonce: nat): Entry {
    if Asked(pk.expires) == 0 then Expire(Say(r, Unregistered), known)
    else if DEFAULT_EXPIRES > Asked(pk.expires) then Say(r, TooBrief)
    else Say(r.(authrequest := Some(Demand(nonce, pk.cseq))), Challenged(nonce))
  }

  /** != on two pieces of different strings: it tells pieces of the same length the same. */
  predicate Differs(a: string, b: string) { |a| != |b| }

  predicate Credited(r: Entry, pk: Register) { r.authrequest.Some? && r.authrequest.value.nonce in pk.answers }

  /** regwaitauth, apart from the erasing of the entry that Erases describes. */
  function RegWaitAuth(r: Entry, pk: Register, now: int, known: bool, nonce: nat): Entry {
    if r.authrequest.None? then RegStart(r, pk, known, nonce)
    else if !Credited(r, pk) then Say(r, Forbidden)
    else if pk.expires == 0 || Differs(r.authrequest.value.cseq, pk.cseq) then r
    else Accept(r, pk, now, known)
  }

  predicate Erases(r: Entry, pk: Register) { pk.authorization && Credited(r, pk) && pk.expires == 0 }

  function Accept(r: Entry, pk: Register, now: int, known: bool): Entry {
    Say(r.(outstandingping := 0, authacceptpacket := Some(pk), expires := now + Asked(pk.expires), timer := true,
           isregistered := true, authrequest := if known then None else r.authrequest), Accepted)
  }

  function SendOptions(r: Entry): Entry { Say(r.(outstandingping := r.outstandingping + 1), Ping) }

  /** The timer has fired; it is idle unless it is set again. */
  function TimerHandler(r: Entry, now: int, known: bool): Entry {
    if now > r.expires || r.outstandingping == MAX_FAIL_COUNT then Expire(r.(timer := false), known)
    else SendOptions(r)
  }

  function HandleResponse(r: Entry, options: bool): Entry {
    if r.authacceptpacket.None? || !options then r
    else Say(r.(optionscseq := (r.optionscseq + 1) % U32_RANGE,
                outstandingping := if r.outstandingping != 0 then r.outstandingping - 1 else 0), Answer)
  }

  /** A REGISTER as the found entry takes it. */
  function TakeRegister(r: Entry, pk: Register, now: int, known: bool, nonce: nat): Entry {
    if pk.authorization && r.authrequest.Some? then RegWaitAuth(r, pk, now, known, nonce)
    else RegStart(r, pk, known, nonce)
  }

  // ---- the container

  /** Every entry ever made for the user, and which of them the container holds. */
  datatype Registry = Registry(current: Option<nat>, entries: seq<Entry>)

  function Empty(): Registry { Registry(None, []) }

  predicate Sound(g: Registry) { g.current.Some? ==> g.current.value < |g.entries| }

  datatype Event =
    | Packet(pk: Register, now: int, known: bool, nonce: nat)
    | Response(options: bool, now: int)
    | Fire(i: nat, now: int, known: bool)
    | Done(i: nat)

  /** The entry a packet is for; one is made if there is none. */
  function Found(g: Registry, now: int): (r: Registry)
    requires Sound(g)
    ensures Sound(r) && r.current.Some?
  {
    if g.current.Some? then g else Registry(Some(|g.entries|), g.entries + [NewEntry(now)])
  }

  function Put(g: Registry, i: nat, r: Entry): (h: Registry)
    requires Sound(g) && i < |g.entries|
    ensures Sound(h)
  {
    g.(entries := g.entries[i := r])
  }

  function Step(g: Registry, e: Event): (r: Registry)
    requires Sound(g)
    ensures Sound(r)
  {
    match e
    case Packet(pk, now, known, nonce) =>
      var f := Found(g, now);
      var i := f.current.value;
      var h := Put(f, i, TakeRegister(f.entries[i], pk, now, known, nonce));
      if Erases(f.entries[i], pk) then h.(current := None) else h
    case Response(options, now) =>
      var f := Found(g, now);
      Put(f, f.current.value, HandleResponse(f.entries[f.current.value], options))
    case Fire(i, now, known) =>
      if i < |g.entries| && g.entries[i].timer then Put(g, i, TimerHandler(g.entries[i], now, known)) else g
    case Done(i) =>
      if i < |g.entries| && g.entries[i].deletes > 0 then Finish(g, i) else g
  }

  /** httpcallbackanddie: the answer to a DELETE. The entry to erase is looked up by name. */
  function Finish(g: Registry, i: nat): (r: Registry)
    requires Sound(g) && i < |g.entries| && g.entries[i].deletes > 0
    ensures Sound(r)
  {
    var h := Put(g, i, g.entries[i].(deletes := g.entries[i].deletes - 1));
    if g.entries[i].isregistered then h else h.(current := None)
  }

  function Run(g: Registry, es: seq<Event>): (r: Registry)
    requires Sound(g)
    ensures Sound(r)
  {
    if es == [] then g else Step(Run(g, es[..|es| - 1]), es[|es| - 1])
  }

  // ---- what one event does to one entry

  /** The ways in which an entry changes. */
  predicate Changes(r: Entry, t: Entry, i: nat, e: Event) {
    || t == r
    || (e.Packet? && t == TakeRegister(r, e.pk, e.now, e.known, e.nonce))
    || (e.Response? && t == HandleResponse(r, e.options))
    || (e.Fire? && e.i == i && r.timer && t == TimerHandler(r, e.now, e.known))
    || (e.Done? && r.deletes > 0 && t == r.(deletes := r.deletes - 1))
  }

  lemma OneEntry(g: Registry, e: Event, i: nat)
    requires Sound(g) && i < |g.entries|
    ensures i < |Step(g, e).entries| && Changes(g.entries[i], Step(g, e).entries[i], i, e)
  {
    hide TakeRegister, HandleResponse, TimerHandler, Erases;
    match e {
      case Packet(pk, now, known, nonce) => assert Found(g, now).entries[i] == g.entries[i];
      case Response(options, now) => assert Found(g, now).entries[i] == g.entries[i];
      case Fire(j, now, known) =>
      case Done(j) =>
    }
  }

  /** A firing always reaches the armed entry it is for. */
  lemma FireReaches(g: Registry, i: nat, now: int, known: bool)
    requires Sound(g) && i < |g.entries| && g.entries[i].timer
    ensures Step(g, Fire(i, now, known)).entries[i] == TimerHandler(g.entries[i], now, known)
  {
  }

  /** An entry that is new after an event started out as a fresh one. */
  lemma NewestEntry(g: Registry, e: Event)
    requires Sound(g) && |Step(g, e).entries| > |g.entries|
    ensures (e.Packet? || e.Response?) && |Step(g, e).entries| == |g.entries| + 1
    ensures Changes(NewEntry(e.now), Step(g, e).entries[|g.entries|], |g.entries|, e)
  {
    hide TakeRegister, HandleResponse, TimerHandler, Erases;
  }

  // ---- every reachable entry

  /** Outstanding pings as an account: a ping adds one, an answer takes one off while there
      is one, an accepted REGISTER clears it. */
  function Balance(log: Log): nat {
    match log
    case Nothing => 0
    case Then(before, m) =>
      if m == Accepted then 0
      else if m == Ping then Balance(before) + 1
      else if m == Answer && Balance(before) > 0 then Balance(before) - 1
      else Balance(before)
  }

  ghost predicate WasSaid(log: Log, m: Mark) {
    log.Then? && (log.last == m || WasSaid(log.before, m))
  }

  /** The packet answers a challenge that this entry sent. */
  ghost predicate AnswersOurs(log: Log, pk: Register) { exists n :: n in pk.answers && WasSaid(log, Challenged(n)) }

  ghost predicate EntryOk(r: Entry) {
    && 0 <= r.outstandingping <= MAX_FAIL_COUNT
    && r.outstandingping == Balance(r.log)
    && (r.isregistered || r.timer ==> r.authacceptpacket.Some?)
    && (r.isregistered ==> r.timer)
    && (r.authrequest.Some? ==> WasSaid(r.log, Challenged(r.authrequest.value.nonce)))
    && (r.authacceptpacket.Some? ==> AnswersOurs(r.log, r.authacceptpacket.value))
  }

  lemma SayKeeps(log: Log, m: Mark, pk: Register)
    ensures AnswersOurs(log, pk) ==> AnswersOurs(Then(log, m), pk)
  {
    if AnswersOurs(log, pk) {
      var n :| n in pk.answers && WasSaid(log, Challenged(n));
      assert WasSaid(Then(log, m), Challenged(n));
    }
  }

  lemma RegStartKeepsOk(r: Entry, pk: Register, known: bool, nonce: nat)
    requires EntryOk(r)
    ensures EntryOk(RegStart(r, pk, known, nonce))
  {
    if r.authacceptpacket.Some? { SayKeeps(r.log, RegStart(r, pk, known, nonce).log.last, r.authacceptpacket.value); }
  }

  lemma AcceptKeepsOk(r: Entry, pk: Register, now: int, known: bool)
    requires EntryOk(r) && Credited(r, pk)
    ensures EntryOk(Accept(r, pk, now, known))
  {
    assert WasSaid(Then(r.log, Accepted), Challenged(r.authrequest.value.nonce));
  }

  lemma TakeKeepsOk(r: Entry, pk: Register, now: int, known: bool, nonce: nat)
    requires EntryOk(r)
    ensures EntryOk(TakeRegister(r, pk, now, known, nonce))
  {
    hide RegStart, Accept;
    RegStartKeepsOk(r, pk, known, nonce);
    if Credited(r, pk) { AcceptKeepsOk(r, pk, now, known); }
    if r.authacceptpacket.Some? { SayKeeps(r.log, Forbidden, r.authacceptpacket.value); }
  }

  lemma ResponseKeepsOk(r: Entry, options: bool)
    requires EntryOk(r)
    ensures EntryOk(HandleResponse(r, options))
  {
    if r.authacceptpacket.Some? { SayKeeps(r.log, Answer, r.authacceptpacket.value); }
  }

  lemma TimerKeepsOk(r: Entry, now: int, known: bool)
    requires EntryOk(r) && r.timer
    ensures EntryOk(TimerHandler(r, now, known))
  {
    SayKeeps(r.log, Ping, r.authacceptpacket.value);
  }

  lemma ChangesKeepOk(r: Entry, t: Entry, i: nat, e: Event)
    requires EntryOk(r) && Changes(r, t, i, e)
    ensures EntryOk(t)
  {
    hide TakeRegister, HandleResponse, TimerHandler;
    match e {
      case Packet(pk, now, known, nonce) => TakeKeepsOk(r, pk, now, known, nonce);
      case Response(options, now) => ResponseKeepsOk(r, options);
      case Fire(j, now, known) => if r.timer { TimerKeepsOk(r, now, known); }
      case Done(j) =>
    }
  }

  ghost predicate AllOk(g: Registry) { forall i :: 0 <= i < |g.entries| ==> EntryOk(g.entries[i]) }

  lemma StepKeepsOk(g: Registry, e: Event)
    requires Sound(g) && AllOk(g)
    ensures AllOk(Step(g, e))
  {
    hide Step, Changes, EntryOk;
    var h := Step(g, e);
    forall i | 0 <= i < |h.entries| ensures EntryOk(h.entries[i]) {
      if i < |g.entries| {
        OneEntry(g, e, i);
        ChangesKeepOk(g.entries[i], h.entries[i], i, e);
      } else {
        NewestEntry(g, e);
        NewIsOk(e.now);
        ChangesKeepOk(NewEntry(e.now), h.entries[i], i, e);
      }
    }
  }

  lemma NewIsOk(now: int)
    ensures EntryOk(NewEntry(now))
  {
  }

  /** In every reachable state each entry, in the container or not, has between 0 and 7 pings
      outstanding, exactly as its history accounts for them; it is pinged or registered only
      after a REGISTER that answered one of its own challenges. */
  lemma {:induction false} KeepaliveInvariant(es: seq<Event>)
    ensures AllOk(Run(Empty(), es))
    decreases |es|
  {
    hide Step, AllOk;
    if es == [] {
      assert AllOk(Empty()) by { EmptyIsOk(); }
    } else {
      KeepaliveInvariant(es[..|es| - 1]);
      StepKeepsOk(Run(Empty(), es[..|es| - 1]), es[|es| - 1]);
    }
  }

  lemma EmptyIsOk()
    ensures AllOk(Empty())
  {
  }

  // ---- what the account comes to

  /** Pings less answers over the latest n marks, which go back no further than the last
      accepted REGISTER. */
  function Surplus(log: Log, n: nat): int {
    if n == 0 || log.Nothing? || log.last == Accepted then 0
    else Surplus(log.before, n - 1) + (if log.last == Ping then 1 else if log.last == Answer then -1 else 0)
  }

  /** The outstanding count is the greatest surplus of pings over answers in any stretch of
      the history that ends now and starts after the last accepted REGISTER. */
  lemma {:induction false} OutstandingIsGreatestSurplus(log: Log, n: nat) returns (best: nat)
    ensures Surplus(log, n) <= Balance(log)
    ensures Surplus(log, best) == Balance(log)
    decreases log
  {
    best := 0;
    if log.Then? && log.last != Accepted {
      var k := if n == 0 then 0 else n - 1;
      var b := OutstandingIsGreatestSurplus(log.before, k);
      assert n > 0 ==> Surplus(log, n) - Surplus(log.before, k) == Surplus(log, b + 1) - Surplus(log.before, b);
      if Balance(log) > 0 { best := b + 1; }
    }
  }

  // ---- a client that answers nothing

  /** Accepted REGISTERs and answers so far. */
  function News(log: Log): nat {
    if log.Nothing? then 0 else News(log.before) + if log.last == Accepted || log.last == Answer then 1 else 0
  }

  /** The times at which the timer of entry i fired. */
  function Firings(es: seq<Event>, i: nat): seq<int> {
    if es == [] then []
    else
      var e, before := es[|es| - 1], Firings(es[..|es| - 1], i);
      if e.Fire? && e.i == i then before + [e.now] else before
  }

  predicate InTime(ts: seq<int>, expires: int) { forall k :: 0 <= k < |ts| ==> ts[k] <= expires }

  /** Without news, an event other than a firing leaves an entry's keepalive alone, except
      that it may unregister it. */
  lemma QuietChange(r: Entry, t: Entry, i: nat, e: Event)
    requires EntryOk(r) && Changes(r, t, i, e)
    ensures News(r.log) <= News(t.log)
    ensures News(t.log) == News(r.log) && !(e.Fire? && e.i == i) ==>
              t.timer == r.timer && t.outstandingping == r.outstandingping && t.expires == r.expires
  {
  }

  /** A fired entry that is not refreshed pings once more, or is expired. */
  lemma QuietFiring(r: Entry, now: int, known: bool)
    requires EntryOk(r) && r.timer
    ensures var t := TimerHandler(r, now, known);
            && News(t.log) == News(r.log) && t.expires == r.expires
            && (t.timer <==> now <= r.expires && r.outstandingping < MAX_FAIL_COUNT)
            && (t.timer ==> t.outstandingping == r.outstandingping + 1)
  {
  }

  lemma {:induction false} NewsGrows(g: Registry, es: seq<Event>, i: nat)
    requires Sound(g) && AllOk(g) && i < |g.entries|
    ensures AllOk(Run(g, es)) && i < |Run(g, es).entries|
    ensures News(g.entries[i].log) <= News(Run(g, es).entries[i].log)
    decreases |es|
  {
    hide Step, Changes, EntryOk, News;
    if es != [] {
      var h, e := Run(g, es[..|es| - 1]), es[|es| - 1];
      NewsGrows(g, es[..|es| - 1], i);
      OneEntry(h, e, i);
      StepKeepsOk(h, e);
      QuietChange(h.entries[i], Step(h, e).entries[i], i, e);
    }
  }

  /** Whatever else arrives: while an armed entry hears no answer and accepts no REGISTER, it
      goes on being pinged exactly while its firings are within the ones it has left and
      within its expiry time; at the next firing it is expired. */
  lemma {:induction false} SilentClientExpires(g: Registry, es: seq<Event>, i: nat)
    requires Sound(g) && AllOk(g) && i < |g.entries| && g.entries[i].timer
    requires i < |Run(g, es).entries| && News(Run(g, es).entries[i].log) == News(g.entries[i].log)
    ensures var r := g.entries[i]; var t := Run(g, es).entries[i]; var ts := Firings(es, i);
            && (t.timer <==> |ts| <= MAX_FAIL_COUNT - r.outstandingping && InTime(ts, r.expires))
            && (t.timer ==> t.outstandingping == r.outstandingping + |ts| && t.expires == r.expires)
            && (!t.timer ==> !t.isregistered)
    decreases |es|
  {
    hide Step, Changes, News, TimerHandler, InTime;
    NewsGrows(g, es, i);
    if es == [] {
      assert InTime([], g.entries[i].expires) by { NothingLate(g.entries[i].expires); }
    } else {
      var front, e := es[..|es| - 1], es[|es| - 1];
      var h := Run(g, front);
      NewsGrows(g, front, i);
      OneEntry(h, e, i);
      QuietChange(h.entries[i], Step(h, e).entries[i], i, e);
      SilentClientExpires(g, front, i);
      if e.Fire? && e.i == i {
        OneMoreFiring(Firings(front, i), e.now, g.entries[i].expires);
        if h.entries[i].timer {
          FireReaches(h, i, e.now, e.known);
          QuietFiring(h.entries[i], e.now, e.known);
        } else {
          IdleStaysIdle(h, i, e.now, e.known);
        }
      }
    }
  }

  lemma NothingLate(expires: int)
    ensures InTime([], expires)
  {
  }

  lemma OneMoreFiring(ts: seq<int>, now: int, expires: int)
    ensures InTime(ts + [now], expires) <==> InTime(ts, expires) && now <= expires
  {
    assert (ts + [now])[|ts|] == now;
    assert forall k :: 0 <= k < |ts| ==> (ts + [now])[k] == ts[k];
  }

  lemma IdleStaysIdle(g: Registry, i: nat, now: int, known: bool)
    requires Sound(g) && i < |g.entries| && !g.entries[i].timer
    ensures Step(g, Fire(i, now, known)) == g
  {
  }

  // ---- what a REGISTER does

  /** A REGISTER is accepted exactly when it answers the waiting challenge, does not ask to
      expire at once, and has a CSeq as long as the one that was challenged. */
  lemma AcceptedIff(r: Entry, pk: Register, now: int, known: bool, nonce: nat)
    ensures TakeRegister(r, pk, now, known, nonce).log == Then(r.log, Accepted) <==>
      pk.authorization && Credited(r, pk) && pk.expires != 0 && |r.authrequest.value.cseq| == |pk.cseq|
  {
    Longer(r.log, Accepted);
  }

  lemma {:induction false} Longer(log: Log, m: Mark)
    ensures log != Then(log, m)
    decreases log
  {
    if log.Then? { Longer(log.before, m); }
  }

  /** So a REGISTER with another CSeq of the same length is accepted. */
  lemma AnotherCSeqIsAccepted(now: int, nonce: nat)
    ensures var first, second := Register(-1, false, {}, "1 REGISTER"), Register(-1, true, {nonce}, "2 REGISTER");
            var r := TakeRegister(NewEntry(now), first, now, true, nonce);
            && r.authrequest == Some(Demand(nonce, first.cseq)) && first.cseq != second.cseq
            && TakeRegister(r, second, now, true, nonce).log == Then(r.log, Accepted)
  {
    var first, second := Register(-1, false, {}, "1 REGISTER"), Register(-1, true, {nonce}, "2 REGISTER");
    assert first.cseq[0] != second.cseq[0];
    AcceptedIff(TakeRegister(NewEntry(now), first, now, true, nonce), second, now, true, nonce);
  }

  /** A REGISTER unregisters a registered entry exactly when it asks to expire at once and
      carries no credentials for a waiting challenge: none are asked for. */
  lemma UnregisteredIff(r: Entry, pk: Register, now: int, known: bool, nonce: nat)
    requires r.isregistered
    ensures !TakeRegister(r, pk, now, known, nonce).isregistered <==>
      pk.expires == 0 && !(pk.authorization && r.authrequest.Some?)
  {
  }

  // ---- who erases a registered entry

  /** The entry that holds the user's place leaves it exactly on its own authenticated
      expires of zero, or when the DELETE of an unregistered entry is answered. While it is
      registered, only a zero or another entry's DELETE can do that; but a zero without
      credentials unregisters it first (UnregisteredIff), and then its own DELETE can. */
  lemma ErasedIff(g: Registry, e: Event)
    requires Sound(g) && g.current.Some?
    ensures var c := g.current.value;
            && (Step(g, e).current != g.current <==>
                 || (e.Packet? && e.pk.authorization && e.pk.expires == 0 && g.entries[c].authrequest.Some?
                     && g.entries[c].authrequest.value.nonce in e.pk.answers)
                 || (e.Done? && e.i < |g.entries| && g.entries[e.i].deletes > 0 && !g.entries[e.i].isregistered))
            && (g.entries[c].isregistered && Step(g, e).current != g.current && !e.Packet? ==> e.Done? && e.i != c)
  {
    hide TakeRegister, HandleResponse, TimerHandler;
  }

  /** A REGISTER, and the same again with an answer to the challenge it was sent. */
  function Registered(g: Registry, cseq: string, nonce: nat, now: int): (r: Registry)
    requires Sound(g)
    ensures Sound(r)
  {
    Step(Step(g, Packet(Register(-1, false, {}, cseq), now, true, nonce)),
         Packet(Register(-1, true, {nonce}, cseq), now, true, nonce))
  }

  lemma ClientRegisters(g: Registry, cseq: string, nonce: nat, now: int)
    requires Sound(g) && g.current.None?
    ensures var r := Registered(g, cseq, nonce, now); var c := |g.entries|;
            && r.current == Some(c) && |r.entries| == c + 1
            && (forall i :: 0 <= i < c ==> r.entries[i] == g.entries[i])
            && Live(r.entries[c]) && r.entries[c].expires == now + DEFAULT_EXPIRES
  {
    var c := |g.entries|;
    var g1 := Step(g, Packet(Register(-1, false, {}, cseq), now, true, nonce));
    assert g1.current == Some(c) && g1.entries[c].authrequest == Some(Demand(nonce, cseq));
    assert forall i :: 0 <= i < c ==> g1.entries[i] == g.entries[i];
    assert !Erases(g1.entries[c], Register(-1, true, {nonce}, cseq));
  }

  /** Registered, with its timer running, and nothing of its own pending. */
  predicate Live(r: Entry) {
    r.isregistered && r.timer && r.deletes == 0 && r.authrequest.None? && r.authacceptpacket.Some?
  }

  /** The unregistering REGISTER and the answer to the DELETE it makes. */
  function Gone(g: Registry, a: nat, cseq: string, nonce: nat, now: int): (r: Registry)
    requires Sound(g)
    ensures Sound(r)
  {
    Step(Step(g, Packet(Register(0, false, {}, cseq), now, true, nonce)), Done(a))
  }

  /** A live entry is unregistered and erased by an expires of zero without credentials;
      its timer goes on. */
  lemma UnregisteredWithoutCredentials(g: Registry, a: nat, cseq: string, nonce: nat, now: int)
    requires Sound(g) && g.current == Some(a) && Live(g.entries[a])
    ensures var r := Gone(g, a, cseq, nonce, now);
            && r.current.None? && |r.entries| == |g.entries|
            && !r.entries[a].isregistered && r.entries[a].timer && r.entries[a].deletes == 0
            && r.entries[a].expires == g.entries[a].expires && r.entries[a].authacceptpacket.Some?
  {
    var g1 := Step(g, Packet(Register(0, false, {}, cseq), now, true, nonce));
    assert g1.entries[a].deletes == 1 && !g1.entries[a].isregistered && g1.current == Some(a);
  }

  /** The timer of an entry that has left runs out, and its DELETE is answered. */
  function RunOut(g: Registry, a: nat, late: int): (r: Registry)
    requires Sound(g)
    ensures Sound(r)
  {
    Step(Step(g, Fire(a, late, true)), Done(a))
  }

  lemma TimerRunsOut(g: Registry, a: nat, late: int)
    requires Sound(g) && a < |g.entries| && late > g.entries[a].expires
    requires !g.entries[a].isregistered && g.entries[a].timer && g.entries[a].authacceptpacket.Some?
    ensures var r := RunOut(g, a, late);
            r.current.None? && |r.entries| == |g.entries|
            && (forall i :: 0 <= i < |g.entries| && i != a ==> r.entries[i] == g.entries[i])
  {
    var g1 := Step(g, Fire(a, late, true));
    assert g1.entries[a].deletes == g.entries[a].deletes + 1 && !g1.entries[a].isregistered;
    assert forall i :: 0 <= i < |g.entries| && i != a ==> g1.entries[i] == g.entries[i];
  }

  /** A client that unregisters and registers again: the first entry has left the container,
      but its timer runs on, and when it expires it takes the new entry out with it. */
  lemma AbandonedEntryErasesItsSuccessor(g: Registry, a: nat, cseq: string, nonce: nat, now: int, late: int)
    requires Sound(g) && g.current == Some(a) && Live(g.entries[a]) && late > g.entries[a].expires
    ensures var back := Registered(Gone(g, a, cseq, nonce, now), cseq, nonce, now);
            var c := |g.entries|;
            && back.current == Some(c)
            && RunOut(back, a, late).current.None?
            && RunOut(back, a, late).entries[c] == back.entries[c] && Live(back.entries[c])
  {
    hide Gone, Registered, RunOut, Live;
    UnregisteredWithoutCredentials(g, a, cseq, nonce, now);
    var gone := Gone(g, a, cseq, nonce, now);
    ClientRegisters(gone, cseq, nonce, now);
    assert Registered(gone, cseq, nonce, now).entries[a] == gone.entries[a];
    TimerRunsOut(Registered(gone, cseq, nonce, now), a, late);
  }
}
