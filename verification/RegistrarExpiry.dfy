// How long a registration lasts: as long as the client asked for, if it answers its pings.

module RegistrarExpiry {
  import opened Common
  import opened Registrar

  /** The entry accepts a REGISTER by this change. */
  predicate Accepts(r: Entry, t: Entry) { t.log == Then(r.log, Accepted) }

  /** What a client asks for: an hour, if it names nothing. */
  function Wanted(pk: Register): int { if pk.expires == -1 then 3600 else pk.expires }

  /** An accepted REGISTER counts from its arrival, clears the outstanding pings and keeps the
      timer running. */
  lemma AcceptedUntil(r: Entry, pk: Register, now: int, known: bool, nonce: nat)
    requires Accepts(r, TakeRegister(r, pk, now, known, nonce))
    ensures var t := TakeRegister(r, pk, now, known, nonce);
      && t.expires - now == Wanted(pk) && t.outstandingping == 0
      && t.timer && t.isregistered && t.authacceptpacket == Some(pk)
  {
    Longer(r.log, Accepted);
  }

  /** An event that does not accept a REGISTER leaves the expiry time alone. */
  lemma OnlyAcceptMoves(r: Entry, t: Entry, i: nat, e: Event)
    requires Changes(r, t, i, e) && !Accepts(r, t)
    ensures t.expires == r.expires && t.authacceptpacket == r.authacceptpacket
    ensures t.timer ==> r.timer
  {
  }

  lemma OnlyPacketsAreAccepted(r: Entry, t: Entry, i: nat, e: Event)
    requires Changes(r, t, i, e) && Accepts(r, t)
    ensures e.Packet? && t == TakeRegister(r, e.pk, e.now, e.known, e.nonce)
  {
    Longer(r.log, Accepted);
  }

  /** When an entry is due to expire, and whether it was ever accepted. */
  datatype Due = Due(at: int, accepted: bool)

  /** By the events alone: an hour after entry i was made, or as its last accepted REGISTER asks. */
  ghost function DueAt(es: seq<Event>, i: nat): Due
    requires i < |Run(Empty(), es).entries|
    decreases |es|
  {
    if es == [] then Due(0, false)
    else
      var e, g := es[|es| - 1], Run(Empty(), es[..|es| - 1]);
      var made := if e.Packet? || e.Response? then e.now else 0;
      var r := if i < |g.entries| then g.entries[i] else NewEntry(made);
      if e.Packet? && Accepts(r, Run(Empty(), es).entries[i]) then Due(e.now + Wanted(e.pk), true)
      else if i < |g.entries| then DueAt(es[..|es| - 1], i)
      else Due(made + 3600, false)
  }

  ghost predicate ExpiresAt(t: Entry, due: Due) {
    t.expires == due.at && (t.authacceptpacket.Some? <==> due.accepted) && (t.timer ==> due.accepted)
  }

  lemma ChangeExpires(r: Entry, t: Entry, i: nat, e: Event, due: Due)
    requires Changes(r, t, i, e) && ExpiresAt(r, due)
    ensures ExpiresAt(t, if e.Packet? && Accepts(r, t) then Due(e.now + Wanted(e.pk), true) else due)
  {
    if Accepts(r, t) {
      OnlyPacketsAreAccepted(r, t, i, e);
      AcceptedUntil(r, e.pk, e.now, e.known, e.nonce);
    } else {
      OnlyAcceptMoves(r, t, i, e);
    }
  }

  /** In every reachable state an entry expires when its last accepted REGISTER asked for. */
  lemma {:induction false} ExpiresAsAsked(es: seq<Event>, i: nat)
    requires i < |Run(Empty(), es).entries|
    ensures ExpiresAt(Run(Empty(), es).entries[i], DueAt(es, i))
    decreases |es|
  {
    hide Step, Changes, ExpiresAt, Accepts;
    if es != [] {
      var e, g := es[|es| - 1], Run(Empty(), es[..|es| - 1]);
      var t := Step(g, e).entries[i];
      if i < |g.entries| {
        ExpiresAsAsked(es[..|es| - 1], i);
        OneEntry(g, e, i);
        ChangeExpires(g.entries[i], t, i, e, DueAt(es[..|es| - 1], i));
      } else {
        OnlyOneMore(g, e, i);
        NewestEntry(g, e);
        NewExpires(e.now);
        ChangeExpires(NewEntry(e.now), t, i, e, Due(e.now + 3600, false));
      }
    }
  }

  lemma NewExpires(now: int)
    ensures ExpiresAt(NewEntry(now), Due(now + 3600, false))
  {
  }

  lemma OnlyOneMore(g: Registry, e: Event, i: nat)
    requires Sound(g) && |g.entries| <= i < |Step(g, e).entries|
    ensures i == |g.entries|
  {
    hide TakeRegister, HandleResponse, TimerHandler, Erases;
  }

  // ---- a client that answers its pings

  function Said(log: Log, m: Mark): nat {
    if log.Nothing? then 0 else Said(log.before, m) + if log.last == m then 1 else 0
  }

  /** Whenever the timer of entry i fires, fewer than seven of its pings are unanswered. */
  ghost predicate PingsAnswered(g: Registry, es: seq<Event>, i: nat)
    requires Sound(g)
    decreases |es|
  {
    es == [] ||
    (var h, e := Run(g, es[..|es| - 1]), es[|es| - 1];
     PingsAnswered(g, es[..|es| - 1], i)
     && (e.Fire? && e.i == i && i < |h.entries| ==> h.entries[i].outstandingping < 7))
  }

  lemma {:induction false} EntriesStay(g: Registry, es: seq<Event>, i: nat)
    requires Sound(g) && i < |g.entries|
    ensures i < |Run(g, es).entries| && Said(g.entries[i].log, Accepted) <= Said(Run(g, es).entries[i].log, Accepted)
    ensures Said(g.entries[i].log, Unregistered) <= Said(Run(g, es).entries[i].log, Unregistered)
    decreases |es|
  {
    hide Step, Changes, Said;
    if es != [] {
      var h, e := Run(g, es[..|es| - 1]), es[|es| - 1];
      EntriesStay(g, es[..|es| - 1], i);
      OneEntry(h, e, i);
      SaidGrows(h.entries[i], Step(h, e).entries[i], i, e);
    }
  }

  lemma SaidGrows(r: Entry, t: Entry, i: nat, e: Event)
    requires Changes(r, t, i, e)
    ensures t.log == r.log || (t.log.Then? && t.log.before == r.log)
    ensures forall m :: Said(r.log, m) <= Said(t.log, m)
    ensures Said(r.log, Accepted) == Said(t.log, Accepted) <==> !Accepts(r, t)
  {
    if t.log != r.log { assert t.log.before == r.log; } else { Longer(r.log, Accepted); }
  }

  /** A change that is no firing, no acceptance and no unregistering. */
  lemma KeptOn(r: Entry, t: Entry, i: nat, e: Event)
    requires Changes(r, t, i, e) && !Accepts(r, t) && !(e.Fire? && e.i == i)
    ensures t.timer == r.timer && t.expires == r.expires && Said(t.log, Ping) == Said(r.log, Ping)
    ensures Said(t.log, Unregistered) == Said(r.log, Unregistered) ==> t.isregistered == r.isregistered
  {
  }

  lemma FiredOn(r: Entry, now: int, known: bool)
    requires r.timer && r.outstandingping < 7
    ensures var t := TimerHandler(r, now, known);
      && (t.timer <==> now <= r.expires) && t.expires == r.expires
      && (t.timer ==> Said(t.log, Ping) == Said(r.log, Ping) + 1 && t.isregistered == r.isregistered)
      && (!t.timer ==> !t.isregistered && t.log == r.log)
  {
  }

  /** A client that answers its pings and does not register again is pinged at every firing up
      to its expiry time and expired at the next one, and stays registered until then unless
      it unregisters, whatever else arrives. */
  lemma {:induction false} AnsweringClientLasts(g: Registry, es: seq<Event>, i: nat)
    requires Sound(g) && i < |g.entries| && g.entries[i].timer && PingsAnswered(g, es, i)
    requires i < |Run(g, es).entries| && Said(Run(g, es).entries[i].log, Accepted) == Said(g.entries[i].log, Accepted)
    ensures var r, t, ts := g.entries[i], Run(g, es).entries[i], Firings(es, i);
      && (t.timer <==> InTime(ts, r.expires))
      && (t.timer ==> Said(t.log, Ping) == Said(r.log, Ping) + |ts| && t.expires == r.expires)
      && (t.timer && Said(t.log, Unregistered) == Said(r.log, Unregistered) ==> t.isregistered == r.isregistered)
    decreases |es|
  {
    hide Step, Changes, TimerHandler, InTime, Said, Accepts;
    EntriesStay(g, es, i);
    if es == [] {
      NothingLate(g.entries[i].expires);
    } else {
      var front, e := es[..|es| - 1], es[|es| - 1];
      var h := Run(g, front);
      EntriesStay(g, front, i);
      OneEntry(h, e, i);
      SaidGrows(h.entries[i], Step(h, e).entries[i], i, e);
      AnsweringClientLasts(g, front, i);
      if e.Fire? && e.i == i {
        OneMoreFiring(Firings(front, i), e.now, g.entries[i].expires);
        if h.entries[i].timer {
          FireReaches(h, i, e.now, e.known);
          FiredOn(h.entries[i], e.now, e.known);
        } else {
          IdleStaysIdle(h, i, e.now, e.known);
        }
      } else {
        KeptOn(h.entries[i], Step(h, e).entries[i], i, e);
      }
    }
  }

  /** So a REGISTER accepted at some time keeps a client that answers its pings for exactly as
      long as it asked for. */
  lemma AcceptedClientLasts(g: Registry, pk: Register, now: int, known: bool, nonce: nat, es: seq<Event>)
    requires Sound(g) && g.current.Some?
    requires var i, h := g.current.value, Step(g, Packet(pk, now, known, nonce));
      && Accepts(g.entries[i], h.entries[i]) && PingsAnswered(h, es, i)
      && i < |Run(h, es).entries| && Said(Run(h, es).entries[i].log, Accepted) == Said(h.entries[i].log, Accepted)
    ensures var i, h := g.current.value, Step(g, Packet(pk, now, known, nonce));
      var t, ts := Run(h, es).entries[i], Firings(es, i);
      && (t.timer <==> InTime(ts, now + Wanted(pk)))
      && (t.timer ==> Said(t.log, Ping) == Said(h.entries[i].log, Ping) + |ts|)
      && (t.timer && Said(t.log, Unregistered) == Said(h.entries[i].log, Unregistered) ==> t.isregistered)
  {
    var i, h := g.current.value, Step(g, Packet(pk, now, known, nonce));
    AcceptedUntil(g.entries[i], pk, now, known, nonce);
    hide Step, TakeRegister, PingsAnswered, InTime, Said;
    assert h.entries[i] == TakeRegister(g.entries[i], pk, now, known, nonce) by { TakenByCurrent(g, pk, now, known, nonce); }
    AnsweringClientLasts(h, es, i);
  }

  lemma TakenByCurrent(g: Registry, pk: Register, now: int, known: bool, nonce: nat)
    requires Sound(g) && g.current.Some?
    ensures var i := g.current.value;
      Step(g, Packet(pk, now, known, nonce)).entries[i] == TakeRegister(g.entries[i], pk, now, known, nonce)
  {
    hide TakeRegister;
  }
}
