// What each REGISTER, response and firing is answered with, and what that comes to.

module RegistrarReplies {
  import opened Common
  import opened Registrar
  import opened RegistrarExpiry

  /** The REGISTER has an Authorization header, and a challenge is waiting for it. */
  predicate Replying(r: Entry, pk: Register) { pk.authorization && r.authrequest.Some? }

  /** Its credentials answer that challenge. */
  predicate Right(r: Entry, pk: Register) { Replying(r, pk) && r.authrequest.value.nonce in pk.answers }

  /** How a REGISTER is answered, in every state of an entry: without credentials for a waiting
      challenge it unregisters, is too brief (423), or is challenged (401) with a challenge that
      is then the one waiting; with them it is forbidden (403), accepted (200), or not answered. */
  lemma AnsweredWith(r: Entry, pk: Register, now: int, known: bool, nonce: nat)
    ensures var t, wanted := TakeRegister(r, pk, now, known, nonce), Wanted(pk);
      && (t.log == Then(r.log, Unregistered) <==> !Replying(r, pk) && wanted == 0)
      && (t.log == Then(r.log, TooBrief) <==> !Replying(r, pk) && wanted != 0 && wanted < 3600)
      && (t.log == Then(r.log, Challenged(nonce)) <==> !Replying(r, pk) && wanted >= 3600)
      && (t.log == Then(r.log, Forbidden) <==> Replying(r, pk) && !Right(r, pk))
      && (Accepts(r, t) <==> Right(r, pk) && pk.expires != 0 && |r.authrequest.value.cseq| == |pk.cseq|)
      && (t.log == r.log <==> Right(r, pk) && (pk.expires == 0 || |r.authrequest.value.cseq| != |pk.cseq|))
      && (t.log == Then(r.log, Challenged(nonce)) ==> t.authrequest == Some(Demand(nonce, pk.cseq)))
  {
    forall m ensures r.log != Then(r.log, m) { Longer(r.log, m); }
  }

  /** Without a challenge waiting it makes no difference which handler a REGISTER reaches. */
  lemma NoChallengeStarts(r: Entry, pk: Register, now: int, known: bool, nonce: nat)
    requires r.authrequest.None?
    ensures RegWaitAuth(r, pk, now, known, nonce) == TakeRegister(r, pk, now, known, nonce)
  {
  }

  /** A REGISTER that is neither accepted, challenged nor unregistering changes nothing else. */
  lemma OtherwiseUntouched(r: Entry, pk: Register, now: int, known: bool, nonce: nat)
    requires var t := TakeRegister(r, pk, now, known, nonce);
      !Accepts(r, t) && t.log != Then(r.log, Challenged(nonce)) && t.log != Then(r.log, Unregistered)
    ensures var t := TakeRegister(r, pk, now, known, nonce); t == r.(log := t.log)
  {
    AnsweredWith(r, pk, now, known, nonce);
  }

  /** A DELETE goes to the control server exactly when an entry that was once accepted is
      unregistered, or is expired, and the directory knows its domain; until then the entry
      stays as it is, registered or not. */
  lemma DeleteSentIff(r: Entry, pk: Register, now: int, known: bool, nonce: nat)
    ensures var t := TakeRegister(r, pk, now, known, nonce);
      t.deletes == r.deletes + if !Replying(r, pk) && Wanted(pk) == 0 && r.authacceptpacket.Some? && known then 1 else 0
    ensures var t := TimerHandler(r, now, known); var over := now > r.expires || r.outstandingping == 7;
      && t.deletes == r.deletes + (if over && r.authacceptpacket.Some? && known then 1 else 0)
      && t.isregistered == (r.isregistered && !over) && t.timer == (r.timer && !over)
      && t.log == if over then r.log else Then(r.log, Ping)
  {
  }

  /** An accepted REGISTER sent again is accepted again exactly when its domain is not known to
      the directory: only then is the challenge left waiting. */
  lemma AcceptedAgainIff(r: Entry, pk: Register, now: int, known: bool, nonce: nat, later: int, known': bool, nonce': nat)
    requires Accepts(r, TakeRegister(r, pk, now, known, nonce))
    ensures var t := TakeRegister(r, pk, now, known, nonce);
      Accepts(t, TakeRegister(t, pk, later, known', nonce')) <==> !known
  {
    AnsweredWith(r, pk, now, known, nonce);
    AnsweredWith(TakeRegister(r, pk, now, known, nonce), pk, later, known', nonce');
  }

  /** A response is taken as an answer exactly if the entry was ever accepted and it answers an
      OPTIONS; any other changes nothing. */
  lemma HeardIff(r: Entry, options: bool)
    ensures var t := HandleResponse(r, options);
      (t.log == Then(r.log, Answer) <==> r.authacceptpacket.Some? && options) && (t.log != Then(r.log, Answer) ==> t == r)
  {
    Longer(r.log, Answer);
  }

  ghost predicate Numbered(r: Entry) { r.optionscseq == Said(r.log, Answer) % U32_RANGE }

  ghost predicate AllNumbered(g: Registry) { forall i :: 0 <= i < |g.entries| ==> Numbered(g.entries[i]) }

  lemma ChangesKeepNumbers(r: Entry, t: Entry, i: nat, e: Event)
    requires Numbered(r) && Changes(r, t, i, e)
    ensures Numbered(t)
  {
    if e.Response? && t == HandleResponse(r, e.options) && t != r {
      assert Said(t.log, Answer) == Said(r.log, Answer) + 1;
      MovesOn(Said(r.log, Answer), U32_RANGE);
    } else {
      assert t.optionscseq == r.optionscseq && Said(t.log, Answer) == Said(r.log, Answer);
    }
  }

  /** In every reachable state the CSeq of the next OPTIONS is the number of pings answered. */
  lemma {:induction false} PingsAreNumbered(es: seq<Event>)
    ensures AllNumbered(Run(Empty(), es))
    decreases |es|
  {
    hide Step, Changes, Numbered;
    if es != [] {
      var g, e := Run(Empty(), es[..|es| - 1]), es[|es| - 1];
      PingsAreNumbered(es[..|es| - 1]);
      var h := Step(g, e);
      forall i | 0 <= i < |h.entries| ensures Numbered(h.entries[i]) {
        if i < |g.entries| {
          OneEntry(g, e, i);
          ChangesKeepNumbers(g.entries[i], h.entries[i], i, e);
        } else {
          OnlyOneMore(g, e, i);
          NewestEntry(g, e);
          NewIsNumbered(e.now);
          ChangesKeepNumbers(NewEntry(e.now), h.entries[i], i, e);
        }
      }
    }
  }

  lemma NewIsNumbered(now: int)
    ensures Numbered(NewEntry(now))
  {
  }
}
