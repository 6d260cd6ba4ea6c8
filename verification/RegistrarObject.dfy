// The registration objects and the container that finds them by user.

module RegistrarObject {
  import opened Common
  import opened Registrar

  class Registration {
    const user: string
    var isregistered: bool
    var outstandingping: int
    var optionscseq: u32
    var authrequest: Option<Demand>
    var authacceptpacket: Option<Register>
    var timer: bool
    var expires: int
    var deletes: nat
    var log: Log

    ghost function Abstract(): Entry
      reads this
    {
      Entry(isregistered, outstandingping, optionscseq, authrequest, authacceptpacket, timer, expires, deletes, log)
    }

    constructor (user: string, now: int)
      ensures this.user == user && Abstract() == NewEntry(now)
    {
      this.user, isregistered, outstandingping, optionscseq := user, false, 0, 0;
      authrequest, authacceptpacket, timer := None, None, false;
      expires, deletes, log := now + DEFAULT_EXPIRES, 0, Nothing;
    }

    method Note(m: Mark)
      modifies this`log
      ensures Abstract() == Say(old(Abstract()), m)
    {
      log := Then(log, m);
    }

    method ExpireNow(known: bool)
      modifies this
      ensures Abstract() == Expire(old(Abstract()), known)
    {
      isregistered := false;
      if authacceptpacket.None? { return; }
      if !known { return; }
      deletes := deletes + 1;
    }

    method Start(pk: Register, known: bool, nonce: nat)
      modifies this
      ensures Abstract() == RegStart(old(Abstract()), pk, known, nonce)
    {
      var wanted := pk.expires;
      if wanted == -1 {
        wanted := DEFAULT_EXPIRES;
      }
      if wanted == 0 {
        Note(Unregistered);
        ExpireNow(known);
        return;
      }
      if DEFAULT_EXPIRES > wanted {
        Note(TooBrief);
        return;
      }
      authrequest := Some(Demand(nonce, pk.cseq));
      Note(Challenged(nonce));
    }

    /** regwaitauth; erase is true when the container must drop the entry. */
    method WaitAuth(pk: Register, now: int, known: bool, nonce: nat) returns (erase: bool)
      modifies this
      ensures Abstract() == RegWaitAuth(old(Abstract()), pk, now, known, nonce)
      ensures erase == (Credited(old(Abstract()), pk) && pk.expires == 0)
    {
      erase := false;
      if authrequest.None? {
        Start(pk, known, nonce);
        return;
      }
      if authrequest.value.nonce !in pk.answers {
        Note(Forbidden);
        return;
      }
      if pk.expires == 0 { return true; }
      if Differs(authrequest.value.cseq, pk.cseq) { return; }
      AcceptRegister(pk, now, known);
    }

    method AcceptRegister(pk: Register, now: int, known: bool)
      modifies this
      ensures Abstract() == Accept(old(Abstract()), pk, now, known)
    {
      outstandingping := 0;
      Note(Accepted);
      authacceptpacket := Some(pk);
      expires := now + if pk.expires == -1 then DEFAULT_EXPIRES else pk.expires;
      timer := true;
      if !isregistered {
        isregistered := true;
      }
      if !known { return; }
      authrequest := None;
    }

    method PingClient()
      modifies this
      ensures Abstract() == SendOptions(old(Abstract()))
    {
      Note(Ping);
      outstandingping := outstandingping + 1;
    }

    method OnTimer(now: int, known: bool)
      requires timer
      modifies this
      ensures Abstract() == TimerHandler(old(Abstract()), now, known)
    {
      timer := false;
      if now > expires {
        ExpireNow(known);
        return;
      }
      if MAX_FAIL_COUNT == outstandingping {
        ExpireNow(known);
        return;
      }
      PingClient();
      timer := true;
    }

    method OnResponse(options: bool)
      modifies this
      ensures Abstract() == HandleResponse(old(Abstract()), options)
    {
      if authacceptpacket.None? { return; }
      if options {
        Note(Answer);
        optionscseq := (optionscseq + 1) % U32_RANGE;
        outstandingping := if outstandingping != 0 then outstandingping - 1 else 0;
      }
    }
  }

  ghost function States(rs: seq<Registration>): (s: seq<Entry>)
    reads rs
    ensures |s| == |rs| && forall i :: 0 <= i < |rs| ==> s[i] == rs[i].Abstract()
  {
    seq(|rs|, i requires 0 <= i < |rs| reads rs => rs[i].Abstract())
  }

  class Container {
    /** Which entry each user has, by user. */
    var regs: map<string, Registration>

    /** Every entry ever made for a user, in order, and which of them the user has. An entry
        that has left the container lives on through its timer and its requests. */
    ghost var made: map<string, seq<Registration>>
    ghost var place: map<string, nat>

    ghost predicate Valid()
      reads this
    {
      && regs.Keys == place.Keys
      && (forall u :: u in place ==> u in made && place[u] < |made[u]| && made[u][place[u]] == regs[u])
      && (forall u, i :: u in made && 0 <= i < |made[u]| ==> made[u][i].user == u)
      && (forall u, i, j :: u in made && 0 <= i < j < |made[u]| ==> made[u][i] != made[u][j])
    }

    ghost function Made(user: string): seq<Registration>
      reads this
    {
      if user in made then made[user] else []
    }

    /** What the container and the entries it has ever made are for one user. */
    ghost function Abstract(user: string): (g: Registry)
      requires Valid()
      reads this, Made(user)
      ensures Sound(g) && |g.entries| == |Made(user)|
    {
      Registry(if user in place then Some(place[user]) else None, States(Made(user)))
    }

    constructor ()
      ensures Valid() && forall u :: Abstract(u) == Empty()
    {
      regs, made, place := map[], map[], map[];
    }

    /** The entry for a user, made if there is none. */
    method FindOrMake(user: string, now: int) returns (r: Registration)
      requires Valid()
      modifies this
      ensures Valid() && user in place && r == regs[user] == Made(user)[place[user]]
      ensures Abstract(user) == Found(old(Abstract(user)), now)
      ensures forall u :: u != user ==> Made(u) == old(Made(u)) && Abstract(u) == old(Abstract(u))
      ensures r in old(Made(user)) || fresh(r)
    {
      if user in regs {
        r := regs[user];
      } else {
        r := new Registration(user, now);
        Insert(r);
      }
    }

    method Insert(r: Registration)
      requires Valid() && r.user !in regs && (forall u :: r !in Made(u))
      modifies this
      ensures Valid() && r.user in place && r == regs[r.user] == Made(r.user)[place[r.user]]
      ensures var g := old(Abstract(r.user));
              Abstract(r.user) == Registry(Some(|g.entries|), g.entries + [r.Abstract()])
      ensures forall u :: u != r.user ==> Made(u) == old(Made(u)) && Abstract(u) == old(Abstract(u))
    {
      ghost var before := Made(r.user);
      place := place[r.user := |before|];
      made := made[r.user := before + [r]];
      regs := regs[r.user := r];
      assert Made(r.user) == before + [r];
    }

    /** registrarsippacket for a REGISTER. */
    method OnRegister(user: string, pk: Register, now: int, known: bool, nonce: nat)
      requires Valid()
      modifies this, Made(user)
      ensures Valid() && Abstract(user) == Step(old(Abstract(user)), Packet(pk, now, known, nonce))
      ensures forall u :: u != user ==> Abstract(u) == old(Abstract(u))
    {
      hide TakeRegister, Erases;
      var r := FindOrMake(user, now);
      HandOn(r, pk, now, known, nonce);
    }

    /** The found entry takes the REGISTER, and may ask to be erased. */
    method HandOn(r: Registration, pk: Register, now: int, known: bool, nonce: nat)
      requires Valid() && r.user in place && r == regs[r.user]
      modifies this, r
      ensures Valid()
      ensures var g, i := old(Abstract(r.user)), old(place[r.user]);
              var h := Registrar.Put(g, i, TakeRegister(g.entries[i], pk, now, known, nonce));
              Abstract(r.user) == if Erases(g.entries[i], pk) then h.(current := None) else h
      ensures forall u :: u != r.user ==> Made(u) == old(Made(u)) && Abstract(u) == old(Abstract(u))
    {
      var erase := Taken(r, place[r.user], pk, now, known, nonce);
      hide TakeRegister, Erases;
      if erase {
        Drop(r.user);
      }
    }

    method Taken(r: Registration, ghost i: nat, pk: Register, now: int, known: bool, nonce: nat) returns (erase: bool)
      requires Valid() && i < |Made(r.user)| && Made(r.user)[i] == r
      modifies r
      ensures Valid()
      ensures var g := old(Abstract(r.user));
              && Abstract(r.user) == Registrar.Put(g, i, TakeRegister(g.entries[i], pk, now, known, nonce))
              && erase == Erases(g.entries[i], pk)
      ensures forall u :: u != r.user ==> Made(u) == old(Made(u)) && Abstract(u) == old(Abstract(u))
    {
      hide RegWaitAuth, RegStart;
      erase := false;
      if pk.authorization && r.authrequest.Some? {
        erase := r.WaitAuth(pk, now, known, nonce);
      } else {
        r.Start(pk, known, nonce);
      }
    }

    /** registrarsippacket for a response. */
    method OnResponsePacket(user: string, options: bool, now: int)
      requires Valid()
      modifies this, Made(user)
      ensures Valid() && Abstract(user) == Step(old(Abstract(user)), Response(options, now))
      ensures forall u :: u != user ==> Abstract(u) == old(Abstract(u))
    {
      hide HandleResponse;
      var r := FindOrMake(user, now);
      HandOnResponse(r, options);
    }

    method HandOnResponse(r: Registration, options: bool)
      requires Valid() && r.user in place && r == regs[r.user]
      modifies r
      ensures Valid()
      ensures var g, i := old(Abstract(r.user)), old(place[r.user]);
              Abstract(r.user) == Registrar.Put(g, i, HandleResponse(g.entries[i], options))
      ensures forall u :: u != r.user ==> Abstract(u) == old(Abstract(u))
    {
      hide HandleResponse;
      r.OnResponse(options);
    }

    /** The container no longer has an entry for the user. */
    method Drop(user: string)
      requires Valid()
      modifies this
      ensures Valid() && Abstract(user) == old(Abstract(user)).(current := None)
      ensures forall u :: Made(u) == old(Made(u)) && (u != user ==> Abstract(u) == old(Abstract(u)))
    {
      regs := regs - {user};
      place := place - {user};
    }

    /** timerhandler of an entry, in the container or not. */
    method TimerFired(r: Registration, ghost i: nat, now: int, known: bool)
      requires Valid() && i < |Made(r.user)| && Made(r.user)[i] == r
      modifies r
      ensures Valid() && Abstract(r.user) == Step(old(Abstract(r.user)), Fire(i, now, known))
      ensures forall u :: u != r.user ==> Abstract(u) == old(Abstract(u))
    {
      hide TimerHandler;
      if r.timer {
        r.OnTimer(now, known);
      }
    }

    /** httpcallbackanddie of an entry, which need not be the one the container has. */
    method HttpCallbackAndDie(r: Registration, ghost i: nat)
      requires Valid() && i < |Made(r.user)| && Made(r.user)[i] == r
      modifies this, r
      ensures Valid() && Abstract(r.user) == Step(old(Abstract(r.user)), Done(i))
      ensures forall u :: u != r.user ==> Abstract(u) == old(Abstract(u))
    {
      if r.deletes == 0 { return; }
      Answered(r, i);
      if !r.isregistered {
        Drop(r.user);
      }
    }

    method Answered(r: Registration, ghost i: nat)
      requires Valid() && i < |Made(r.user)| && Made(r.user)[i] == r && r.deletes > 0
      modifies r
      ensures Valid() && r.isregistered == old(r.isregistered)
      ensures var g := old(Abstract(r.user));
              Abstract(r.user) == Registrar.Put(g, i, g.entries[i].(deletes := g.entries[i].deletes - 1))
      ensures forall u :: u != r.user ==> Made(u) == old(Made(u)) && Abstract(u) == old(Abstract(u))
    {
      r.deletes := r.deletes - 1;
    }
  }
}
