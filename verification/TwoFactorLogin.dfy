/**
 The in-process store of login challenges, and the handlers of the second login step on top of the
 database and the challenge store. Between any two calls of a handler, other requests and the user's
 changes of the settings may come in; every call may fail, and may take effect although its answer is
 lost. The handlers follow the code branch by branch and are shown to take only steps of
 TwoFactorProtocol, whose lemmas then apply.
 */
module TwoFactorLogin {
  import opened Wrappers
  import opened TwoFactorProtocol

  // ---- the challenge store ---------------------------------------------------------------------

  datatype Challenge = Challenge(user: nat, failures: nat, expires: int)

  function LiveChallenge(items: map<Ticket, Challenge>, token: Ticket, now: int): Option<Challenge> {
    if token in items && now < items[token].expires then Some(items[token]) else None
  }

  // From now on, items' holds what items does, and c for the token.
  ghost predicate Becomes(items: map<Ticket, Challenge>, token: Ticket, c: Option<Challenge>, now: int,
                          items': map<Ticket, Challenge>) {
    forall t, time :: now <= time ==>
      LiveChallenge(items', t, time) ==
        if t == token then (if c.Some? && time < c.value.expires then c else None) else LiveChallenge(items, t, time)
  }

  // The live tickets with their failures, as the protocol sees them.
  function TicketsOf(items: map<Ticket, Challenge>, now: int): map<Ticket, nat> {
    map t | t in items && now < items[t].expires :: items[t].failures
  }

  // What the passing of time does to the tickets: some expire.
  lemma TimeExpiresTickets(items: map<Ticket, Challenge>, now: int, later: int)
    requires now <= later
    ensures TicketsOf(items, later) == TicketsOf(items, now) - (set t | t in items && items[t].expires <= later)
  {
  }

  class ChallengeStore {
    var items: map<Ticket, Challenge>

    constructor ()
      ensures items == map[]
    {
      items := map[];
    }

    // An expired challenge is forgotten.
    method Live(token: Ticket, now: int) returns (c: Option<Challenge>)
      modifies this
      ensures c == LiveChallenge(old(items), token, now)
      ensures items == if c.Some? then old(items) else old(items) - {token}
      ensures Becomes(old(items), token, c, now, items)
      ensures TicketsOf(items, now) == TicketsOf(old(items), now)
    {
      if token !in items || !(now < items[token].expires) {
        items := items - {token};
        return None;
      }
      c := Some(items[token]);
    }

    method Issue(token: Ticket, user: nat, ttl: int, now: int)
      modifies this
      ensures Becomes(old(items), token, Some(Challenge(user, 0, now + ttl)), now, items)
      ensures ttl > 0 ==> TicketsOf(items, now) == TicketsOf(old(items), now)[token := 0]
    {
      items := items[token := Challenge(user, 0, now + ttl)];
    }

    method Peek(token: Ticket, now: int) returns (user: Option<nat>)
      modifies this
      ensures user == if LiveChallenge(old(items), token, now).Some?
                then Some(LiveChallenge(old(items), token, now).value.user) else None
      ensures Becomes(old(items), token, LiveChallenge(old(items), token, now), now, items)
      ensures TicketsOf(items, now) == TicketsOf(old(items), now) && (user.Some? <==> token in TicketsOf(items, now))
    {
      var c := Live(token, now);
      user := if c.Some? then Some(c.value.user) else None;
    }

    // The max-th failure takes the challenge away.
    method Fail(token: Ticket, max: nat, now: int) returns (dead: bool)
      modifies this
      ensures
        var c := LiveChallenge(old(items), token, now);
        && dead == (c.None? || c.value.failures + 1 >= max)
        && Becomes(old(items), token, if dead then None
            else Some(c.value.(failures := c.value.failures + 1)), now, items)
      ensures TicketsOf(items, now) == Counted(TicketsOf(old(items), now), token, max)
    {
      var c := Live(token, now);
      if c.None? {
        return true;
      }
      var failed := c.value.(failures := c.value.failures + 1);
      items := items[token := failed];
      if failed.failures >= max {
        items := items - {token};
        return true;
      }
      dead := false;
    }

    method Consume(token: Ticket, now: int) returns (user: Option<nat>)
      modifies this
      ensures user == if LiveChallenge(old(items), token, now).Some?
                then Some(LiveChallenge(old(items), token, now).value.user) else None
      ensures Becomes(old(items), token, None, now, items)
      ensures user.Some? <==> token in TicketsOf(old(items), now)
      ensures TicketsOf(items, now) == TicketsOf(old(items), now) - {token}
    {
      var c := Live(token, now);
      if c.None? {
        return None;
      }
      items := items - {token};
      user := Some(c.value.user);
    }
  }

  // ---- the stores as the handlers see them -----------------------------------------------------

  // If it is quiet, nobody else does anything meanwhile and no call fails.
  class Stores {
    var w: World
    const quiet: bool
    ghost var run: seq<World>

    ghost predicate Valid()
      reads this
    {
      IsRun(run) && run[|run| - 1] == w
    }

    // Request i is at this stage of its handler.
    predicate At(i: nat, stage: Stage)
      reads this
    {
      AtStage(w, i, stage)
    }

    constructor (generate: Generator, quiet: bool)
      ensures Valid() && Init(w) && w.generate == generate && this.quiet == quiet
    {
      w := World(generate, [None], 0, [{}], {}, map[], {}, map[], [], [], [], [], []);
      this.quiet := quiet;
      run := [World(generate, [None], 0, [{}], {}, map[], {}, map[], [], [], [], [], [])];
    }

    method Take(next: World)
      requires Valid() && Step(w, next)
      modifies this
      ensures Valid() && w == next
    {
      w := next;
      run := run + [next];
    }

    // A step of request j.
    method Move(j: nat, next: World)
      requires Valid() && RequestStep(w, next, j)
      modifies this
      ensures Valid() && w == next
    {
      Take(next);
    }

    // Request i is where it was.
    twostate predicate Kept(i: nat)
      reads this
    {
      && i < |old(w.requests)| <= |w.requests| && w.requests[i] == old(w.requests[i])
      && w.generate == old(w.generate)
    }

    // A call fails, or its answer is lost.
    method Fails() returns (fails: bool)
      ensures quiet ==> !fails
    {
      fails := *;
      fails := fails && !quiet;
    }

    // ---- what others do --------------------------------------------------------------------------

    // Anything that another request, the user or the clock may do next.
    method Other(i: nat)
      requires Valid() && i < |w.requests|
      modifies this
      ensures Valid() && Kept(i)
    {
      var what: int, t: Ticket, code: Code := *, *, *;
      if what == 0 {
        if t !in w.issued {
          assert Issue(w, w.(tickets := w.tickets[t := 0], issued := w.issued + {t}), t);
          Take(w.(tickets := w.tickets[t := 0], issued := w.issued + {t}));
        }
      } else if what == 1 {
        assert Expire(w, w.(tickets := w.tickets - {t}), t);
        Take(w.(tickets := w.tickets - {t}));
      } else if what == 2 {
        OtherSettings();
      } else if what == 3 {
        var r := Request(if t in w.tickets then Some(t) else None, code, Asked);
        assert Ask(w, w.(requests := w.requests + [r]), r);
        Take(w.(requests := w.requests + [r]));
      } else {
        OtherRequest(i);
      }
    }

    method OtherSettings()
      requires Valid()
      modifies this
      ensures Valid() && w.requests == old(w.requests) && w.generate == old(w.generate)
    {
      var what: int, secret: Secret, digits: int, now: nat, codes: set<int> := *, *, *, *, *;
      var step := Verify(w.generate, secret, digits, now);
      if what == 0 && step.Some? {
        assert Enable(w, EnabledWith(w, Setup(secret, step.value), codes), secret, digits, now, codes);
        Take(EnabledWith(w, Setup(secret, step.value), codes));
      } else if what == 1 {
        Take(DisabledIn(w));
      } else {
        Take(WithCodes(w, codes));
      }
    }

    method OtherRequest(i: nat)
      requires Valid() && i < |w.requests|
      modifies this
      ensures Valid() && Kept(i)
    {
      var j: int := *;
      if j < 0 || j >= |w.requests| || j == i {
        return;
      }
      var r := w.requests[j];
      var ends: bool := *;
      if ends {
        Move(j, Moved(w, j, Over));
      } else if r.stage.Asked? || r.stage.HasSecret? {
        OtherCode(j);
      } else if r.stage.Wrong? && r.ticket.Some? && r.ticket.value in w.tickets {
        Move(j, Failed(j));
      } else if r.stage.Passed? && r.ticket.Some? && r.ticket.value in w.tickets {
        Move(j, Taken(j));
      } else if r.stage.Consumed? {
        Move(j, Moved(w, j, Over).(sessions := w.sessions + [j]));
      }
    }

    // Request j has its code checked.
    method OtherCode(j: nat)
      requires Valid() && j < |w.requests| && (w.requests[j].stage.Asked? || w.requests[j].stage.HasSecret?)
      modifies this
      ensures Valid() && |w.requests| == |old(w.requests)| && w.generate == old(w.generate)
      ensures forall i :: 0 <= i < |w.requests| && i != j ==> w.requests[i] == old(w.requests[i])
    {
      var r := w.requests[j];
      if r.stage.Asked? && r.code.Recovery? && r.code.hash in w.codes {
        Move(j, Used(j));
      } else if r.stage.Asked? && r.code.Totp? && Enabled(w) {
        Move(j, Moved(w, j, SecretOf(w)));
      } else if r.stage.HasSecret? && r.code.Totp? {
        OtherDigits(j);
      } else {
        Move(j, Moved(w, j, Wrong));
      }
    }

    method OtherDigits(j: nat)
      requires Valid() && j < |w.requests| && w.requests[j].stage.HasSecret? && w.requests[j].code.Totp?
      modifies this
      ensures Valid() && |w.requests| == |old(w.requests)| && w.generate == old(w.generate)
      ensures forall i :: 0 <= i < |w.requests| && i != j ==> w.requests[i] == old(w.requests[i])
    {
      var now: nat := *;
      var step := Verify(w.generate, w.requests[j].stage.secret, w.requests[j].code.digits, now);
      if step.Some? && w.lastStep < step.value {
        assert AcceptStep(w, Accepted(j, step.value, now), j, now);
        Move(j, Accepted(j, step.value, now));
      } else {
        Move(j, Moved(w, j, Wrong));
      }
    }

    method Others(i: nat)
      requires Valid() && i < |w.requests|
      modifies this
      ensures Valid() && Kept(i) && (quiet ==> w == old(w))
    {
      if quiet {
        return;
      }
      var steps: nat := *;
      while steps > 0
        invariant Valid() && Kept(i)
      {
        Other(i);
        steps := steps - 1;
      }
    }

    // ---- the states after a step of request j ------------------------------------------------------

    // Its recovery code is gone.
    function Used(j: nat): World
      requires j < |w.requests| && w.requests[j].code.Recovery?
      reads this
    {
      var hash := w.requests[j].code.hash;
      Moved(w, j, Passed).(codes := w.codes - {hash}, uses := w.uses + [Use(j, Batch(w), hash)])
    }

    // Its digits are recorded.
    function Accepted(j: nat, step: int, now: nat): World
      requires j < |w.requests| && w.requests[j].stage.HasSecret? && w.requests[j].code.Totp?
      reads this
    {
      Moved(w, j, Passed).(lastStep := step, accepts := w.accepts + [Acceptance(w, j, step, now)])
    }

    // A failure is counted.
    function Failed(j: nat): World
      requires j < |w.requests| && w.requests[j].ticket.Some?
      reads this
    {
      var t := w.requests[j].ticket.value;
      Moved(w, j, Over).(tickets := Counted(w.tickets, t, MAX_FAILURES), failures :=
          w.failures[t := Failures(w.failures, t) + 1])
    }

    // It has taken its ticket.
    function Taken(j: nat): World
      requires j < |w.requests| && w.requests[j].ticket.Some?
      reads this
    {
      var t := w.requests[j].ticket.value;
      Moved(w, j, Consumed).(tickets := w.tickets - {t}, consumptions := w.consumptions + [Consumption(j, t)])
    }

    // ---- the calls of request i ------------------------------------------------------------------

    // The start of a handler: a ticket is looked up, or there is none to look up.
    method Begin(ticket: Option<Ticket>, code: Code) returns (i: Option<nat>)
      requires Valid()
      modifies this
      ensures Valid()
      ensures i.Some? ==>
                && At(i.value, Asked) && i.value == |old(w.requests)|
                && w == old(w).(requests := old(w.requests) + [Request(ticket, code, Asked)])
      ensures i.None? ==> w == old(w)
      ensures ticket.Some? && ticket.value !in old(w.tickets) ==> i.None?
      ensures quiet && (ticket.Some? ==> ticket.value in old(w.tickets)) ==> i.Some?
    {
      var fails := Fails();
      if fails || (ticket.Some? && ticket.value !in w.tickets) {
        return None;
      }
      var r := Request(ticket, code, Asked);
      assert Ask(w, w.(requests := w.requests + [r]), r);
      i := Some(|w.requests|);
      Take(w.(requests := w.requests + [r]));
    }

    // The request moves on by itself.
    method Give(i: nat, stage: Stage)
      requires Valid() && i < |w.requests| && RequestStep(w, Moved(w, i, stage), i)
      modifies this
      ensures Valid() && w == Moved(old(w), i, stage)
    {
      Move(i, Moved(w, i, stage));
    }

    // Request i has moved to this stage; if it is quiet, so far the settings and the tickets are as before.
    twostate predicate Answered(i: nat, stage: Stage)
      reads this
    {
      && i < |old(w.requests)| <= |w.requests| && w.requests[i] == old(w.requests[i]).(stage := stage)
      && w.generate == old(w.generate)
      && (quiet ==>
          w.tickets == old(w.tickets) && w.setups == old(w.setups) && w.failures == old(w.failures)
              && w.sessions == old(w.sessions))
    }

    // The answer to an accepted code may be lost, which looks like a wrong one.
    method Answer(i: nat) returns (ok: bool)
      requires Valid() && At(i, Passed)
      modifies this
      ensures Valid() && Answered(i, if ok then Passed else Wrong) && (quiet ==> ok)
    {
      var fails := Fails();
      if fails {
        Give(i, Wrong);
      }
      ok := !fails;
    }

    method UseRecoveryCode(i: nat) returns (ok: bool)
      requires Valid() && At(i, Asked) && w.requests[i].code.Recovery?
      modifies this
      ensures Valid() && Answered(i, if ok then Passed else Wrong)
      ensures quiet ==> ok == (old(w.requests)[i].code.hash in old(w.codes))
    {
      Others(i);
      var fails := Fails();
      if fails || w.requests[i].code.hash !in w.codes {
        Give(i, Wrong);
        return false;
      }
      Move(i, Used(i));
      ok := Answer(i);
    }

    method GetTOTP(i: nat) returns (secret: Option<Secret>)
      requires Valid() && At(i, Asked) && w.requests[i].code.Totp?
      modifies this
      ensures Valid()
      ensures secret.None? ==> Answered(i, Wrong)
      ensures secret.Some? ==>
                && i < |w.requests| && w.requests[i].stage.HasSecret? && w.requests[i].stage.secret == secret.value
                && Answered(i, w.requests[i].stage)
      ensures quiet ==> w == (if Enabled(old(w)) then Moved(old(w), i, SecretOf(old(w))) else Moved(old(w), i, Wrong))
    {
      Others(i);
      var fails := Fails();
      if fails || !Enabled(w) {
        Give(i, Wrong);
        return None;
      }
      secret := Some(SecretOf(w).secret);
      Give(i, SecretOf(w));
    }

    // One statement: compare with the last step and record this one.
    method AcceptTOTPStep(i: nat, step: int, now: nat) returns (ok: bool)
      requires Valid() && i < |w.requests| && w.requests[i].stage.HasSecret? && w.requests[i].code.Totp?
      requires Verify(w.generate, w.requests[i].stage.secret, w.requests[i].code.digits, now) == Some(step)
      modifies this
      ensures Valid() && Answered(i, if ok then Passed else Wrong)
      ensures quiet ==> ok == (old(w.lastStep) < step)
    {
      Others(i);
      var fails := Fails();
      if fails || w.lastStep >= step {
        Give(i, Wrong);
        return false;
      }
      assert AcceptStep(w, Accepted(i, step, now), i, now);
      Move(i, Accepted(i, step, now));
      ok := Answer(i);
    }

    method Fail(i: nat)
      requires Valid() && At(i, Wrong) && w.requests[i].ticket.Some?
      modifies this
      ensures Valid()
      ensures
        var t := old(w.requests)[i].ticket.value;
        quiet ==> w.tickets == Counted(old(w.tickets), t, MAX_FAILURES) && w.sessions == old(w.sessions)
    {
      Others(i);
      var fails := Fails();
      if fails || w.requests[i].ticket.value !in w.tickets {
        Give(i, Over);
        return;
      }
      Move(i, Failed(i));
    }

    method Consume(i: nat) returns (ok: bool)
      requires Valid() && At(i, Passed) && w.requests[i].ticket.Some?
      modifies this
      ensures Valid() && At(i, if ok then Consumed else Over)
      ensures w.requests[i] == old(w.requests[i]).(stage := if ok then Consumed else Over)
      ensures
        var t := old(w.requests)[i].ticket.value;
        quiet ==> ok == (t in old(w.tickets)) && w.tickets == old(w.tickets) - {t}
    {
      Others(i);
      var fails := Fails();
      if fails || w.requests[i].ticket.value !in w.tickets {
        Give(i, Over);
        return false;
      }
      Move(i, Taken(i));
      fails := Fails();
      if fails {
        Give(i, Over);
      }
      ok := !fails;
    }

    method CreateSession(i: nat) returns (ok: bool)
      requires Valid() && At(i, Consumed)
      modifies this
      ensures Valid() && i < |w.requests| && w.requests[i] == old(w.requests[i]).(stage := Over)
      ensures ok ==> i in w.sessions
      ensures quiet ==> ok && w.tickets == old(w.tickets)
    {
      Others(i);
      var fails := Fails();
      if fails {
        Give(i, Over);
        return false;
      }
      Move(i, Moved(w, i, Over).(sessions := w.sessions + [i]));
      fails := Fails();
      ok := !fails;
    }

    // The user's row as the request found it.
    method TwoFactorEnabled() returns (on: bool)
      ensures quiet ==> on == Enabled(w)
    {
      on := *;
      on := if quiet then Enabled(w) else on;
    }

    method EnableTOTP(secret: Secret, step: int, codes: set<int>, ghost digits: int, ghost now: nat) returns (ok: bool)
      requires Valid() && Verify(w.generate, secret, digits, now) == Some(step)
      modifies this
      ensures Valid() && w == (if ok then EnabledWith(old(w), Setup(secret, step), codes) else old(w)) && (quiet ==> ok)
    {
      var fails := Fails();
      if fails {
        return false;
      }
      assert Enable(w, EnabledWith(w, Setup(secret, step), codes), secret, digits, now, codes);
      Take(EnabledWith(w, Setup(secret, step), codes));
      ok := true;
    }

    method DisableTOTP() returns (ok: bool)
      requires Valid()
      modifies this
      ensures Valid() && w == (if ok then DisabledIn(old(w)) else old(w)) && (quiet ==> ok)
    {
      var fails := Fails();
      if fails {
        return false;
      }
      Take(DisabledIn(w));
      ok := true;
    }

    method ReplaceRecoveryCodes(codes: set<int>) returns (ok: bool)
      requires Valid()
      modifies this
      ensures Valid() && w == (if ok then WithCodes(old(w), codes) else old(w)) && (quiet ==> ok)
    {
      var fails := Fails();
      if fails {
        return false;
      }
      assert Settings(w, WithCodes(w, codes));
      Take(WithCodes(w, codes));
      ok := true;
    }
  }

  // ---- the handlers ----------------------------------------------------------------------------

  // Request i came with this code, and it was right.
  ghost predicate CameWithRightCode(w: World, i: nat, code: Code) {
    && i < |w.requests| && w.requests[i].code == code
    && (HasRightDigits(w, i) || HasRightRecoveryCode(w, i))
  }

  // A request from number `from` on, with this ticket and this code, which was right, got a session.
  ghost predicate GotSession(w: World, from: nat, ticket: Ticket, code: Code) {
    exists i :: from <= i && i in w.sessions && CameWithRightCode(w, i, code)
        && w.requests[i] == Request(Some(ticket), code, Over)
  }

  // A request from number `from` on, without a ticket, came with this code, which was right.
  ghost predicate Confirmed(w: World, from: nat, code: Code) {
    exists i: nat :: from <= i && CameWithRightCode(w, i, code) && w.requests[i] == Request(None, code, Passed)
  }

  lemma SessionsAreRight(db: Stores, i: nat)
    requires db.Valid() && i < |db.w.requests| && i in db.w.sessions
    ensures CameWithRightCode(db.w, i, db.w.requests[i].code)
  {
    var k :| 0 <= k < |db.w.sessions| && db.w.sessions[k] == i;
    SessionsHavePassed(db.run, |db.run| - 1, k);
  }

  lemma PassedAreRight(db: Stores, i: nat)
    requires db.Valid() && db.At(i, Passed)
    ensures CameWithRightCode(db.w, i, db.w.requests[i].code)
  {
    RunKeepsInv(db.run, |db.run| - 1);
    assert RequestOk(db.w.requests[i], i, db.w.accepts, db.w.uses, db.w.consumptions, db.w.setups, db.w.sessions);
    ThePassedAreRight(db.w, i);
  }

  class Server {
    const db: Stores

    constructor (db: Stores)
      ensures this.db == db
    {
      this.db := db;
    }

    // Left alone, it accepts exactly the right codes; in any case, none but those that are right.
    method CheckSecondFactor(i: nat, code: Code, now: nat) returns (ok: bool)
      requires db.Valid() && db.At(i, Asked) && db.w.requests[i].code == code
      modifies db
      ensures db.Valid() && db.Answered(i, if ok then Passed else Wrong)
      ensures ok ==> CameWithRightCode(db.w, i, code)
      ensures db.quiet ==> ok == IsRightNow(old(db.w), code, now)
    {
      ok := Check(i, code, now);
      if ok {
        PassedAreRight(db, i);
      }
    }

    method Check(i: nat, code: Code, now: nat) returns (ok: bool)
      requires db.Valid() && db.At(i, Asked) && db.w.requests[i].code == code
      modifies db
      ensures db.Valid() && db.Answered(i, if ok then Passed else Wrong)
      ensures db.quiet ==> ok == IsRightNow(old(db.w), code, now)
    {
      if code.Recovery? {
        ok := db.UseRecoveryCode(i);
        return;
      }
      var secret := db.GetTOTP(i);
      if secret.None? {
        return false;
      }
      var step := Verify(db.w.generate, secret.value, code.digits, now);
      if step.None? {
        db.Give(i, Wrong);
        return false;
      }
      ok := db.AcceptTOTPStep(i, step.value, now);
    }

    // A session is given for a live ticket and a right code; left alone, for every one of them. A wrong
    // code costs the ticket a failure.
    method HandleLogin2FA(ticket: Ticket, code: Code, now: nat, blocked: bool) returns (session: bool)
      requires db.Valid()
      modifies db
      ensures db.Valid()
      ensures session ==>
                !blocked && ticket in old(db.w.tickets) && GotSession(db.w, |old(db.w.requests)|, ticket, code)
      ensures db.quiet ==> session == (!blocked && ticket in old(db.w.tickets) && IsRightNow(old(db.w), code, now))
      ensures db.quiet && !blocked ==>
                db.w.tickets == if session then old(db.w.tickets) - {ticket}
                    else Counted(old(db.w.tickets), ticket, MAX_FAILURES)
    {
      var i := db.Begin(Some(ticket), code);
      if i.None? {
        return false;
      }
      if blocked { // no such user, or too many failures from this address
        db.Give(i.value, Over);
        return false;
      }
      var ok := CheckSecondFactor(i.value, code, now);
      if !ok {
        db.Fail(i.value);
        return false;
      }
      ok := db.Consume(i.value);
      if !ok {
        return false;
      }
      session := db.CreateSession(i.value);
      if session {
        SessionsAreRight(db, i.value);
      }
    }

    // The password and a current second factor, for a change of the settings.
    method ConfirmIdentity(code: Code, now: nat, password: bool) returns (ok: bool, ghost i: nat)
      requires db.Valid()
      modifies db
      ensures db.Valid()
      ensures ok ==>
                password && |old(db.w.requests)| <= i < |db.w.requests|
                    && db.w.requests[i] == Request(None, code, Passed)
      ensures ok ==> Confirmed(db.w, |old(db.w.requests)|, code)
      ensures db.quiet ==>
                ok == (password && Enabled(old(db.w)) && IsRightNow(old(db.w), code, now))
                    && db.w.setups == old(db.w.setups)
    {
      i := 0;
      var on := db.TwoFactorEnabled();
      if !on || !password {
        return false, i;
      }
      var request := db.Begin(None, code);
      if request.None? {
        return false, i;
      }
      i := request.value;
      ok := CheckSecondFactor(request.value, code, now);
    }

    // The code of a new enrolment can no longer log in.
    method Handle2FAEnable(secret: Secret, digits: int, now: nat, codes: set<int>) returns (ok: bool)
      requires db.Valid()
      modifies db
      ensures db.Valid()
      ensures ok ==> Enabled(db.w) && SecretOf(db.w).secret == secret && db.w.codes == codes
      ensures ok ==> Verify(db.w.generate, secret, digits, now).Some? && !IsRightNow(db.w, Totp(digits), now)
      ensures db.quiet ==> ok == (!Enabled(old(db.w)) && Verify(old(db.w).generate, secret, digits, now).Some?)
    {
      var on := db.TwoFactorEnabled();
      if on {
        return false;
      }
      var step := Verify(db.w.generate, secret, digits, now);
      if step.None? {
        return false;
      }
      ok := db.EnableTOTP(secret, step.value, codes, digits, now);
    }

    method Handle2FADisable(code: Code, now: nat, password: bool) returns (ok: bool)
      requires db.Valid()
      modifies db
      ensures db.Valid()
      ensures ok ==> password && !Enabled(db.w) && Confirmed(db.w, |old(db.w.requests)|, code)
      ensures db.quiet ==> ok == (password && Enabled(old(db.w)) && IsRightNow(old(db.w), code, now))
      ensures db.quiet ==> Enabled(db.w) == (Enabled(old(db.w)) && !ok)
    {
      ghost var i;
      ok, i := ConfirmIdentity(code, now, password);
      if ok {
        ok := db.DisableTOTP();
        PassedAreRight(db, i);
      }
    }

    method Handle2FARegenerateCodes(code: Code, now: nat, password: bool, codes: set<int>) returns (ok: bool)
      requires db.Valid()
      modifies db
      ensures db.Valid()
      ensures ok ==> password && db.w.codes == codes && Confirmed(db.w, |old(db.w.requests)|, code)
      ensures db.quiet ==> ok == (password && Enabled(old(db.w)) && IsRightNow(old(db.w), code, now))
    {
      ghost var i;
      ok, i := ConfirmIdentity(code, now, password);
      if ok {
        ok := db.ReplaceRecoveryCodes(codes);
        PassedAreRight(db, i);
      }
    }
  }
}
