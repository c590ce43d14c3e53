/**
 The second step of one user's two-factor login, as any number of requests that each take one atomic
 step in the database or the challenge store at a time, in any order, while the user turns two-factor
 authentication on and off and gets new recovery codes. TwoFactorLogin shows that the handlers only
 ever take these steps.

 An enrolment is numbered by how often two-factor authentication was turned on or off before it.
 */
module TwoFactorProtocol {
  import opened Wrappers

  type Ticket = string

  const MAX_FAILURES := 5
  const PERIOD := 30

  // What the user typed: an authenticator's digits, or a recovery code.
  datatype Code = Totp(digits: int) | Recovery(hash: int)

  type Secret = int

  // The digits that a secret makes of a time step.
  type Generator = (Secret, int) -> int

  // An enrolment: its secret, and the step its confirming code was for.
  datatype Setup = Setup(secret: Secret, step: int)

  // The step for which these are the digits, at this Unix time or one step off it, the exact one first.
  function Verify(generate: Generator, secret: Secret, digits: int, now: nat): (r: Option<int>)
    ensures r.Some? ==> generate(secret, r.value) == digits && -1 <= r.value - now / PERIOD <= 1
    ensures r.None? ==> forall s {:trigger generate(secret, s)} :: -1 <= s - now / PERIOD <= 1 ==>
              generate(secret, s) != digits
  {
    var step := now / PERIOD;
    if generate(secret, step) == digits then Some(step)
    else if generate(secret, step - 1) == digits then Some(step - 1)
    else if generate(secret, step + 1) == digits then Some(step + 1)
    else None
  }

  // Where a request is.
  datatype Stage =
    | Asked                          // the ticket was found, the code was not looked at yet
    | HasSecret(enrolment: nat, secret: Secret) // the secret of that enrolment was read
    | Passed                         // the second factor was accepted
    | Wrong                          // it was not
    | Consumed                       // and this request took the ticket
    | Over

  // Without a ticket, the request confirms a change of the two-factor settings.
  datatype Request = Request(ticket: Option<Ticket>, code: Code, stage: Stage)

  // A time step was recorded as used, during enrolment `era`. The digits had been compared, at Unix time
  // `at`, with the secret of enrolment `enrolment`.
  datatype Accept = Accept(request: nat, enrolment: nat, era: nat, step: int, digits: int, at: nat)

  // A recovery code of the given batch was deleted.
  datatype Use = Use(request: nat, batch: nat, hash: int)

  datatype Consumption = Consumption(request: nat, ticket: Ticket)

  datatype World = World(
    generate: Generator,
    setups: seq<Option<Setup>>,             // all enrolments; None while off
    lastStep: int,                          // in the user's row
    batches: seq<set<int>>, codes: set<int>, // all batches of recovery codes, and what is left of the last
    tickets: map<Ticket, nat>,              // live challenges, with their failures
    issued: set<Ticket>,
    failures: map<Ticket, nat>,             // failures ever counted
    requests: seq<Request>,
    accepts: seq<Accept>,
    uses: seq<Use>,
    consumptions: seq<Consumption>,
    sessions: seq<nat>)                     // the requests that got a session

  ghost predicate Init(w: World) {
    w == World(w.generate, [None], 0, [{}], {}, map[], {}, map[], [], [], [], [], [])
  }

  // The current enrolment.
  function Era(w: World): nat {
    if w.setups == [] then 0 else |w.setups| - 1
  }

  predicate Enabled(w: World) {
    w.setups != [] && w.setups[|w.setups| - 1].Some?
  }

  // The number of the current batch of recovery codes.
  function Batch(w: World): nat {
    if w.batches == [] then 0 else |w.batches| - 1
  }

  function Failures(failures: map<Ticket, nat>, t: Ticket): nat {
    if t in failures then failures[t] else 0
  }

  // The live tickets once this one has failed once more.
  function Counted(tickets: map<Ticket, nat>, t: Ticket, max: nat): map<Ticket, nat> {
    if t !in tickets then tickets
    else if tickets[t] + 1 >= max then tickets - {t}
    else tickets[t := tickets[t] + 1]
  }

  predicate AtStage(w: World, i: nat, stage: Stage) {
    i < |w.requests| && w.requests[i].stage == stage
  }

  function Moved(w: World, i: nat, stage: Stage): World
    requires i < |w.requests|
  {
    w.(requests := w.requests[i := w.requests[i].(stage := stage)])
  }

  // ---- steps of the user and of time -----------------------------------------------------------

  ghost predicate Issue(w: World, w': World, t: Ticket) {
    t !in w.issued && w' == w.(tickets := w.tickets[t := 0], issued := w.issued + {t})
  }

  ghost predicate Expire(w: World, w': World, t: Ticket) {
    w' == w.(tickets := w.tickets - {t})
  }

  // The state once an enrolment is confirmed by the code of this step.
  function EnabledWith(w: World, setup: Setup, codes: set<int>): World {
    w.(setups := w.setups + [Some(setup)], lastStep := setup.step, batches := w.batches + [codes], codes := codes)
  }

  function DisabledIn(w: World): World {
    w.(setups := w.setups + [None], lastStep := 0, batches := w.batches + [{}], codes := {})
  }

  function WithCodes(w: World, codes: set<int>): World {
    w.(batches := w.batches + [codes], codes := codes)
  }

  ghost predicate Enable(w: World, w': World, secret: Secret, digits: int, now: nat, codes: set<int>) {
    var step := Verify(w.generate, secret, digits, now);
    step.Some? && w' == EnabledWith(w, Setup(secret, step.value), codes)
  }

  ghost predicate Settings(w: World, w': World) {
    || (exists secret, digits, now, codes :: Enable(w, w', secret, digits, now, codes))
    || w' == DisabledIn(w)
    || (exists codes :: w' == WithCodes(w, codes))
  }

  // ---- steps of a request ----------------------------------------------------------------------

  // A ticket is looked up, or a signed-in user asks for a change of the settings.
  ghost predicate Ask(w: World, w': World, r: Request) {
    && r.stage == Asked && (r.ticket.Some? ==> r.ticket.value in w.tickets)
    && w' == w.(requests := w.requests + [r])
  }

  ghost predicate UseRecoveryCode(w: World, w': World, i: nat) {
    && AtStage(w, i, Asked) && w.requests[i].code.Recovery?
    && var hash := w.requests[i].code.hash;
    && hash in w.codes
    && w' == Moved(w, i, Passed).(codes := w.codes - {hash}, uses := w.uses + [Use(i, Batch(w), hash)])
  }

  function SecretOf(w: World): Stage
    requires Enabled(w)
  {
    HasSecret(Era(w), w.setups[Era(w)].value.secret)
  }

  ghost predicate GetTOTP(w: World, w': World, i: nat) {
    AtStage(w, i, Asked) && w.requests[i].code.Totp? && Enabled(w) && w' == Moved(w, i, SecretOf(w))
  }

  // The record of accepting these digits, which belong to this step.
  function Acceptance(w: World, i: nat, step: int, now: nat): Accept
    requires i < |w.requests| && w.requests[i].stage.HasSecret? && w.requests[i].code.Totp?
  {
    Accept(i, w.requests[i].stage.enrolment, Era(w), step, w.requests[i].code.digits, now)
  }

  // The digits belong to a step after the last one used. Neither the enrolment nor whether two-factor
  // authentication is still on is looked at again.
  ghost predicate AcceptStep(w: World, w': World, i: nat, now: nat) {
    && i < |w.requests| && w.requests[i].stage.HasSecret? && w.requests[i].code.Totp?
    && var step := Verify(w.generate, w.requests[i].stage.secret, w.requests[i].code.digits, now);
    && step.Some? && w.lastStep < step.value
    && w' == Moved(w, i, Passed).(lastStep := step.value, accepts := w.accepts + [Acceptance(w, i, step.value, now)])
  }

  // A wrong or used code, or an error, which may also hide that the code was accepted.
  ghost predicate Reject(w: World, w': World, i: nat) {
    && i < |w.requests| && (w.requests[i].stage.Asked? || w.requests[i].stage.HasSecret? || w.requests[i].stage.Passed?)
    && w' == Moved(w, i, Wrong)
  }

  // A failure is counted; the last one takes the ticket away.
  ghost predicate Fail(w: World, w': World, i: nat) {
    && AtStage(w, i, Wrong) && w.requests[i].ticket.Some?
    && var t := w.requests[i].ticket.value;
    && t in w.tickets
    && w' == Moved(w, i, Over).(tickets := Counted(w.tickets, t, MAX_FAILURES),
                                failures := w.failures[t := Failures(w.failures, t) + 1])
  }

  ghost predicate Consume(w: World, w': World, i: nat) {
    && AtStage(w, i, Passed) && w.requests[i].ticket.Some?
    && var t := w.requests[i].ticket.value;
    && t in w.tickets
    && w' == Moved(w, i, Consumed).(tickets := w.tickets - {t}, consumptions := w.consumptions + [Consumption(i, t)])
  }

  ghost predicate CreateSession(w: World, w': World, i: nat) {
    AtStage(w, i, Consumed) && w' == Moved(w, i, Over).(sessions := w.sessions + [i])
  }

  // The request ends, or dies.
  ghost predicate End(w: World, w': World, i: nat) {
    i < |w.requests| && w' == Moved(w, i, Over)
  }

  ghost predicate RequestStep(w: World, w': World, i: nat) {
    || UseRecoveryCode(w, w', i) || GetTOTP(w, w', i) || (exists now :: AcceptStep(w, w', i, now)) || Reject(w, w', i)
    || Fail(w, w', i) || Consume(w, w', i) || CreateSession(w, w', i) || End(w, w', i)
  }

  ghost predicate Step(w: World, w': World) {
    || (exists t :: Issue(w, w', t)) || (exists t :: Expire(w, w', t))
    || Settings(w, w')
    || (exists r :: Ask(w, w', r)) || (exists i :: RequestStep(w, w', i))
  }

  ghost predicate IsRun(run: seq<World>) {
    && run != [] && Init(run[0])
    && forall k :: 0 <= k < |run| - 1 ==> Step(run[k], run[k + 1])
  }

  // ---- the invariant ---------------------------------------------------------------------------

  // No step up to this one is accepted in an enrolment.
  function Floor(setup: Option<Setup>): int {
    if setup.Some? then setup.value.step else 0
  }

  predicate StepFits(a: Accept, setups: seq<Option<Setup>>, lastStep: int) {
    && a.era < |setups| && Floor(setups[a.era]) < a.step
    && (a.era == |setups| - 1 ==> a.step <= lastStep)
  }

  // Used steps grow within an enrolment, from the one that confirmed it.
  predicate StepsGrow(accepts: seq<Accept>, setups: seq<Option<Setup>>, lastStep: int) {
    && setups != [] && Floor(setups[|setups| - 1]) <= lastStep
    && (forall k :: 0 <= k < |accepts| ==> StepFits(accepts[k], setups, lastStep))
    && (forall j, k :: 0 <= j < k < |accepts| && accepts[j].era == accepts[k].era ==> accepts[j].step < accepts[k].step)
  }

  // A used recovery code was in its batch, and is gone from it.
  predicate UseFits(u: Use, batches: seq<set<int>>, codes: set<int>) {
    u.batch < |batches| && u.hash in batches[u.batch] && (u.batch == |batches| - 1 ==> u.hash !in codes)
  }

  predicate CodesAreGone(uses: seq<Use>, batches: seq<set<int>>, codes: set<int>) {
    && batches != [] && codes <= batches[|batches| - 1]
    && (forall k :: 0 <= k < |uses| ==> UseFits(uses[k], batches, codes))
    && (forall j, k :: 0 <= j < k < |uses| ==> uses[j].batch != uses[k].batch || uses[j].hash != uses[k].hash)
  }

  predicate TicketsAreCounted(tickets: map<Ticket, nat>, issued: set<Ticket>, failures: map<Ticket, nat>) {
    forall t :: t in tickets ==> t in issued && tickets[t] == Failures(failures, t) < MAX_FAILURES
  }

  predicate TicketIsTaken(tickets: map<Ticket, nat>, issued: set<Ticket>, failures: map<Ticket, nat>, t: Ticket) {
    t !in tickets && t in issued && Failures(failures, t) < MAX_FAILURES
  }

  // A consumed ticket is gone, once and for all, before it failed too often.
  predicate ConsumedOnce(consumptions: seq<Consumption>, tickets: map<Ticket, nat>, issued: set<Ticket>,
                         failures: map<Ticket, nat>) {
    && (forall k {:trigger consumptions[k]} :: 0 <= k < |consumptions| ==>
        TicketIsTaken(tickets, issued, failures, consumptions[k].ticket))
    && (forall j, k :: 0 <= j < k < |consumptions| ==> consumptions[j].ticket != consumptions[k].ticket)
  }

  // The digits that were accepted are those the request came with, and are right: they are what the
  // secret of an enrolment, one that was in force, makes of the step, which is the clock's or one off.
  predicate IsRight(generate: Generator, setups: seq<Option<Setup>>, requests: seq<Request>, a: Accept) {
    && a.request < |requests| && requests[a.request].code == Totp(a.digits)
    && a.enrolment < |setups| && setups[a.enrolment].Some?
    && generate(setups[a.enrolment].value.secret, a.step) == a.digits && -1 <= a.step - a.at / PERIOD <= 1
  }

  predicate IsTheCode(requests: seq<Request>, u: Use) {
    u.request < |requests| && requests[u.request].code == Recovery(u.hash)
  }

  predicate FactorsAreRight(generate: Generator, setups: seq<Option<Setup>>, requests: seq<Request>,
                            accepts: seq<Accept>, uses: seq<Use>) {
    && (forall k {:trigger accepts[k]} :: 0 <= k < |accepts| ==> IsRight(generate, setups, requests, accepts[k]))
    && (forall k {:trigger uses[k]} :: 0 <= k < |uses| ==> IsTheCode(requests, uses[k]))
  }

  predicate HasPassed(accepts: seq<Accept>, uses: seq<Use>, i: nat) {
    (exists k :: 0 <= k < |accepts| && accepts[k].request == i) || (exists k :: 0 <= k < |uses| && uses[k].request == i)
  }

  predicate HasConsumed(consumptions: seq<Consumption>, i: nat, ticket: Option<Ticket>) {
    exists k :: 0 <= k < |consumptions| && consumptions[k].request == i && Some(consumptions[k].ticket) == ticket
  }

  predicate IsSecretOf(secret: Secret, enrolment: nat, setups: seq<Option<Setup>>) {
    enrolment < |setups| && setups[enrolment].Some? && setups[enrolment].value.secret == secret
  }

  // A request is where it is for a reason, and has had what leads there once.
  predicate RequestOk(r: Request, i: nat, accepts: seq<Accept>, uses: seq<Use>, consumptions: seq<Consumption>,
                      setups: seq<Option<Setup>>, sessions: seq<nat>) {
    && (r.stage.Passed? || r.stage.Consumed? || i in sessions ==> HasPassed(accepts, uses, i))
    && (r.stage.Asked? || r.stage.HasSecret? ==> !HasPassed(accepts, uses, i))
    && (r.stage.HasSecret? ==> r.code.Totp? && IsSecretOf(r.stage.secret, r.stage.enrolment, setups))
    && (r.stage.Consumed? || i in sessions ==> HasConsumed(consumptions, i, r.ticket))
    && (i in sessions ==> r.stage.Over?)
  }

  predicate RequestsOk(requests: seq<Request>, accepts: seq<Accept>, uses: seq<Use>, consumptions: seq<Consumption>,
                       setups: seq<Option<Setup>>, sessions: seq<nat>) {
    forall i {:trigger requests[i]} :: 0 <= i < |requests| ==>
        RequestOk(requests[i], i, accepts, uses, consumptions, setups, sessions)
  }

  // Every request passes once.
  predicate PassOnce(accepts: seq<Accept>, uses: seq<Use>, n: nat) {
    && (forall k :: 0 <= k < |accepts| ==> accepts[k].request < n && accepts[k].enrolment <= accepts[k].era)
    && (forall k :: 0 <= k < |uses| ==> uses[k].request < n)
    && (forall j, k :: 0 <= j < k < |accepts| ==> accepts[j].request != accepts[k].request)
    && (forall j, k :: 0 <= j < k < |uses| ==> uses[j].request != uses[k].request)
    && (forall j, k :: 0 <= j < |accepts| && 0 <= k < |uses| ==> accepts[j].request != uses[k].request)
  }

  predicate SessionsOnce(sessions: seq<nat>, n: nat) {
    && (forall k :: 0 <= k < |sessions| ==> sessions[k] < n)
    && (forall j, k :: 0 <= j < k < |sessions| ==> sessions[j] != sessions[k])
  }

  ghost predicate Inv(w: World) {
    && StepsGrow(w.accepts, w.setups, w.lastStep)
    && CodesAreGone(w.uses, w.batches, w.codes)
    && FactorsAreRight(w.generate, w.setups, w.requests, w.accepts, w.uses)
    && TicketsAreCounted(w.tickets, w.issued, w.failures)
    && ConsumedOnce(w.consumptions, w.tickets, w.issued, w.failures)
    && PassOnce(w.accepts, w.uses, |w.requests|)
    && SessionsOnce(w.sessions, |w.requests|)
    && RequestsOk(w.requests, w.accepts, w.uses, w.consumptions, w.setups, w.sessions)
    && (forall t :: t in w.failures ==> t in w.issued)
  }

  // ---- every step keeps the invariant ----------------------------------------------------------

  // A new enrolment, or none, and another batch of recovery codes.
  lemma NewSetupKeepsInv(w: World, setup: Option<Setup>, codes: set<int>)
    requires Inv(w)
    ensures Inv(w.(setups := w.setups + [setup], lastStep := Floor(setup), batches := w.batches + [codes], codes :=
              codes))
  {
    var setups := w.setups + [setup];
    StepsFitOn(w.accepts, w.setups, w.lastStep, setup);
    CodesStayGone(w.uses, w.batches, w.codes, codes);
    FactorsStayRight(w.generate, w.setups, setups, w.requests, w.accepts, w.uses);
    forall i {:trigger w.requests[i]} | 0 <= i < |w.requests|
      ensures RequestOk(w.requests[i], i, w.accepts, w.uses, w.consumptions, setups, w.sessions)
    {
      assert RequestOk(w.requests[i], i, w.accepts, w.uses, w.consumptions, w.setups, w.sessions);
    }
  }

  lemma StepsFitOn(accepts: seq<Accept>, setups: seq<Option<Setup>>, lastStep: int, setup: Option<Setup>)
    requires StepsGrow(accepts, setups, lastStep)
    ensures StepsGrow(accepts, setups + [setup], Floor(setup))
  {
    forall k | 0 <= k < |accepts| ensures StepFits(accepts[k], setups + [setup], Floor(setup)) {
      assert StepFits(accepts[k], setups, lastStep);
    }
  }

  lemma CodesStayGone(uses: seq<Use>, batches: seq<set<int>>, codes: set<int>, codes': set<int>)
    requires CodesAreGone(uses, batches, codes)
    ensures CodesAreGone(uses, batches + [codes'], codes')
  {
    forall k | 0 <= k < |uses| ensures UseFits(uses[k], batches + [codes'], codes') {
      assert UseFits(uses[k], batches, codes);
    }
  }

  lemma FactorsStayRight(generate: Generator, setups: seq<Option<Setup>>, setups': seq<Option<Setup>>,
                         requests: seq<Request>, accepts: seq<Accept>, uses: seq<Use>)
    requires FactorsAreRight(generate, setups, requests, accepts, uses) && setups <= setups'
    ensures FactorsAreRight(generate, setups', requests, accepts, uses)
  {
    forall k {:trigger accepts[k]} | 0 <= k < |accepts| ensures IsRight(generate, setups', requests, accepts[k]) {
      assert IsRight(generate, setups, requests, accepts[k]);
    }
  }

  lemma SettingsKeepInv(w: World, w': World)
    requires Inv(w) && Settings(w, w')
    ensures Inv(w')
  {
    if secret, digits, now, codes :| Enable(w, w', secret, digits, now, codes) {
      NewSetupKeepsInv(w, Some(Setup(secret, Verify(w.generate, secret, digits, now).value)), codes);
    } else if w' == DisabledIn(w) {
      NewSetupKeepsInv(w, None, {});
    } else {
      var codes :| w' == WithCodes(w, codes);
      CodesStayGone(w.uses, w.batches, w.codes, codes);
      assert StepsGrow(w'.accepts, w'.setups, w'.lastStep);
    }
  }

  lemma TicketsKeepInv(w: World, w': World)
    requires Inv(w)
    requires (exists t :: Issue(w, w', t)) || (exists t :: Expire(w, w', t))
    ensures Inv(w')
  {
    forall k {:trigger w.consumptions[k]} | 0 <= k < |w.consumptions|
      ensures TicketIsTaken(w'.tickets, w'.issued, w'.failures, w.consumptions[k].ticket)
    {
      assert TicketIsTaken(w.tickets, w.issued, w.failures, w.consumptions[k].ticket);
    }
    assert RequestsOk(w'.requests, w'.accepts, w'.uses, w'.consumptions, w'.setups, w'.sessions);
  }

  lemma AskKeepsInv(w: World, w': World, r: Request)
    requires Inv(w) && Ask(w, w', r)
    ensures Inv(w')
  {
    forall i {:trigger w'.requests[i]} | 0 <= i < |w'.requests|
      ensures RequestOk(w'.requests[i], i, w.accepts, w.uses, w.consumptions, w.setups, w.sessions)
    {
      if i < |w.requests| {
        assert w'.requests[i] == w.requests[i];
      }
    }
    assert ConsumedOnce(w'.consumptions, w'.tickets, w'.issued, w'.failures);
  }

  // One request moves on; the others stay where they are.
  lemma OneRequestMoves(w: World, w': World, i: nat)
    requires Inv(w) && i < |w.requests| && |w'.requests| == |w.requests|
    requires forall j :: 0 <= j < |w.requests| && j != i ==> w'.requests[j] == w.requests[j]
    requires w'.setups == w.setups
    requires w'.accepts == w.accepts
               || (|w'.accepts| == |w.accepts| + 1 && w.accepts < w'.accepts && w'.accepts[|w.accepts|].request == i)
    requires w'.uses == w.uses || (|w'.uses| == |w.uses| + 1 && w.uses < w'.uses && w'.uses[|w.uses|].request == i)
    requires w'.consumptions == w.consumptions ||
             (|w'.consumptions| == |w.consumptions| + 1 && w.consumptions < w'.consumptions
                 && w'.consumptions[|w.consumptions|].request == i)
    requires w'.sessions == w.sessions || w'.sessions == w.sessions + [i]
    requires RequestOk(w'.requests[i], i, w'.accepts, w'.uses, w'.consumptions, w'.setups, w'.sessions)
    ensures RequestsOk(w'.requests, w'.accepts, w'.uses, w'.consumptions, w'.setups, w'.sessions)
  {
    forall j {:trigger w'.requests[j]} | 0 <= j < |w'.requests|
      ensures RequestOk(w'.requests[j], j, w'.accepts, w'.uses, w'.consumptions, w'.setups, w'.sessions)
    {
      if j != i {
        assert RequestOk(w.requests[j], j, w.accepts, w.uses, w.consumptions, w.setups, w.sessions);
        PassedStays(w.accepts, w'.accepts, w.uses, w'.uses, i, j);
        ConsumedStays(w.consumptions, w'.consumptions, j, w.requests[j].ticket);
      }
    }
  }

  lemma PassedStays(accepts: seq<Accept>, accepts': seq<Accept>, uses: seq<Use>, uses': seq<Use>, i: nat, j: nat)
    requires accepts' == accepts
               || (|accepts'| == |accepts| + 1 && accepts < accepts' && accepts'[|accepts|].request == i)
    requires uses' == uses || (|uses'| == |uses| + 1 && uses < uses' && uses'[|uses|].request == i)
    requires i != j
    ensures HasPassed(accepts', uses', j) <==> HasPassed(accepts, uses, j)
  {
    if k :| 0 <= k < |accepts| && accepts[k].request == j {
      assert accepts'[k].request == j;
    } else if k :| 0 <= k < |uses| && uses[k].request == j {
      assert uses'[k].request == j;
    }
  }

  lemma ConsumedStays(consumptions: seq<Consumption>, consumptions': seq<Consumption>, j: nat, ticket: Option<Ticket>)
    requires consumptions <= consumptions'
    ensures HasConsumed(consumptions, j, ticket) ==> HasConsumed(consumptions', j, ticket)
  {
    if k :| 0 <= k < |consumptions| && consumptions[k].request == j && Some(consumptions[k].ticket) == ticket {
      assert consumptions'[k] == consumptions[k];
    }
  }

  lemma StageKeepsInv(w: World, w': World, i: nat)
    requires Inv(w) && (GetTOTP(w, w', i) || Reject(w, w', i) || End(w, w', i))
    ensures Inv(w')
  {
    assert RequestOk(w.requests[i], i, w.accepts, w.uses, w.consumptions, w.setups, w.sessions);
    OneRequestMoves(w, w', i);
    assert ConsumedOnce(w'.consumptions, w'.tickets, w'.issued, w'.failures);
  }

  lemma UseKeepsInv(w: World, w': World, i: nat)
    requires Inv(w) && UseRecoveryCode(w, w', i)
    ensures Inv(w')
  {
    assert RequestOk(w.requests[i], i, w.accepts, w.uses, w.consumptions, w.setups, w.sessions);
    assert w'.uses[|w.uses|].request == i;
    OneRequestMoves(w, w', i);
    assert ConsumedOnce(w'.consumptions, w'.tickets, w'.issued, w'.failures);
    NotPassedYet(w.accepts, w.uses, i);
    TheCodeGoes(w.uses, w.batches, w.codes, w'.uses[|w.uses|]);
    assert PassOnce(w'.accepts, w'.uses, |w'.requests|);
  }

  lemma TheCodeGoes(uses: seq<Use>, batches: seq<set<int>>, codes: set<int>, u: Use)
    requires CodesAreGone(uses, batches, codes) && u.batch == |batches| - 1 && u.hash in codes
    ensures CodesAreGone(uses + [u], batches, codes - {u.hash})
  {
    forall k | 0 <= k < |uses|
      ensures UseFits(uses[k], batches, codes - {u.hash}) && (uses[k].batch != u.batch || uses[k].hash != u.hash)
    {
      assert UseFits(uses[k], batches, codes);
    }
  }

  lemma NotPassedYet(accepts: seq<Accept>, uses: seq<Use>, i: nat)
    requires !HasPassed(accepts, uses, i)
    ensures forall k :: 0 <= k < |accepts| ==> accepts[k].request != i
    ensures forall k :: 0 <= k < |uses| ==> uses[k].request != i
  {
  }

  lemma AcceptKeepsInv(w: World, w': World, i: nat, now: nat)
    requires Inv(w) && AcceptStep(w, w', i, now)
    ensures Inv(w')
  {
    assert RequestOk(w.requests[i], i, w.accepts, w.uses, w.consumptions, w.setups, w.sessions);
    NotPassedYet(w.accepts, w.uses, i);
    assert w'.accepts[|w.accepts|].request == i;
    OneRequestMoves(w, w', i);
    StepsStillGrow(w.accepts, w.setups, w.lastStep, w'.accepts[|w.accepts|]);
    assert ConsumedOnce(w'.consumptions, w'.tickets, w'.issued, w'.failures);
  }

  lemma StepsStillGrow(accepts: seq<Accept>, setups: seq<Option<Setup>>, lastStep: int, a: Accept)
    requires StepsGrow(accepts, setups, lastStep) && a.era == |setups| - 1 && lastStep < a.step
    ensures StepsGrow(accepts + [a], setups, a.step)
  {
    forall k | 0 <= k < |accepts| ensures StepFits(accepts[k], setups, a.step) {
      assert StepFits(accepts[k], setups, lastStep);
    }
  }

  lemma FailKeepsInv(w: World, w': World, i: nat)
    requires Inv(w) && Fail(w, w', i)
    ensures Inv(w')
  {
    assert RequestOk(w.requests[i], i, w.accepts, w.uses, w.consumptions, w.setups, w.sessions);
    OneRequestMoves(w, w', i);
    forall k {:trigger w.consumptions[k]} | 0 <= k < |w.consumptions|
      ensures TicketIsTaken(w'.tickets, w'.issued, w'.failures, w.consumptions[k].ticket)
    {
      assert TicketIsTaken(w.tickets, w.issued, w.failures, w.consumptions[k].ticket);
    }
  }

  lemma ConsumeKeepsInv(w: World, w': World, i: nat)
    requires Inv(w) && Consume(w, w', i)
    ensures Inv(w')
  {
    var t := w.requests[i].ticket.value;
    assert RequestOk(w.requests[i], i, w.accepts, w.uses, w.consumptions, w.setups, w.sessions);
    assert w'.consumptions[|w.consumptions|] == Consumption(i, t);
    OneRequestMoves(w, w', i);
    forall k {:trigger w'.consumptions[k]} | 0 <= k < |w'.consumptions|
      ensures TicketIsTaken(w'.tickets, w'.issued, w'.failures, w'.consumptions[k].ticket)
      ensures k < |w.consumptions| ==> w'.consumptions[k].ticket != t
    {
      if k < |w.consumptions| {
        assert TicketIsTaken(w.tickets, w.issued, w.failures, w.consumptions[k].ticket);
      }
    }
  }

  lemma SessionKeepsInv(w: World, w': World, i: nat)
    requires Inv(w) && CreateSession(w, w', i)
    ensures Inv(w')
  {
    assert RequestOk(w.requests[i], i, w.accepts, w.uses, w.consumptions, w.setups, w.sessions);
    OneRequestMoves(w, w', i);
    assert ConsumedOnce(w'.consumptions, w'.tickets, w'.issued, w'.failures);
  }

  lemma StepKeepsInv(w: World, w': World)
    requires Inv(w) && Step(w, w')
    ensures Inv(w')
  {
    if (exists t :: Issue(w, w', t)) || (exists t :: Expire(w, w', t)) {
      TicketsKeepInv(w, w');
    } else if Settings(w, w') {
      SettingsKeepInv(w, w');
    } else if r :| Ask(w, w', r) {
      AskKeepsInv(w, w', r);
    } else {
      var i :| RequestStep(w, w', i);
      RequestStepKeepsInv(w, w', i);
    }
  }

  lemma RequestStepKeepsInv(w: World, w': World, i: nat)
    requires Inv(w) && RequestStep(w, w', i)
    ensures Inv(w')
  {
    if GetTOTP(w, w', i) || Reject(w, w', i) || End(w, w', i) {
      StageKeepsInv(w, w', i);
    } else if UseRecoveryCode(w, w', i) {
      UseKeepsInv(w, w', i);
    } else if Fail(w, w', i) {
      FailKeepsInv(w, w', i);
    } else if Consume(w, w', i) {
      ConsumeKeepsInv(w, w', i);
    } else if CreateSession(w, w', i) {
      SessionKeepsInv(w, w', i);
    } else {
      var now :| AcceptStep(w, w', i, now);
      AcceptKeepsInv(w, w', i, now);
    }
  }

  lemma {:induction false} RunKeepsInv(run: seq<World>, k: nat)
    requires IsRun(run) && k < |run|
    ensures Inv(run[k])
  {
    if k > 0 {
      RunKeepsInv(run, k - 1);
      StepKeepsInv(run[k - 1], run[k]);
    }
  }

  // ---- the properties --------------------------------------------------------------------------

  // However requests race, a ticket yields at most one session.
  lemma OneSessionPerTicket(run: seq<World>, n: nat, j: nat, k: nat)
    requires IsRun(run) && n < |run| && j < k < |run[n].sessions|
    ensures
      var w := run[n];
      && w.sessions[j] < |w.requests| && w.sessions[k] < |w.requests|
      && w.requests[w.sessions[j]].ticket.Some?
      && w.requests[w.sessions[j]].ticket != w.requests[w.sessions[k]].ticket
  {
    RunKeepsInv(run, n);
    var w := run[n];
    var a, b := w.sessions[j], w.sessions[k];
    assert RequestOk(w.requests[a], a, w.accepts, w.uses, w.consumptions, w.setups, w.sessions);
    assert RequestOk(w.requests[b], b, w.accepts, w.uses, w.consumptions, w.setups, w.sessions);
    var c :| 0 <= c < |w.consumptions| && w.consumptions[c].request == a
        && Some(w.consumptions[c].ticket) == w.requests[a].ticket;
    var d :| 0 <= d < |w.consumptions| && w.consumptions[d].request == b
        && Some(w.consumptions[d].ticket) == w.requests[b].ticket;
    assert a != b && c != d;
  }

  // The digits the request came with were compared, at some time of the clock, with a secret that was in
  // force when it was read, and belong to a step at most one off the clock; they were accepted for it in
  // an enrolment that had accepted no step from this one on.
  ghost predicate HasRightDigits(w: World, i: nat) {
    exists a :: a in w.accepts && a.request == i && IsRight(w.generate, w.setups, w.requests, a)
      && a.enrolment <= a.era && StepFits(a, w.setups, w.lastStep)
  }

  // The recovery code the request came with was in its batch and is used up.
  ghost predicate HasRightRecoveryCode(w: World, i: nat) {
    exists u :: u in w.uses && u.request == i && IsTheCode(w.requests, u) && UseFits(u, w.batches, w.codes)
  }

  // Every session rests on a second factor that the request itself came with, and that was right.
  lemma SessionsHavePassed(run: seq<World>, n: nat, k: nat)
    requires IsRun(run) && n < |run| && k < |run[n].sessions|
    ensures HasRightDigits(run[n], run[n].sessions[k]) || HasRightRecoveryCode(run[n], run[n].sessions[k])
  {
    RunKeepsInv(run, n);
    var w := run[n];
    var a := w.sessions[k];
    assert RequestOk(w.requests[a], a, w.accepts, w.uses, w.consumptions, w.setups, w.sessions);
    ThePassedAreRight(w, a);
  }

  lemma ThePassedAreRight(w: World, i: nat)
    requires Inv(w) && HasPassed(w.accepts, w.uses, i)
    ensures HasRightDigits(w, i) || HasRightRecoveryCode(w, i)
  {
    if k :| 0 <= k < |w.accepts| && w.accepts[k].request == i {
      assert IsRight(w.generate, w.setups, w.requests, w.accepts[k]) && StepFits(w.accepts[k], w.setups, w.lastStep);
      assert w.accepts[k] in w.accepts;
    } else {
      var k :| 0 <= k < |w.uses| && w.uses[k].request == i;
      assert IsTheCode(w.requests, w.uses[k]) && UseFits(w.uses[k], w.batches, w.codes);
      assert w.uses[k] in w.uses;
    }
  }

  // No secret that was ever in force makes these digits of any step; the code is in no batch.
  ghost predicate IsWrong(w: World, code: Code) {
    match code
    case Totp(digits) => forall e: nat, step: int {:trigger w.setups[e], w.generate(w.setups[e].value.secret, step)} ::
      e < |w.setups| && w.setups[e].Some? ==> w.generate(w.setups[e].value.secret, step) != digits
    case Recovery(hash) => forall b :: 0 <= b < |w.batches| ==> hash !in w.batches[b]
  }

  // A request with a wrong code gets no session.
  lemma WrongCodesGetNoSession(run: seq<World>, n: nat, i: nat)
    requires IsRun(run) && n < |run| && i < |run[n].requests| && IsWrong(run[n], run[n].requests[i].code)
    ensures i !in run[n].sessions
  {
    forall k | 0 <= k < |run[n].sessions| ensures run[n].sessions[k] != i {
      SessionsHavePassed(run, n, k);
      RightIsNotWrong(run[n], run[n].sessions[k]);
    }
  }

  lemma RightIsNotWrong(w: World, i: nat)
    requires HasRightDigits(w, i) || HasRightRecoveryCode(w, i)
    ensures i < |w.requests| && !IsWrong(w, w.requests[i].code)
  {
    if HasRightDigits(w, i) {
      var a :| a in w.accepts && a.request == i && IsRight(w.generate, w.setups, w.requests, a);
      assert w.generate(w.setups[a.enrolment].value.secret, a.step) == a.digits;
    } else {
      var u :| u in w.uses && u.request == i && IsTheCode(w.requests, u) && UseFits(u, w.batches, w.codes);
      assert u.hash in w.batches[u.batch];
    }
  }

  // Within an enrolment the accepted steps strictly increase, from the step that confirmed it: a code is
  // accepted once, as section 5.2 of RFC 6238 requires, and the confirming code never again.
  lemma AcceptedStepsIncrease(run: seq<World>, n: nat, j: nat, k: nat)
    requires IsRun(run) && n < |run| && j < k < |run[n].accepts|
    requires run[n].accepts[j].era == run[n].accepts[k].era
    ensures run[n].accepts[j].step < run[n].accepts[k].step
    ensures run[n].accepts[j].era < |run[n].setups|
    ensures Floor(run[n].setups[run[n].accepts[j].era]) < run[n].accepts[j].step
  {
    RunKeepsInv(run, n);
    assert StepFits(run[n].accepts[j], run[n].setups, run[n].lastStep);
  }

  // A code of one enrolment (a step of it) is accepted a second time only if two-factor authentication
  // was turned off or on between reading the secret and recording the step.
  lemma RepeatedCodesCrossAReset(run: seq<World>, n: nat, j: nat, k: nat)
    requires IsRun(run) && n < |run| && j < k < |run[n].accepts|
    requires run[n].accepts[j].enrolment == run[n].accepts[k].enrolment
               && run[n].accepts[j].step == run[n].accepts[k].step
    ensures run[n].accepts[j].enrolment < run[n].accepts[j].era || run[n].accepts[k].enrolment < run[n].accepts[k].era
  {
    RunKeepsInv(run, n);
  }

  // A recovery code of a batch is used once.
  lemma RecoveryCodesWorkOnce(run: seq<World>, n: nat, j: nat, k: nat)
    requires IsRun(run) && n < |run| && j < k < |run[n].uses|
    ensures run[n].uses[j].batch != run[n].uses[k].batch || run[n].uses[j].hash != run[n].uses[k].hash
  {
    RunKeepsInv(run, n);
  }

  // A ticket for which five failures were counted has no session and never will.
  lemma FiveFailuresAreTheEnd(run: seq<World>, n: nat, k: nat)
    requires IsRun(run) && n < |run| && k < |run[n].sessions|
    ensures
      var w := run[n];
      && w.sessions[k] < |w.requests| && w.requests[w.sessions[k]].ticket.Some?
      && Failures(w.failures, w.requests[w.sessions[k]].ticket.value) < MAX_FAILURES
  {
    RunKeepsInv(run, n);
    var w := run[n];
    var a := w.sessions[k];
    assert RequestOk(w.requests[a], a, w.accepts, w.uses, w.consumptions, w.setups, w.sessions);
    var c :| 0 <= c < |w.consumptions| && w.consumptions[c].request == a
        && Some(w.consumptions[c].ticket) == w.requests[a].ticket;
    assert TicketIsTaken(w.tickets, w.issued, w.failures, w.consumptions[c].ticket);
  }

  // ---- what can happen -------------------------------------------------------------------------

  // The code that a request made at this time, and left alone, passes with.
  predicate IsRightNow(w: World, code: Code, now: nat) {
    match code
    case Totp(digits) =>
      Enabled(w) && var step :=
          Verify(w.generate, SecretOf(w).secret, digits, now); step.Some? && w.lastStep < step.value
    case Recovery(hash) => hash in w.codes
  }

  // The run can go on to this state.
  ghost predicate GoesOn(run: seq<World>, more: seq<World>, w: World) {
    IsRun(run + more) && (run + more)[|run + more| - 1] == w
  }

  ghost predicate CanReach(run: seq<World>, w: World) {
    exists more :: GoesOn(run, more, w)
  }

  lemma StartsThere(run: seq<World>)
    requires IsRun(run)
    ensures CanReach(run, run[|run| - 1])
  {
    assert run + [] == run;
    assert GoesOn(run, [], run[|run| - 1]);
  }

  lemma Goes(run: seq<World>, w: World, w': World)
    requires CanReach(run, w) && Step(w, w')
    ensures CanReach(run, w')
  {
    var more :| GoesOn(run, more, w);
    var all, further := run + more, run + more + [w'];
    assert further == run + (more + [w']);
    forall k | 0 <= k < |further| - 1 ensures Step(further[k], further[k + 1]) {
      if k < |all| - 1 {
        assert further[k] == all[k] && further[k + 1] == all[k + 1];
      }
    }
    assert GoesOn(run, more + [w'], w');
  }

  lemma Answers(run: seq<World>, w: World, i: nat, w': World)
    requires CanReach(run, w) && RequestStep(w, w', i)
    ensures CanReach(run, w')
  {
    Goes(run, w, w');
  }

  // A new request with a right code passes.
  lemma RightCodesPass(run: seq<World>, w: World, r: Request, now: nat) returns (w': World)
    requires CanReach(run, w) && r.stage == Asked && IsRightNow(w, r.code, now)
    requires r.ticket.Some? ==> r.ticket.value in w.tickets
    ensures CanReach(run, w')
    ensures w'.requests == w.requests + [r.(stage := Passed)] && w'.tickets == w.tickets && w'.sessions == w.sessions
  {
    var i := |w.requests|;
    var asked := w.(requests := w.requests + [r]);
    assert Ask(w, asked, r);
    Goes(run, w, asked);
    if r.code.Recovery? {
      w' := Moved(asked, i, Passed).(codes := w.codes - {r.code.hash}, uses :=
          w.uses + [Use(i, Batch(asked), r.code.hash)]);
      assert UseRecoveryCode(asked, w', i);
      Answers(run, asked, i, w');
    } else {
      var read := Moved(asked, i, SecretOf(asked));
      assert GetTOTP(asked, read, i);
      Answers(run, asked, i, read);
      var step := Verify(w.generate, SecretOf(w).secret, r.code.digits, now).value;
      w' := Moved(read, i, Passed).(lastStep := step, accepts := w.accepts + [Acceptance(read, i, step, now)]);
      assert AcceptStep(read, w', i, now);
      Answers(run, read, i, w');
    }
  }

  // From any reachable state, a live ticket and a right code can get a session.
  lemma RightCodesCanLogIn(run: seq<World>, t: Ticket, code: Code, now: nat) returns (w': World)
    requires IsRun(run) && t in run[|run| - 1].tickets && IsRightNow(run[|run| - 1], code, now)
    ensures CanReach(run, w')
    ensures
      var w := run[|run| - 1];
      w'.requests == w.requests + [Request(Some(t), code, Over)] && w'.sessions == w.sessions + [|w.requests|]
  {
    StartsThere(run);
    var i := |run[|run| - 1].requests|;
    var w := RightCodesPass(run, run[|run| - 1], Request(Some(t), code, Asked), now);
    var taken := Moved(w, i, Consumed).(tickets := w.tickets - {t}, consumptions :=
        w.consumptions + [Consumption(i, t)]);
    assert Consume(w, taken, i);
    Answers(run, w, i, taken);
    w' := Moved(taken, i, Over).(sessions := taken.sessions + [i]);
    assert CreateSession(taken, w', i);
    Answers(run, taken, i, w');
  }

  lemma TheClockStepIsTriedFirst(generate: Generator, secret: Secret, step: nat)
    ensures Verify(generate, secret, generate(secret, step), step * PERIOD) == Some(step as int)
  {
  }

  function Empty(generate: Generator): World {
    World(generate, [None], 0, [{}], {}, map[], {}, map[], [], [], [], [], [])
  }

  // Two tickets, and two-factor authentication turned on by the code of this step.
  lemma TwoTickets(generate: Generator, secret: Secret, a: Ticket, b: Ticket, confirmed: nat) returns (w: World)
    requires a != b
    ensures CanReach([Empty(generate)], w)
    ensures w == World(generate, [None, Some(Setup(secret, confirmed))], confirmed, [{}, {}], {}, map[a := 0, b := 0],
              {a, b},
                       map[], [], [], [], [], [])
  {
    var start := Empty(generate);
    StartsThere([start]);
    var one := start.(tickets := map[a := 0], issued := {a});
    assert Issue(start, one, a);
    Goes([start], start, one);
    var two := one.(tickets := map[a := 0, b := 0], issued := {a, b});
    assert Issue(one, two, b);
    Goes([start], one, two);
    TheClockStepIsTriedFirst(generate, secret, confirmed);
    w := EnabledWith(two, Setup(secret, confirmed), {});
    assert Enable(two, w, secret, generate(secret, confirmed), confirmed * PERIOD, {});
    Goes([start], two, w);
  }

  // A request reads the secret.
  lemma Reads(run: seq<World>, w: World, t: Ticket, code: Code) returns (w': World)
    requires CanReach(run, w) && t in w.tickets && code.Totp? && Enabled(w)
    ensures CanReach(run, w') && w' == w.(requests := w.requests + [Request(Some(t), code, SecretOf(w))])
  {
    var r := Request(Some(t), code, Asked);
    var asked := w.(requests := w.requests + [r]);
    assert Ask(w, asked, r);
    Goes(run, w, asked);
    w' := Moved(asked, |w.requests|, SecretOf(asked));
    assert GetTOTP(asked, w', |w.requests|);
    Answers(run, asked, |w.requests|, w');
    assert w'.requests == w.requests + [r.(stage := SecretOf(w))];
  }

  // The digits that request i read the secret for are accepted.
  lemma Accepts(run: seq<World>, w: World, i: nat, step: nat) returns (w': World)
    requires CanReach(run, w) && i < |w.requests| && w.requests[i].stage.HasSecret? && w.lastStep < step
    requires w.requests[i].code == Totp(w.generate(w.requests[i].stage.secret, step))
    ensures CanReach(run, w')
    ensures w' == Moved(w, i, Passed).(lastStep := step, accepts := w.accepts + [Acceptance(w, i, step, step * PERIOD)])
  {
    TheClockStepIsTriedFirst(w.generate, w.requests[i].stage.secret, step);
    w' := Moved(w, i, Passed).(lastStep := step, accepts := w.accepts + [Acceptance(w, i, step, step * PERIOD)]);
    assert AcceptStep(w, w', i, step * PERIOD);
    Answers(run, w, i, w');
  }

  // A code does pass twice: two requests read the secret, the first one's digits are recorded, an
  // administrator turns two-factor authentication off, which forgets the last step, and the second request
  // passes with the same digits.
  lemma AResetLetsACodePassAgain(generate: Generator, secret: Secret, a: Ticket, b: Ticket, confirmed: nat, step: nat)
    returns (w: World)
    requires a != b && 0 < confirmed < step
    ensures Init(Empty(generate)) && CanReach([Empty(generate)], w)
    ensures
      var digits := generate(secret, step);
      && w.accepts == [Accept(0, 1, 1, step, digits, step * PERIOD), Accept(1, 1, 2, step, digits, step * PERIOD)]
      && w.requests == [Request(Some(a), Totp(digits), Passed), Request(Some(b), Totp(digits), Passed)]
      && a in w.tickets && b in w.tickets
  {
    var code, run := Totp(generate(secret, step)), [Empty(generate)];
    w := TwoTickets(generate, secret, a, b, confirmed);
    w := Reads(run, w, a, code);
    w := Reads(run, w, b, code);
    w := Accepts(run, w, 0, step);
    assert w.requests == [Request(Some(a), code, Passed), Request(Some(b), code, HasSecret(1, secret))];
    assert Settings(w, DisabledIn(w));
    Goes(run, w, DisabledIn(w));
    w := Accepts(run, DisabledIn(w), 1, step);
  }
}
