/** A condition on the requests alone under which no run overflows a counter. */
module Safety {
  import opened Domain
  import opened Engine
  import opened Ledger
  import opened Runs
  import W = World

  /** What a request may ask for a payment: an amount below 2^62 that its rail captures at most, and
      refunds that leave room. */
  predicate Modest(a: W.Act, id: string) {
    match a
    case Post(req, pid, env, _) =>
      pid == id && ValidCreate(req) ==> req.amount < SAFE_AMOUNT && SubmitInRange(req, env)
    case Update(pid, Refund(Some(amount), _), _) => pid == id ==> amount <= MAX64 - SAFE_AMOUNT
    case _ => true
  }

  predicate ModestMove(m: W.Move, id: string) {
    m.Arrive? ==> Modest(m.request, id)
  }

  predicate Small(w: W.World, id: string) {
    id in w.intents ==> w.intents[id].amount < SAFE_AMOUNT
  }

  ghost predicate AllModest(tasks: seq<seq<W.Act>>, id: string) {
    forall t :: 0 <= t < |tasks| ==> forall a <- tasks[t] :: Modest(a, id)
  }

  lemma ApplyKeepsAmount(i: Intent, op: Op, now: Time)
    ensures Apply(i, op, now).intent.amount == i.amount
  {
    hide ChallengeFailure, BreakDetail;
  }

  lemma CreateKeepsAmount(req: CreateReq, id: string, env: CreateEnv, now: Time)
    requires ValidCreate(req)
    ensures Create(req, id, env, now).intent.amount == req.amount
  {
  }

  lemma ModestIsSafe(w: W.World, a: W.Act, id: string)
    requires SoundFor(w, id) && Small(w, id) && Modest(a, id)
    ensures SafeFor(w, a, id)
  {
  }

  lemma ExecStaysSmall(w: W.World, a: W.Act, id: string)
    requires Small(w, id) && Modest(a, id)
    ensures Small(W.Exec(w, a).world, id)
  {
    hide Create, Apply;
    match a
    case Post(req, pid, env, now) =>
      if ValidCreate(req) {
        CreateKeepsAmount(req, pid, env, now);
      }
    case Update(pid, op, now) =>
      if pid in w.intents {
        ApplyKeepsAmount(w.intents[pid], op, now);
      }
    case _ => ExecOther(w, a);
  }

  /** What a request goes on to do asks the rail for nothing. */
  lemma RestIsModest(w: W.World, a: W.Act, id: string)
    ensures forall b <- W.Exec(w, a).rest :: Modest(b, id)
  {
    hide Create, Apply;
  }

  /** If the requests for a payment are modest, no run overflows its counters, however it is interleaved
      and whatever other requests ask for: so its ledger is sound throughout, and everything proved for
      safe runs holds. */
  lemma {:induction false} ModestRunsAreSafe(ms: seq<W.Move>, id: string)
    requires forall m <- ms :: ModestMove(m, id)
    ensures SafeRunFor(W.START, ms, id)
    ensures SoundFor(W.Run(W.START, ms).world, id) && Small(W.Run(W.START, ms).world, id)
    ensures AllModest(W.Run(W.START, ms).tasks, id)
    decreases |ms|
  {
    if ms != [] {
      hide W.Exec, SoundFor, Small, SafeFor;
      var init, m := ms[..|ms| - 1], ms[|ms| - 1];
      ModestRunsAreSafe(init, id);
      var s := W.Run(W.START, init);
      if m.Advance? && m.task < |s.tasks| && s.tasks[m.task] != [] {
        var a := s.tasks[m.task][0];
        ModestIsSafe(s.world, a, id);
        ExecSoundFor(s.world, a, id);
        ExecStaysSmall(s.world, a, id);
        RestIsModest(s.world, a, id);
      } else {
        assert ModestMove(m, id);
      }
    }
  }

  // --- bank rails ------------------------------------------------------------

  predicate IsBank(r: Rail) {
    r.ACH? || r.SEPA?
  }

  /** Nothing is captured on a bank rail. */
  predicate BankUncaptured(i: Intent) {
    IsBank(i.rail) ==> i.captured == 0 && !CapturedOrLater(i.status)
  }

  lemma ApplyCapturesNoBank(i: Intent, op: Op, now: Time)
    requires BankUncaptured(i)
    ensures BankUncaptured(Apply(i, op, now).intent)
  {
    hide ChallengeFailure, BreakDetail;
  }

  lemma CreateCapturesNoBank(req: CreateReq, id: string, env: CreateEnv, now: Time)
    requires ValidCreate(req)
    ensures BankUncaptured(Create(req, id, env, now).intent)
  {
  }

  ghost predicate BanksUncaptured(w: W.World) {
    forall id <- w.intents :: BankUncaptured(w.intents[id])
  }

  lemma ExecCapturesNoBank(w: W.World, a: W.Act)
    requires BanksUncaptured(w)
    ensures BanksUncaptured(W.Exec(w, a).world)
  {
    hide Create, Apply, BankUncaptured, W.ExecDeliver, W.ExecDispute, W.UpdateChargeback, W.AddRow;
    match a
    case Post(req, id, env, now) =>
      if ValidCreate(req) {
        CreateCapturesNoBank(req, id, env, now);
      }
    case Update(id, op, now) =>
      if id in w.intents {
        ApplyCapturesNoBank(w.intents[id], op, now);
      }
    case _ => ExecOther(w, a);
  }

  /** In every run, overflowing or not, ACH and SEPA intents have nothing captured and never reach
      captured, settled, refunded or a chargeback status. */
  lemma {:induction false} BankRailsNeverCapture(ms: seq<W.Move>)
    ensures BanksUncaptured(W.Run(W.START, ms).world)
    decreases |ms|
  {
    if ms != [] {
      hide W.Exec, BanksUncaptured;
      var init, m := ms[..|ms| - 1], ms[|ms| - 1];
      BankRailsNeverCapture(init);
      var s := W.Run(W.START, init);
      if m.Advance? && m.task < |s.tasks| && s.tasks[m.task] != [] {
        ExecCapturesNoBank(s.world, s.tasks[m.task][0]);
      }
    }
  }
}
