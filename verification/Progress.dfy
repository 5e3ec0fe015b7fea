/** How an intent evolves: its history only grows, its status only moves forward, its captured amount
    freezes, and only boundedly many requests can change it. */
module Progress {
  import opened Domain
  import opened Engine
  import opened Ledger
  import opened History
  import opened Runs
  import W = World

  // --- forward only ----------------------------------------------------------

  /** Statuses from which nothing more is captured. */
  predicate CaptureClosed(s: Status) {
    !s.StatusIntent? && !s.Status3DSPending? && !s.StatusAuthorized?
  }

  predicate Evolves(i: Intent, j: Intent) {
    && SameIdentity(i, j)
    && i.history <= j.history
    && (i.status == j.status || Rank(j.status) < Rank(i.status))
    && (CaptureClosed(i.status) ==> CaptureClosed(j.status) && j.captured == i.captured)
    && (i.status.StatusSettled? ==> j.settled == i.settled)
  }

  lemma ApplyEvolves(i: Intent, op: Op, now: Time)
    requires HistoryOk(i)
    ensures Evolves(i, Apply(i, op, now).intent)
  {
    ApplyKeepsHistory(i, op, now);
    ApplyForward(i, op, now);
  }

  lemma ApplyForward(i: Intent, op: Op, now: Time)
    requires !i.status.StatusRefunding?
    ensures var j := Apply(i, op, now).intent;
      && (i.status == j.status || Rank(j.status) < Rank(i.status))
      && (CaptureClosed(i.status) ==> CaptureClosed(j.status) && j.captured == i.captured)
      && (i.status.StatusSettled? ==> j.settled == i.settled)
  {
    hide ApplyCapture, ApplyRefund, ApplySettle, ChallengeFailure;
    match op
    case Capture(req, reply) => CaptureForward(i, req, reply, now);
    case Refund(req, reply) => RefundForward(i, req, reply, now);
    case Settle(rail, amount, ref) => SettleForward(i, rail, amount, ref, now);
    case _ =>
  }

  lemma SettleForward(i: Intent, rail: Rail, amount: Int64, ref: string, now: Time)
    ensures var j := ApplySettle(i, rail, amount, ref, now).intent;
      && (i.status == j.status || Rank(j.status) < Rank(i.status))
      && (CaptureClosed(i.status) ==> CaptureClosed(j.status) && j.captured == i.captured)
      && (i.status.StatusSettled? ==> j.settled == i.settled)
  {
    hide BreakDetail;
  }

  lemma CaptureForward(i: Intent, req: Option<Int64>, reply: Reply, now: Time)
    ensures var j := ApplyCapture(i, req, reply, now).intent;
      && (i.status == j.status || Rank(j.status) < Rank(i.status))
      && (CaptureClosed(i.status) ==> j == i)
      && j.settled == i.settled
  {
  }

  lemma RefundForward(i: Intent, req: Option<Int64>, reply: Reply, now: Time)
    ensures var j := ApplyRefund(i, req, reply, now).intent;
      && (i.status == j.status || Rank(j.status) < Rank(i.status))
      && j.captured == i.captured && j.settled == i.settled
      && (CaptureClosed(i.status) ==> CaptureClosed(j.status))
  {
  }

  lemma EvolvesTransitive(i: Intent, j: Intent, k: Intent)
    requires Evolves(i, j) && Evolves(j, k)
    ensures Evolves(i, k)
  {
  }

  /** Between any two points of any interleaving, an intent evolves; in particular terminal statuses
      (those of rank 0) are never left. */
  lemma {:induction false} RunEvolves(s: W.System, ms: seq<W.Move>, id: string)
    requires Keyed(s.world) && id in s.world.intents
    ensures var w := W.Run(s, ms).world;
      id in w.intents && Evolves(s.world.intents[id], w.intents[id])
    decreases |ms|
  {
    if ms != [] {
      var init, m := ms[..|ms| - 1], ms[|ms| - 1];
      RunEvolves(s, init, id);
      RunKeyed(s, init);
      var before := W.Run(s, init);
      StepEvolves(before, m, id);
      EvolvesTransitive(s.world.intents[id], before.world.intents[id], W.Run(s, ms).world.intents[id]);
    }
  }

  lemma StepEvolves(s: W.System, m: W.Move, id: string)
    requires Keyed(s.world) && id in s.world.intents
    ensures var w := W.Step(s, m).world;
      id in w.intents && Evolves(s.world.intents[id], w.intents[id])
  {
    hide W.Exec;
    if m.Advance? && m.task < |s.tasks| && s.tasks[m.task] != [] {
      ExecEvolves(s.world, s.tasks[m.task][0], id);
    }
  }

  lemma ExecEvolves(w: W.World, a: W.Act, id: string)
    requires Keyed(w) && id in w.intents
    ensures var v := W.Exec(w, a).world;
      id in v.intents && Evolves(w.intents[id], v.intents[id])
  {
    hide W.Exec, Apply;
    ExecIntent(w, a, id);
    if a.Update? && a.id == id {
      ApplyEvolves(w.intents[id], a.op, a.now);
    }
  }

  lemma TerminalIsRankZero(s: Status)
    ensures IsTerminal(s) <==> Rank(s) == 0
  {
  }

  /** Once terminal, the status stays for ever. */
  lemma TerminalForEver(s: W.System, ms: seq<W.Move>, id: string)
    requires Keyed(s.world) && id in s.world.intents && IsTerminal(s.world.intents[id].status)
    ensures var w := W.Run(s, ms).world;
      id in w.intents && w.intents[id].status == s.world.intents[id].status
  {
    RunEvolves(s, ms, id);
    TerminalIsRankZero(s.world.intents[id].status);
  }

  /** The statuses that the documentation calls terminal. */
  predicate DocumentedTerminal(s: Status) {
    || s.StatusVoided? || s.StatusFailed? || s.StatusRefunded? || s.StatusChargedBack?
    || s.StatusChargebackWon? || s.StatusChargebackLost?
  }

  /** They are left exactly by the reversal of a charged-back intent, which is won for amount zero and
      lost otherwise; every other request keeps them. */
  lemma DocumentedTerminalLeftExactly(i: Intent, op: Op, now: Time)
    requires DocumentedTerminal(i.status)
    ensures var j := Apply(i, op, now).intent;
      && (j.status != i.status <==> i.status.StatusChargedBack? && op.ReverseChargeback?)
      && (j.status != i.status ==>
            j.status == if op.disputed == 0 then StatusChargebackWon else StatusChargebackLost)
  {
    hide ChallengeFailure, BreakDetail;
  }

  /** At most five status changes: reading any stored history counts them. */
  lemma AtMostFiveChanges(ms: seq<W.Move>, id: string)
    ensures var w := W.Run(W.START, ms).world;
      id in w.intents ==> Read(w.intents[id].history).changes <= 5 - Rank(w.intents[id].status)
  {
    RunKeyed(W.START, ms);
  }

  // --- boundedly many effective requests -------------------------------------

  /** The request changed status or money. */
  predicate Effective(i: Intent, j: Intent) {
    i.status != j.status || i.captured != j.captured || i.refunded != j.refunded || i.settled != j.settled
  }

  /** What is left to happen: status changes, captures and refunds. */
  function Potential(i: Intent): int {
    Rank(i.status) + 2 * i.amount - i.captured - i.refunded
  }

  lemma ApplySpends(i: Intent, op: Op, now: Time)
    requires LedgerOk(i) && HistoryOk(i) && !Wraps(i, op)
    ensures var j := Apply(i, op, now).intent;
      && LedgerOk(j)
      && 0 <= Potential(j) <= Potential(i)
      && (Effective(i, j) ==> Potential(j) < Potential(i))
  {
    ApplyKeepsLedger(i, op, now);
    ApplyForward(i, op, now);
    ApplyGrowsMoney(i, op, now);
  }

  /** Without overflow, captured and refunded never shrink, and settled changes only with the status. */
  lemma ApplyGrowsMoney(i: Intent, op: Op, now: Time)
    requires LedgerOk(i) && !Wraps(i, op)
    ensures var j := Apply(i, op, now).intent;
      && i.captured <= j.captured && i.refunded <= j.refunded && i.amount == j.amount
      && (i.settled != j.settled ==> i.status != j.status)
  {
    hide ApplyCapture, ApplyRefund, ChallengeFailure, BreakDetail;
    match op
    case Capture(req, reply) => CaptureGrows(i, req, reply, now);
    case Refund(req, reply) => RefundGrows(i, req, reply, now);
    case _ =>
  }

  lemma CaptureGrows(i: Intent, req: Option<Int64>, reply: Reply, now: Time)
    requires LedgerOk(i) && !Wraps(i, Capture(req, reply))
    ensures var j := ApplyCapture(i, req, reply, now).intent;
      i.captured <= j.captured && i.refunded == j.refunded && i.amount == j.amount && i.settled == j.settled
  {
  }

  lemma RefundGrows(i: Intent, req: Option<Int64>, reply: Reply, now: Time)
    requires LedgerOk(i) && !Wraps(i, Refund(req, reply))
    ensures var j := ApplyRefund(i, req, reply, now).intent;
      i.captured == j.captured && i.refunded <= j.refunded && i.amount == j.amount && i.settled == j.settled
  {
  }

  /** How many steps of a run changed the status or the money of an intent. */
  function EffectiveSteps(s: W.System, ms: seq<W.Move>, id: string): nat {
    if ms == [] then 0
    else
      var before, after := W.Run(s, ms[..|ms| - 1]).world, W.Run(s, ms).world;
      EffectiveSteps(s, ms[..|ms| - 1], id)
      + (if id in before.intents && id in after.intents && Effective(before.intents[id], after.intents[id])
         then 1 else 0)
  }

  lemma StepSpends(s: W.System, m: W.Move, id: string)
    requires Keyed(s.world) && id in s.world.intents
    requires LedgerOk(s.world.intents[id]) && SafeMoveFor(s, m, id)
    ensures var w := W.Step(s, m).world;
      && id in w.intents
      && 0 <= Potential(w.intents[id]) <= Potential(s.world.intents[id])
      && (Effective(s.world.intents[id], w.intents[id])
          ==> Potential(w.intents[id]) < Potential(s.world.intents[id]))
  {
    hide W.Exec, Apply;
    if m.Advance? && m.task < |s.tasks| && s.tasks[m.task] != [] {
      var a := s.tasks[m.task][0];
      ExecIntent(s.world, a, id);
      if a.Update? && a.id == id {
        ApplySpends(s.world.intents[id], a.op, a.now);
      }
    }
  }

  /** However long a run, at most 5 + 2 * amount of its steps change the status or money of an intent, as
      long as no update of that intent overflows; other intents may do as they like. */
  lemma {:induction false} BoundedProgress(s: W.System, ms: seq<W.Move>, id: string)
    requires Keyed(s.world) && id in s.world.intents
    requires LedgerOk(s.world.intents[id]) && SafeRunFor(s, ms, id)
    ensures var i := s.world.intents[id];
      && id in W.Run(s, ms).world.intents
      && EffectiveSteps(s, ms, id) + Potential(W.Run(s, ms).world.intents[id]) <= Potential(i)
      && EffectiveSteps(s, ms, id) <= 5 + 2 * i.amount
    decreases |ms|
  {
    if ms != [] {
      var init := ms[..|ms| - 1];
      BoundedProgress(s, init, id);
      RunKeyed(s, init);
      RunSoundFor(s, init, id);
      StepSpends(W.Run(s, init), ms[|ms| - 1], id);
    }
  }

  // --- reconciliation --------------------------------------------------------

  /** For every settled intent, in every run and for ever after, the history holds a reconciliation
      break exactly when the settled amount differs from the captured one. */
  lemma BreakIffMismatch(ms: seq<W.Move>, later: seq<W.Move>, id: string)
    requires var w := W.Run(W.START, ms).world;
      id in w.intents && w.intents[id].status.StatusSettled?
    ensures var i := W.Run(W.START, ms).world.intents[id];
      var w := W.Run(W.Run(W.START, ms), later).world;
      && id in w.intents
      && w.intents[id].status.StatusSettled?
      && w.intents[id].captured == i.captured && w.intents[id].settled == i.settled
      && (Read(w.intents[id].history).breaks == if i.settled != i.captured then 1 else 0)
  {
    var s := W.Run(W.START, ms);
    RunKeyed(W.START, ms);
    RunEvolves(s, later, id);
    RunKeyed(s, later);
  }
}
