/** What the money counters of a stored intent satisfy in each status, and exactly which requests
    break it: those whose 64-bit sums wrap, and instant captures outside 1..amount. */
module Ledger {
  import opened Domain
  import opened Engine

  predicate LedgerOk(i: Intent) {
    && 0 < i.amount
    && 0 <= i.refunded <= i.captured <= i.amount
    && !i.status.StatusIntent?
    && !i.status.StatusRefunding?
    && (i.status.StatusFailed? || i.status.Status3DSPending? ==> i.captured == i.refunded == i.settled == 0)
    && (i.status.Status3DSPending? ==> i.rail.Card?)
    && (i.status.StatusAuthorized? || i.status.StatusVoided? ==> i.captured < i.amount && i.refunded == 0)
    && (!i.status.StatusSettled? ==> i.settled == 0)
    && (CapturedOrLater(i.status) ==> 0 < i.captured && (i.rail.Card? ==> i.captured == i.amount))
    && (i.status.StatusRefunded? <==> i.refunded > 0 && !i.status.StatusSettled?)
    && (i.rail.ACH? || i.rail.SEPA? ==> i.captured == 0)
    && (IsInstant(i.rail) ==> i.status.StatusFailed? || CapturedOrLater(i.status))
  }

  predicate CapturedOrLater(s: Status) {
    || s.StatusCaptured? || s.StatusSettled? || s.StatusRefunded?
    || s.StatusChargedBack? || s.StatusChargebackWon? || s.StatusChargebackLost?
  }

  // --- requests that wrap ----------------------------------------------------

  /** The request is accepted although the true sum exceeds the int64 range. */
  predicate Wraps(i: Intent, op: Op) {
    match op
    case Capture(None, Ok) =>
      i.rail.Card? && i.status.StatusAuthorized? && i.captured + i.amount > MAX64
    case Refund(req, Ok) =>
      i.status.StatusSettled? && (req.Some? ==> 0 < req.value)
      && i.refunded + RefundAmount(i, req) > MAX64
    case _ => false
  }

  /** A request on an intent with a sound ledger keeps it sound exactly when it does not wrap. */
  lemma ApplyKeepsLedger(i: Intent, op: Op, now: Time)
    requires LedgerOk(i)
    ensures LedgerOk(Apply(i, op, now).intent) <==> !Wraps(i, op)
  {
    if op.Capture? {
      assert Apply(i, op, now) == ApplyCapture(i, op.req, op.reply, now);
      CaptureKeepsLedger(i, op.req, op.reply, now);
    } else if op.Refund? {
      assert Apply(i, op, now) == ApplyRefund(i, op.req, op.reply, now);
      RefundKeepsLedger(i, op.req, op.reply, now);
    } else {
      OthersKeepLedger(i, op, now);
    }
  }

  lemma OthersKeepLedger(i: Intent, op: Op, now: Time)
    requires LedgerOk(i) && !op.Capture? && !op.Refund?
    ensures LedgerOk(Apply(i, op, now).intent)
  {
    if op.Challenge? {
      ChallengeKeepsLedger(i, op, now);
    } else if op.Settle? {
      SettleKeepsLedger(i, op, now);
    }
  }

  lemma ChallengeKeepsLedger(i: Intent, op: Op, now: Time)
    requires LedgerOk(i) && op.Challenge?
    ensures LedgerOk(Apply(i, op, now).intent)
  {
    hide ChallengeFailure;
  }

  lemma SettleKeepsLedger(i: Intent, op: Op, now: Time)
    requires LedgerOk(i) && op.Settle?
    ensures LedgerOk(Apply(i, op, now).intent)
  {
    hide BreakDetail, RailName;
  }

  lemma CaptureKeepsLedger(i: Intent, req: Option<Int64>, reply: Reply, now: Time)
    requires LedgerOk(i)
    ensures LedgerOk(ApplyCapture(i, req, reply, now).intent) <==> !Wraps(i, Capture(req, reply))
  {
    if i.status.StatusAuthorized? {
      assert Sub64(i.amount, i.captured) == i.amount - i.captured;
      if req.Some? && 0 < req.value <= i.amount - i.captured {
        assert Add64(i.captured, req.value) == i.captured + req.value;
      }
    }
  }

  lemma RefundKeepsLedger(i: Intent, req: Option<Int64>, reply: Reply, now: Time)
    requires LedgerOk(i)
    ensures LedgerOk(ApplyRefund(i, req, reply, now).intent) <==> !Wraps(i, Refund(req, reply))
  {
    var amount := RefundAmount(i, req);
    if i.status.StatusCaptured? && (req.Some? ==> 0 < req.value) {
      assert Add64(i.refunded, amount) == amount;
    }
  }

  /** What a request that wraps leaves behind: a negative counter. */
  lemma WrapGoesNegative(i: Intent, op: Op, now: Time)
    requires LedgerOk(i) && Wraps(i, op)
    ensures Apply(i, op, now).intent.captured < 0 || Apply(i, op, now).intent.refunded < 0
  {
  }

  /** A created intent is sound exactly when an instant rail reported an amount in 1..amount. */
  lemma CreateKeepsLedger(req: CreateReq, id: string, env: CreateEnv, now: Time)
    requires ValidCreate(req)
    ensures LedgerOk(Create(req, id, env, now).intent) <==> SubmitInRange(req, env)
  {
  }

  /** When the create handler captures at once, the captured amount lies in 1..amount. */
  predicate SubmitInRange(req: CreateReq, env: CreateEnv)
    requires ValidCreate(req)
  {
    !req.threeDS && env.fraud.FraudAllow? && IsInstant(ParseRail(req.rail).value) && env.submit.SubmitOk?
    && env.submit.settleAmount.Some?
    ==> 0 < env.submit.settleAmount.value <= req.amount
  }

  // --- the exact bound for captures ------------------------------------------

  const SAFE_AMOUNT: int := 0x4000_0000_0000_0000

  /** A run of capture requests on one intent. */
  function Captures(i: Intent, reqs: seq<Option<Int64>>, now: Time): Intent
    decreases |reqs|
  {
    if reqs == [] then i
    else Captures(Apply(i, Capture(reqs[0], Ok), now).intent, reqs[1..], now)
  }

  predicate FreshlyAuthorized(i: Intent) {
    i.rail.Card? && i.status.StatusAuthorized? && 0 < i.amount
    && i.captured == 0 && i.refunded == 0 && i.settled == 0
  }

  /** The difference and the sum that a capture computes, if it gets that far, are the true ones. */
  predicate SumsExact(i: Intent, req: Option<Int64>) {
    i.rail.Card? && i.status.StatusAuthorized? ==>
      && Sub64(i.amount, i.captured) == i.amount - i.captured
      && ((req.Some? ==> 0 < req.value <= i.amount - i.captured) ==>
            Add64(i.captured, CaptureAmount(i, req)) == i.captured + CaptureAmount(i, req))
  }

  predicate AllSumsExact(i: Intent, reqs: seq<Option<Int64>>, now: Time)
    decreases |reqs|
  {
    reqs == []
    || (SumsExact(i, reqs[0]) && AllSumsExact(Apply(i, Capture(reqs[0], Ok), now).intent, reqs[1..], now))
  }

  /** In a run of captures on an intent of at most 2^62 nothing wraps and the ledger stays sound. */
  lemma {:induction false} CapturesStayInBounds(i: Intent, reqs: seq<Option<Int64>>, now: Time)
    requires LedgerOk(i) && i.amount <= SAFE_AMOUNT
    ensures LedgerOk(Captures(i, reqs, now))
    ensures Captures(i, reqs, now).amount == i.amount
    ensures AllSumsExact(i, reqs, now)
    decreases |reqs|
  {
    if reqs != [] {
      ApplyKeepsLedger(i, Capture(reqs[0], Ok), now);
      CapturesStayInBounds(Apply(i, Capture(reqs[0], Ok), now).intent, reqs[1..], now);
    }
  }

  /** The amounts for which no run of captures can leave 0..amount are exactly those up to 2^62:
      above it, capturing all but one unit and then the default amount wraps past the guard. */
  lemma CaptureBoundIsExact(i: Intent, now: Time)
    requires FreshlyAuthorized(i)
    ensures (forall reqs :: 0 <= Captures(i, reqs, now).captured <= i.amount) <==> i.amount <= SAFE_AMOUNT
  {
    if i.amount <= SAFE_AMOUNT {
      forall reqs ensures 0 <= Captures(i, reqs, now).captured <= i.amount {
        CapturesStayInBounds(i, reqs, now);
      }
    } else {
      var last: seq<Option<Int64>> := [None];
      var reqs := [Some(i.amount - 1)] + last;
      var c := Apply(i, Capture(reqs[0], Ok), now).intent;
      assert c.captured == i.amount - 1 && c.status.StatusAuthorized?;
      assert reqs[1..] == last && last[1..] == [];
      assert Captures(i, reqs, now) == Captures(c, reqs[1..], now);
      var d := Apply(c, Capture(None, Ok), now).intent;
      assert Captures(c, last, now) == Captures(d, [], now) == d;
      assert c.captured + c.amount > MAX64;
      assert Captures(i, reqs, now).captured < 0;
    }
  }

  // --- voids -----------------------------------------------------------------

  /** Exactly when a void leaves a voided intent with captured money: the intent was authorized with some
      already captured, and the rail agreed. The status is all that is checked. */
  lemma VoidWithCapturesExactly(i: Intent, reply: Reply, now: Time)
    requires !i.status.StatusVoided?
    ensures var j := Apply(i, Void(reply), now).intent;
      && j.captured == i.captured
      && (j.status.StatusVoided? && j.captured > 0
          <==> i.status.StatusAuthorized? && i.captured > 0 && reply.Ok?)
  {
  }

  /** So capturing one unit of a larger amount and then voiding leaves one unit captured. */
  lemma PartlyCapturedCanBeVoided(i: Intent, now: Time)
    requires FreshlyAuthorized(i) && i.amount > 1
    ensures var j := Apply(Captures(i, [Some(1)], now), Void(Ok), now);
      j.err.None? && j.intent.status.StatusVoided? && j.intent.captured == 1
  {
    var c := Apply(i, Capture(Some(1), Ok), now).intent;
    assert c.captured == 1 && c.status.StatusAuthorized?;
    assert [Some(1)][1..] == [];
    assert Captures(i, [Some(1)], now) == Captures(c, [], now);
  }
}
