/** The same callbacks under the two stores: MemStore keeps what a failing callback did to the intent,
    Postgres rolls it back. Rows, audit events and rail calls survive in both. */
module TwoStores {
  import opened Domain
  import opened Engine
  import opened Ledger
  import opened History
  import opened Conservation
  import opened Tally
  import W = World

  /** UpdateIntent in Postgres: a copy is changed, and committed only when the callback succeeds. */
  function ApplyTx(i: Intent, op: Op, now: Time): Outcome {
    var o := Apply(i, op, now);
    if o.err.Some? then o.(intent := i) else o
  }

  /** A challenge that is attempted and fails. */
  predicate FailedChallenge(i: Intent, op: Op, now: Time) {
    && op.Challenge?
    && i.status.Status3DSPending?
    && ChallengeFailure(i, op.window, op.resume, op.verify, op.authorize, now).Some?
  }

  /** A refund of a settled intent that the rail carries out. */
  predicate LateRefund(i: Intent, op: Op) {
    op.Refund? && i.status.StatusSettled? && RefundAllowed(i, op.req) && op.reply.Ok?
  }

  function LateMoney(i: Intent, op: Op): int {
    if LateRefund(i, op) then RefundAmount(i, op.req) else 0
  }

  /** The two stores end up with different intents in exactly two families of requests. */
  lemma StoresDiffer(i: Intent, op: Op, now: Time)
    ensures Apply(i, op, now).intent != ApplyTx(i, op, now).intent
       <==> FailedChallenge(i, op, now) || (LateRefund(i, op) && RefundAmount(i, op.req) != 0)
  {
    if op.Capture? {
      CaptureAgrees(i, op.req, op.reply, now);
    } else if op.Refund? {
      RefundDiffers(i, op.req, op.reply, now);
    } else if op.Challenge? {
      ChallengeDiffers(i, op, now);
    } else {
      OthersAgree(i, op, now);
    }
  }

  lemma CaptureAgrees(i: Intent, req: Option<Int64>, reply: Reply, now: Time)
    ensures ApplyCapture(i, req, reply, now).err.Some? ==> ApplyCapture(i, req, reply, now).intent == i
  {
  }

  lemma RefundDiffers(i: Intent, req: Option<Int64>, reply: Reply, now: Time)
    ensures var o := ApplyRefund(i, req, reply, now);
      o.err.Some? && o.intent != i <==> LateRefund(i, Refund(req, reply)) && RefundAmount(i, req) != 0
  {
  }

  lemma ChallengeDiffers(i: Intent, op: Op, now: Time)
    requires op.Challenge?
    ensures Apply(i, op, now).err.Some? && Apply(i, op, now).intent != i <==> FailedChallenge(i, op, now)
  {
  }

  lemma OthersAgree(i: Intent, op: Op, now: Time)
    requires !op.Capture? && !op.Refund? && !op.Challenge?
    ensures Apply(i, op, now).err.Some? ==> Apply(i, op, now).intent == i
  {
  }

  // --- what the difference costs ---------------------------------------------

  /** What one request under Postgres moves beyond its row: a late refund leaves the refunded counter
      behind by its amount, and otherwise nothing moves unless a sum wraps. */
  lemma TxExcess(i: Intent, op: Op, now: Time, q: Quantity)
    requires HistoryOk(i) && IsMoney(q)
    ensures Excess(i, ApplyTx(i, op, now), q) + (if q.Refunded? then LateMoney(i, op) else 0) == 0
       <==> LateRefund(i, op) || !SumWraps(i, op, q)
  {
    hide Apply, ApplyRefund, RefundAllowed, SumWraps, CountKind;
    ApplyMoves(i, op, now, q);
    StoresDiffer(i, op, now);
    if LateRefund(i, op) {
      LateRefundLeavesRow(i, op, now);
    } else if FailedChallenge(i, op, now) {
      ChallengeDecidesNothing(i, op, now, q);
    }
  }

  lemma ChallengeDecidesNothing(i: Intent, op: Op, now: Time, q: Quantity)
    requires op.Challenge?
    ensures Apply(i, op, now).rows == [] && !SumWraps(i, op, q)
  {
    hide ChallengeFailure;
  }

  /** Under Postgres the counters follow the rows until a settled intent is refunded a non-zero amount:
      then a row is appended and the counter is not moved. Any other request keeps them in step exactly
      when no sum wraps. */
  lemma TxConservesExactlyUnless(i: Intent, op: Op, now: Time)
    requires HistoryOk(i)
    ensures (forall q :: IsMoney(q) ==> Excess(i, ApplyTx(i, op, now), q) == 0)
       <==> if LateRefund(i, op) then LateMoney(i, op) == 0 else forall q :: !SumWraps(i, op, q)
  {
    hide ApplyTx, LateRefund, Excess, RefundAmount;
    TxExcess(i, op, now, Captured);
    TxExcess(i, op, now, Refunded);
    TxExcess(i, op, now, Settled);
    assert IsMoney(Captured) && IsMoney(Refunded) && IsMoney(Settled);
  }

  lemma LateRefundLeavesRow(i: Intent, op: Op, now: Time)
    requires LateRefund(i, op)
    ensures var o := Apply(i, op, now);
      && o.err == Some(ErrTerminalState)
      && o.rows == [Row(RefundRow, i.id, RefundAmount(i, op.req), i.externalId, now)]
    ensures LedgerOk(i) ==> LateMoney(i, op) > 0
  {
  }

  /** Under Postgres the audit log follows the stored history until a challenge fails: the event is
      emitted although the status change is rolled back. */
  lemma TxAccountsUnless(i: Intent, op: Op, now: Time)
    requires HistoryOk(i)
    ensures Accounts(i, ApplyTx(i, op, now)) <==> !FailedChallenge(i, op, now)
  {
    var o, tx := Apply(i, op, now), ApplyTx(i, op, now);
    ApplyKeepsHistory(i, op, now);
    StoresDiffer(i, op, now);
    if FailedChallenge(i, op, now) {
      FailedChallengeEmits(i, op, now);
      EdgesOne(o.audit[0]);
      assert tx.intent == i;
    } else if tx.intent != o.intent {
      LateRefundIsSilent(i, op.req, now);
    }
  }

  lemma FailedChallengeEmits(i: Intent, op: Op, now: Time)
    requires FailedChallenge(i, op, now)
    ensures var o := Apply(i, op, now);
      && o.err.Some? && o.intent.status.StatusFailed? && |o.audit| == 1
      && o.audit == [o.audit[0]]
  {
  }

  lemma LateRefundIsSilent(i: Intent, req: Option<Int64>, now: Time)
    requires LateRefund(i, Refund(req, Ok))
    ensures var o := ApplyRefund(i, req, Ok, now);
      o.audit == [] && o.intent.history == i.history && CountKind(o.rows, CaptureRow) == 0
  {
    var o := ApplyRefund(i, req, Ok, now);
    assert o.rows[1..] == [];
  }

  /** After a failed challenge MemStore refuses every further one, while under Postgres the intent is
      still pending and the next challenge is judged as if nothing had happened. */
  lemma RetryAfterFailure(i: Intent, first: Op, second: Op, now: Time, later: Time)
    requires FailedChallenge(i, first, now) && second.Challenge?
    ensures Apply(Apply(i, first, now).intent, second, later).err == Some(ErrInvalidTransition)
    ensures ApplyTx(ApplyTx(i, first, now).intent, second, later) == ApplyTx(i, second, later)
  {
    FailedChallengeEmits(i, first, now);
  }

  // --- a run of requests under Postgres --------------------------------------

  datatype Request = Request(op: Op, now: Time)

  /** The stored intent after a sequence of requests. */
  function TxRun(i: Intent, rs: seq<Request>): Intent {
    if rs == [] then i
    else ApplyTx(TxRun(i, rs[..|rs| - 1]), rs[|rs| - 1].op, rs[|rs| - 1].now).intent
  }

  /** The rows that they appended. */
  function TxRows(i: Intent, rs: seq<Request>): seq<Row> {
    if rs == [] then []
    else
      TxRows(i, rs[..|rs| - 1])
      + ApplyTx(TxRun(i, rs[..|rs| - 1]), rs[|rs| - 1].op, rs[|rs| - 1].now).rows
  }

  /** The money that the rail refunded on settled intents. */
  function LateTotal(i: Intent, rs: seq<Request>): int {
    if rs == [] then 0
    else
      var before, op := TxRun(i, rs[..|rs| - 1]), rs[|rs| - 1].op;
      LateTotal(i, rs[..|rs| - 1]) + LateMoney(before, op)
  }

  /** No sum of the counter wraps in a refund or capture that is not rolled back. */
  predicate TxNeverWraps(i: Intent, rs: seq<Request>, q: Quantity) {
    || rs == []
    || (var before, op := TxRun(i, rs[..|rs| - 1]), rs[|rs| - 1].op;
        TxNeverWraps(i, rs[..|rs| - 1], q) && (LateRefund(before, op) || !SumWraps(before, op, q)))
  }

  /** How far a counter has moved beyond its rows, the late refunds set aside. */
  function TxSurplus(i: Intent, rs: seq<Request>, q: Quantity): int {
    OfIntent(TxRun(i, rs), q) - OfIntent(i, q) - Sum(TxRows(i, rs), Weighed(q))
    + (if q.Refunded? then LateTotal(i, rs) else 0)
  }

  lemma {:induction false} TxKeepsHistory(i: Intent, rs: seq<Request>)
    requires HistoryOk(i)
    ensures HistoryOk(TxRun(i, rs))
    decreases |rs|
  {
    if rs != [] {
      hide Apply, HistoryOk;
      TxKeepsHistory(i, rs[..|rs| - 1]);
      ApplyKeepsHistory(TxRun(i, rs[..|rs| - 1]), rs[|rs| - 1].op, rs[|rs| - 1].now);
    }
  }

  lemma TxAddsRows(i: Intent, op: Op, now: Time, rows: seq<Row>, q: Quantity)
    ensures var o := ApplyTx(i, op, now);
      Sum(rows + o.rows, Weighed(q)) == Sum(rows, Weighed(q)) + RowWeight(o.rows, q)
  {
    hide Apply;
    var o := ApplyTx(i, op, now);
    W.ApplyRows(i, op, now);
    SumConcat(rows, o.rows, Weighed(q));
    if o.rows != [] {
      assert o.rows == [o.rows[0]];
      SumOne(o.rows[0], Weighed(q));
    }
  }

  lemma LastRequestMoves(i: Intent, rs: seq<Request>, q: Quantity)
    requires HistoryOk(i) && IsMoney(q) && rs != []
    ensures var init := rs[..|rs| - 1];
      TxNeverWraps(i, rs, q) <==> TxNeverWraps(i, init, q) && TxSurplus(i, rs, q) == TxSurplus(i, init, q)
  {
    hide ApplyTx, LateRefund, LateMoney, SumWraps, HistoryOk;
    var init, r := rs[..|rs| - 1], rs[|rs| - 1];
    var before := TxRun(i, init);
    TxKeepsHistory(i, init);
    TxExcess(before, r.op, r.now, q);
    TxAddsRows(before, r.op, r.now, TxRows(i, init), q);
  }

  /** After every request of a run under Postgres a money counter equals its rows, and refunded falls
      short of them by exactly the late refunds, if and only if no sum wraps. */
  lemma {:induction false} TxRunConservesExactly(i: Intent, rs: seq<Request>, q: Quantity)
    requires HistoryOk(i) && IsMoney(q)
    ensures TxNeverWraps(i, rs, q) <==> forall n :: 0 <= n <= |rs| ==> TxSurplus(i, rs[..n], q) == 0
    decreases |rs|
  {
    if rs == [] {
      assert rs[..0] == rs;
    } else {
      hide TxNeverWraps, TxSurplus, HistoryOk;
      var init := rs[..|rs| - 1];
      Prefixes(rs);
      TxRunConservesExactly(i, init, q);
      LastRequestMoves(i, rs, q);
      if TxNeverWraps(i, init, q) {
        assert init[..|init|] == init;
      } else {
        var n :| 0 <= n <= |init| && TxSurplus(i, init[..n], q) != 0;
        assert init[..n] == rs[..n];
      }
    }
  }

  /** So captured and settled equal their rows after such a run, and refunded falls short of its rows by
      the late refunds. */
  lemma TxRunConserves(i: Intent, rs: seq<Request>, q: Quantity)
    requires HistoryOk(i) && IsMoney(q) && TxNeverWraps(i, rs, q)
    ensures OfIntent(TxRun(i, rs), q) + (if q.Refunded? then LateTotal(i, rs) else 0)
         == OfIntent(i, q) + Sum(TxRows(i, rs), Weighed(q))
  {
    TxRunConservesExactly(i, rs, q);
    assert rs[..|rs|] == rs;
  }
}
