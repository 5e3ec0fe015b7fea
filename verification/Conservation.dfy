/** Conservation: at every point of every interleaving, what the intents (and the rails) say was
    moved equals the rows in the store plus the rows decided but not yet appended. */
module Conservation {
  import opened Domain
  import opened Engine
  import opened Ledger
  import opened History
  import opened Runs
  import opened Tally
  import W = World

  // --- the conserved quantities ----------------------------------------------

  /** Each pairs something the system keeps about an intent with rows of one kind: a money counter
      with their amounts, captured events or the settled status with their number, and the amounts
      that the rail accepted with their amounts. */
  datatype Quantity =
    | Captured | Refunded | Settled
    | CaptureEvents | Settlements
    | RailCaptured | RailRefunded

  function KindOf(q: Quantity): Kind {
    match q
    case Captured => CaptureRow
    case CaptureEvents => CaptureRow
    case RailCaptured => CaptureRow
    case Refunded => RefundRow
    case RailRefunded => RefundRow
    case Settled => SettlementRow
    case Settlements => SettlementRow
  }

  predicate IsMoney(q: Quantity) {
    q.Captured? || q.Refunded? || q.Settled?
  }

  /** The counters whose sums can wrap. Settled is not one: it is zero until the one settlement. */
  predicate CanWrap(q: Quantity) {
    q.Captured? || q.Refunded?
  }

  predicate IsRail(q: Quantity) {
    q.RailCaptured? || q.RailRefunded?
  }

  function OfIntent(i: Intent, q: Quantity): int {
    match q
    case Captured => i.captured
    case Refunded => i.refunded
    case Settled => i.settled
    case CaptureEvents => Read(i.history).captures
    case Settlements => if i.status.StatusSettled? then 1 else 0
    case _ => 0
  }

  /** What an answer of the rail moved. */
  function Moved(q: Quantity, id: string): ExtCall -> int {
    (c: ExtCall) =>
      if c.id == id && q.RailCaptured? && ((c.RailCapture? && c.ok) || (c.RailSubmit? && c.ok)) then c.amount
      else if c.id == id && q.RailRefunded? && c.RailRefund? && c.ok then c.amount
      else 0
  }

  function Value(w: W.World, q: Quantity, id: string): int {
    if IsRail(q) then Sum(w.ext, Moved(q, id))
    else if id in w.intents then OfIntent(w.intents[id], q)
    else 0
  }

  function Weigh(q: Quantity, r: Row): int {
    if r.kind != KindOf(q) then 0
    else if q.CaptureEvents? || q.Settlements? then 1
    else r.amount
  }

  function Weighed(q: Quantity): Row -> int {
    (r: Row) => Weigh(q, r)
  }

  function RowTotal(w: W.World, q: Quantity, id: string): int {
    Sum(W.RowsFor(w, KindOf(q), id), Weighed(q))
  }

  /** What an action still to be taken will add to the rows of an intent. */
  function Owes(q: Quantity, id: string): W.Act -> int {
    (a: W.Act) => if a.Append? && a.row.intentId == id then Weigh(q, a.row) else 0
  }

  function Pending(s: W.System, q: Quantity, id: string): int {
    Total(s.tasks, Owes(q, id))
  }

  /** What is kept beyond the rows. */
  function Gap(w: W.World, q: Quantity, id: string): int {
    Value(w, q, id) - RowTotal(w, q, id)
  }

  // --- one request on one intent ---------------------------------------------

  function RowWeight(rows: seq<Row>, q: Quantity): int {
    if |rows| == 1 then Weigh(q, rows[0]) else 0
  }

  /** How far a request moves a quantity beyond the row it decides. */
  function Excess(i: Intent, o: Outcome, q: Quantity): int {
    if IsRail(q) then Sum(o.ext, Moved(q, i.id)) - RowWeight(o.rows, q)
    else OfIntent(o.intent, q) - OfIntent(i, q) - RowWeight(o.rows, q)
  }

  predicate WrapOrNothing(d: int) {
    d == 0 || d == TWO64 || d == -TWO64
  }

  predicate Fits64(n: int) {
    MIN64 <= n <= MAX64
  }

  /** The request passes its guards and the rail agrees, although the true sum does not fit. */
  predicate SumWraps(i: Intent, op: Op, q: Quantity) {
    match op
    case Capture(req, Ok) =>
      q.Captured? && CaptureAllowed(i, req) && !Fits64(i.captured + CaptureAmount(i, req))
    case Refund(req, Ok) =>
      q.Refunded? && RefundAllowed(i, req) && !Fits64(i.refunded + RefundAmount(i, req))
    case _ => false
  }

  /** On a sound ledger these are the requests that break it. */
  lemma WrapsIsSumWraps(i: Intent, op: Op)
    requires LedgerOk(i)
    ensures Wraps(i, op) <==> exists q :: SumWraps(i, op, q)
  {
    if Wraps(i, op) {
      assert SumWraps(i, op, Captured) || SumWraps(i, op, Refunded);
    }
  }

  /** A request moves each quantity by the row it decides, except that a sum that does not fit is off by
      2^64. */
  lemma ApplyMoves(i: Intent, op: Op, now: Time, q: Quantity)
    requires HistoryOk(i)
    ensures WrapOrNothing(Excess(i, Apply(i, op, now), q))
    ensures Excess(i, Apply(i, op, now), q) == 0 <==> !SumWraps(i, op, q)
  {
    if q.CaptureEvents? {
      CaptureEventsMove(i, op, now);
    } else if IsRail(q) {
      RailMoves(i, op, now, q);
    } else if op.Capture? {
      CaptureMoves(i, op.req, op.reply, now, q);
    } else if op.Refund? {
      RefundMoves(i, op.req, op.reply, now, q);
    } else if op.Settle? {
      SettleMoves(i, op.rail, op.settledAmount, op.railRef, now, q);
    } else {
      OthersMoveNothing(i, op, now, q);
    }
  }

  lemma CaptureEventsMove(i: Intent, op: Op, now: Time)
    requires HistoryOk(i)
    ensures Excess(i, Apply(i, op, now), CaptureEvents) == 0
  {
    ApplyKeepsHistory(i, op, now);
    W.ApplyRows(i, op, now);
    CountsAsWeight(Apply(i, op, now).rows);
  }

  lemma CountsAsWeight(rows: seq<Row>)
    requires |rows| <= 1
    ensures CountKind(rows, CaptureRow) == RowWeight(rows, CaptureEvents)
  {
    if rows != [] {
      CountOne(rows, CaptureRow);
    }
  }

  lemma CaptureMoves(i: Intent, req: Option<Int64>, reply: Reply, now: Time, q: Quantity)
    requires !q.CaptureEvents? && !IsRail(q)
    ensures WrapOrNothing(Excess(i, ApplyCapture(i, req, reply, now), q))
    ensures Excess(i, ApplyCapture(i, req, reply, now), q) == 0 <==> !SumWraps(i, Capture(req, reply), q)
  {
  }

  lemma RefundMoves(i: Intent, req: Option<Int64>, reply: Reply, now: Time, q: Quantity)
    requires !q.CaptureEvents? && !IsRail(q)
    ensures WrapOrNothing(Excess(i, ApplyRefund(i, req, reply, now), q))
    ensures Excess(i, ApplyRefund(i, req, reply, now), q) == 0 <==> !SumWraps(i, Refund(req, reply), q)
  {
  }

  lemma SettleMoves(i: Intent, rail: Rail, amount: Int64, ref: string, now: Time, q: Quantity)
    requires !q.CaptureEvents? && !IsRail(q)
    ensures WrapOrNothing(Excess(i, ApplySettle(i, rail, amount, ref, now), q))
    ensures !q.Settled? || i.settled == 0 || !i.status.StatusCaptured?
         ==> Excess(i, ApplySettle(i, rail, amount, ref, now), q) == 0
  {
    var c := i.(settled := Add64(i.settled, amount));
    if i.status.StatusCaptured? {
      var o := ApplySettle(i, rail, amount, ref, now);
      assert o.intent.settled == c.settled && o.intent.status.StatusSettled?;
      assert o.intent.captured == i.captured && o.intent.refunded == i.refunded;
      assert o.rows == [Row(SettlementRow, i.id, amount, ref, now)];
    }
  }

  lemma OthersMoveNothing(i: Intent, op: Op, now: Time, q: Quantity)
    requires !op.Capture? && !op.Refund? && !op.Settle? && !q.CaptureEvents? && !IsRail(q)
    ensures Excess(i, Apply(i, op, now), q) == 0
  {
  }

  /** The rail accepted exactly what a row was decided for. */
  lemma RailMoves(i: Intent, op: Op, now: Time, q: Quantity)
    requires IsRail(q)
    ensures Excess(i, Apply(i, op, now), q) == 0
  {
    if op.Capture? {
      CaptureMovesRail(i, op.req, op.reply, now, q);
    } else if op.Refund? {
      RefundMovesRail(i, op.req, op.reply, now, q);
    } else {
      W.ApplyCalls(i, op, now);
      SumZero(Apply(i, op, now).ext, Moved(q, i.id));
      OthersDecideNoMoney(i, op, now, q);
    }
  }

  lemma CaptureMovesRail(i: Intent, req: Option<Int64>, reply: Reply, now: Time, q: Quantity)
    requires IsRail(q)
    ensures Excess(i, ApplyCapture(i, req, reply, now), q) == 0
  {
    SumOne(RailCapture(i.id, reply.Ok?, CaptureAmount(i, req)), Moved(q, i.id));
  }

  lemma RefundMovesRail(i: Intent, req: Option<Int64>, reply: Reply, now: Time, q: Quantity)
    requires IsRail(q)
    ensures Excess(i, ApplyRefund(i, req, reply, now), q) == 0
  {
    SumOne(RailRefund(i.id, reply.Ok?, RefundAmount(i, req)), Moved(q, i.id));
  }

  lemma OthersDecideNoMoney(i: Intent, op: Op, now: Time, q: Quantity)
    requires IsRail(q) && !op.Capture? && !op.Refund?
    ensures RowWeight(Apply(i, op, now).rows, q) == 0
  {
  }

  /** The calls of a request concern its own intent. */
  lemma ApplyCallsOwn(i: Intent, op: Op, now: Time, q: Quantity, id: string)
    requires id != i.id
    ensures Sum(Apply(i, op, now).ext, Moved(q, id)) == 0
  {
    W.ApplyCalls(i, op, now);
    SumZero(Apply(i, op, now).ext, Moved(q, id));
  }

  // --- one creation ----------------------------------------------------------

  lemma CreateMoves(req: CreateReq, id: string, env: CreateEnv, now: Time, q: Quantity)
    requires ValidCreate(req)
    ensures var c := Create(req, id, env, now);
      && (!IsRail(q) ==> OfIntent(c.intent, q) == RowWeight(c.rows, q))
      && (IsRail(q) ==> Sum(c.ext, Moved(q, id)) == RowWeight(c.rows, q))
  {
    var c := Create(req, id, env, now);
    if q.CaptureEvents? {
      CreateKeepsHistory(req, id, env, now);
      CountsAsWeight(c.rows);
    } else if IsRail(q) {
      CreateMovesRail(req, id, env, now, q);
    } else {
      CreateMovesMoney(req, id, env, now, q);
    }
  }

  lemma CreateMovesMoney(req: CreateReq, id: string, env: CreateEnv, now: Time, q: Quantity)
    requires ValidCreate(req) && !q.CaptureEvents? && !IsRail(q)
    ensures var c := Create(req, id, env, now); OfIntent(c.intent, q) == RowWeight(c.rows, q)
  {
  }

  lemma CreateMovesRail(req: CreateReq, id: string, env: CreateEnv, now: Time, q: Quantity)
    requires ValidCreate(req) && IsRail(q)
    ensures var c := Create(req, id, env, now); Sum(c.ext, Moved(q, id)) == RowWeight(c.rows, q)
  {
    hide Transition, CreateFailure, CreateInstant;
    var i := Draft(req, id, now);
    var c := Create(req, id, env, now);
    if !req.threeDS && CreateFailure(i, env).None? && IsInstant(i.rail) {
      InstantMovesRail(i, env.submit.ref, SubmittedAmount(i, env.submit.settleAmount), now, q);
    } else {
      FailureMovesNothing(i, env, q);
      SumZero(c.ext, Moved(q, id));
    }
  }

  lemma InstantMovesRail(i: Intent, ref: string, amount: Int64, now: Time, q: Quantity)
    requires IsRail(q)
    ensures var c := CreateInstant(i, ref, amount, now); Sum(c.ext, Moved(q, i.id)) == RowWeight(c.rows, q)
  {
    hide Transition;
    var c := CreateInstant(i, ref, amount, now);
    SumPair(c.ext[0], c.ext[1], Moved(q, i.id));
  }

  lemma FailureMovesNothing(i: Intent, env: CreateEnv, q: Quantity)
    ensures CreateFailure(i, env).Some? ==>
      forall c <- CreateFailure(i, env).value.ext :: Moved(q, i.id)(c) == 0
  {
  }

  lemma CreateCallsOwn(req: CreateReq, pid: string, env: CreateEnv, now: Time, q: Quantity, id: string)
    requires ValidCreate(req) && id != pid
    ensures Sum(Create(req, pid, env, now).ext, Moved(q, id)) == 0
  {
    W.CreateCalls(req, pid, env, now);
    SumZero(Create(req, pid, env, now).ext, Moved(q, id));
  }

  // --- one action ------------------------------------------------------------

  lemma SumOfAppends(rows: seq<Row>, q: Quantity, pid: string, id: string)
    requires |rows| <= 1 && forall r <- rows :: r.intentId == pid
    ensures Sum(W.Appends(rows), Owes(q, id)) == if id == pid then RowWeight(rows, q) else 0
  {
    if rows == [] {
      assert W.Appends(rows) == [];
    } else {
      assert W.Appends(rows) == [] + [W.Append(rows[0])];
      SumSnoc([], W.Append(rows[0]), Owes(q, id));
    }
  }

  lemma RowTotalAfterAppend(w: W.World, r: Row, q: Quantity, id: string)
    ensures RowTotal(W.AddRow(w, r), q, id)
         == RowTotal(w, q, id) + (if r.intentId == id then Weigh(q, r) else 0)
  {
    W.RowsAfterAppend(w, r, KindOf(q), id);
    SumSnoc(W.RowsFor(w, KindOf(q), id), r, Weighed(q));
  }

  /** By how much the gap moves beyond what the action still owes. */
  function Drift(w: W.World, a: W.Act, q: Quantity, id: string): int {
    var e := W.Exec(w, a);
    (Gap(e.world, q, id) - Sum(e.rest, Owes(q, id))) - (Gap(w, q, id) - Owes(q, id)(a))
  }

  /** The action is an update of the intent whose sum does not fit. */
  predicate ActWraps(w: W.World, a: W.Act, q: Quantity, id: string) {
    a.Update? && a.id == id && id in w.intents && SumWraps(w.intents[id], a.op, q)
  }

  /** Nothing drifts, unless and only if a sum wraps: then by 2^64. */
  predicate Balanced(w: W.World, a: W.Act, q: Quantity, id: string) {
    var d := Drift(w, a, q, id);
    WrapOrNothing(d) && (d == 0 <==> !ActWraps(w, a, q, id))
  }

  lemma ExecConserves(w: W.World, a: W.Act, q: Quantity, id: string)
    requires Keyed(w)
    ensures Balanced(w, a, q, id)
  {
    match a
    case Post(req, pid, env, now) => PostConserves(w, a, q, id);
    case Update(pid, op, now) => UpdateConserves(w, a, q, id);
    case Append(row) => AppendConserves(w, row, q, id);
    case _ => OtherOwesNothing(w, a, q, id);
  }

  lemma AppendConserves(w: W.World, row: Row, q: Quantity, id: string)
    ensures Drift(w, W.Append(row), q, id) == 0
  {
    var e := W.Exec(w, W.Append(row));
    assert e.world == W.AddRow(w, row) && e.rest == [];
    RowTotalAfterAppend(w, row, q, id);
    AppendKeepsValue(w, row, q, id);
  }

  lemma AppendKeepsValue(w: W.World, row: Row, q: Quantity, id: string)
    ensures Value(W.AddRow(w, row), q, id) == Value(w, q, id)
  {
  }

  lemma PostConserves(w: W.World, a: W.Act, q: Quantity, id: string)
    requires a.Post?
    ensures Drift(w, a, q, id) == 0
  {
    hide Create, Value, RowTotal;
    var e := W.ExecPost(w, a.req, a.id, a.env, a.now);
    assert W.Exec(w, a) == e;
    if ValidCreate(a.req) && a.id !in w.intents {
      var c := Create(a.req, a.id, a.env, a.now);
      PostOwes(a.req, a.id, a.env, a.now, q, id);
      PostMoves(w, a.req, a.id, a.env, a.now, q, id);
      assert e.rest == W.Appends(c.rows) + W.Emits(c.late);
      SameRowTotal(e.world, w, q, id);
    }
  }

  lemma SameRowTotal(v: W.World, w: W.World, q: Quantity, id: string)
    requires SameRows(v, w)
    ensures RowTotal(v, q, id) == RowTotal(w, q, id)
  {
  }

  lemma PostOwes(req: CreateReq, pid: string, env: CreateEnv, now: Time, q: Quantity, id: string)
    requires ValidCreate(req)
    ensures var c := Create(req, pid, env, now);
      Sum(W.Appends(c.rows) + W.Emits(c.late), Owes(q, id)) == if id == pid then RowWeight(c.rows, q) else 0
  {
    var c := Create(req, pid, env, now);
    W.CreateRows(req, pid, env, now);
    SumOfAppends(c.rows, q, pid, id);
    SumConcat(W.Appends(c.rows), W.Emits(c.late), Owes(q, id));
    SumZero(W.Emits(c.late), Owes(q, id));
  }

  lemma PostMoves(w: W.World, req: CreateReq, pid: string, env: CreateEnv, now: Time, q: Quantity, id: string)
    requires ValidCreate(req) && pid !in w.intents
    ensures var c := Create(req, pid, env, now);
      Value(W.ExecPost(w, req, pid, env, now).world, q, id)
      == Value(w, q, id) + (if id == pid then RowWeight(c.rows, q) else 0)
  {
    hide Create;
    var c := Create(req, pid, env, now);
    SumConcat(w.ext, c.ext, Moved(q, id));
    if id == pid {
      CreateMoves(req, pid, env, now, q);
    } else {
      CreateCallsOwn(req, pid, env, now, q, id);
    }
  }

  lemma UpdateConserves(w: W.World, a: W.Act, q: Quantity, id: string)
    requires Keyed(w) && a.Update?
    ensures Balanced(w, a, q, id)
  {
    hide Apply, Value, RowTotal, SumWraps;
    var e := W.ExecUpdate(w, a.id, a.op, a.now);
    assert W.Exec(w, a) == e;
    if a.id in w.intents {
      var i := w.intents[a.id];
      var o := Apply(i, a.op, a.now);
      W.ApplyRows(i, a.op, a.now);
      SumOfAppends(o.rows, q, a.id, id);
      UpdateMoves(w, a.id, a.op, a.now, q, id);
      ApplyMoves(i, a.op, a.now, q);
      assert e.rest == W.Appends(o.rows);
      SameRowTotal(e.world, w, q, id);
    }
  }

  lemma UpdateMoves(w: W.World, pid: string, op: Op, now: Time, q: Quantity, id: string)
    requires pid in w.intents && w.intents[pid].id == pid
    ensures var i := w.intents[pid];
      var o := Apply(i, op, now);
      Value(W.ExecUpdate(w, pid, op, now).world, q, id)
      == Value(w, q, id) + (if id == pid then RowWeight(o.rows, q) + Excess(i, o, q) else 0)
  {
    hide Apply, RowWeight;
    var o := Apply(w.intents[pid], op, now);
    SumConcat(w.ext, o.ext, Moved(q, id));
    if id != pid {
      ApplyCallsOwn(w.intents[pid], op, now, q, id);
    }
  }

  lemma OtherOwesNothing(w: W.World, a: W.Act, q: Quantity, id: string)
    requires !a.Post? && !a.Update? && !a.Append?
    ensures Drift(w, a, q, id) == 0
  {
    hide W.Exec;
    var e := W.Exec(w, a);
    ExecOther(w, a);
    SumZero(e.rest, Owes(q, id));
    assert Gap(e.world, q, id) == Gap(w, q, id);
  }

  // --- every interleaving ----------------------------------------------------

  /** Gap minus pending, which every step changes by the drift of its action. */
  function Surplus(s: W.System, q: Quantity, id: string): int {
    Gap(s.world, q, id) - Pending(s, q, id)
  }

  /** The decision takes an action on the intent whose sum does not fit. */
  predicate MoveWraps(s: W.System, m: W.Move, q: Quantity, id: string) {
    && m.Advance? && m.task < |s.tasks| && s.tasks[m.task] != []
    && ActWraps(s.world, s.tasks[m.task][0], q, id)
  }

  lemma StepConserves(s: W.System, m: W.Move, q: Quantity, id: string)
    requires Keyed(s.world)
    ensures WrapOrNothing(Surplus(W.Step(s, m), q, id) - Surplus(s, q, id))
    ensures Surplus(W.Step(s, m), q, id) == Surplus(s, q, id) <==> !MoveWraps(s, m, q, id)
  {
    hide W.Exec, ActWraps, Gap;
    match m
    case Arrive(a) =>
      if W.IsRequest(a) {
        TotalSnoc(s.tasks, [a], Owes(q, id));
        SumZero([a], Owes(q, id));
      }
    case Advance(t) =>
      if t < |s.tasks| && s.tasks[t] != [] {
        var acts := s.tasks[t];
        var e := W.Exec(s.world, acts[0]);
        ExecConserves(s.world, acts[0], q, id);
        SumHeadTail(acts, Owes(q, id));
        SumConcat(e.rest, acts[1..], Owes(q, id));
        TotalUpdate(s.tasks, t, e.rest + acts[1..], Owes(q, id));
      }
  }

  lemma StillMultiple(x: int, d: int)
    requires x % TWO64 == 0 && WrapOrNothing(d)
    ensures (x + d) % TWO64 == 0
  {
  }

  /** From the empty store, in every interleaving whatsoever: counters and rows agree modulo 2^64. */
  lemma {:induction false} ConservedModulo(ms: seq<W.Move>, q: Quantity, id: string)
    ensures Surplus(W.Run(W.START, ms), q, id) % TWO64 == 0
    decreases |ms|
  {
    hide W.Step;
    if ms != [] {
      var init := ms[..|ms| - 1];
      ConservedModulo(init, q, id);
      RunKeyed(W.START, init);
      var before, after := W.Run(W.START, init), W.Run(W.START, ms);
      StepConserves(before, ms[|ms| - 1], q, id);
      StillMultiple(Surplus(before, q, id), Surplus(after, q, id) - Surplus(before, q, id));
    }
  }

  /** No update of the intent had a sum that does not fit, up to here. */
  predicate NeverWraps(ms: seq<W.Move>, q: Quantity, id: string) {
    || ms == []
    || (NeverWraps(ms[..|ms| - 1], q, id) && !MoveWraps(W.Run(W.START, ms[..|ms| - 1]), ms[|ms| - 1], q, id))
  }

  /** Captured events, the settled status and counter, and what the rails accepted never wrap. */
  lemma {:induction false} OnlyCountersWrap(ms: seq<W.Move>, q: Quantity, id: string)
    requires !CanWrap(q)
    ensures NeverWraps(ms, q, id)
    decreases |ms|
  {
    if ms != [] {
      OnlyCountersWrap(ms[..|ms| - 1], q, id);
    }
  }

  /** In a run that is safe for the intent nothing of it wraps. */
  lemma {:induction false} SafeRunsNeverWrap(ms: seq<W.Move>, q: Quantity, id: string)
    requires SafeRunFor(W.START, ms, id)
    ensures NeverWraps(ms, q, id)
    decreases |ms|
  {
    if ms != [] {
      hide W.Exec, SumWraps, Wraps, LedgerOk;
      var init, m := ms[..|ms| - 1], ms[|ms| - 1];
      SafeRunsNeverWrap(init, q, id);
      RunSoundFor(W.START, init, id);
      var s := W.Run(W.START, init);
      if MoveWraps(s, m, q, id) {
        WrapsIsSumWraps(s.world.intents[id], s.tasks[m.task][0].op);
      }
    }
  }

  lemma LastMoveConserves(ms: seq<W.Move>, q: Quantity, id: string)
    requires ms != []
    ensures var init := ms[..|ms| - 1];
      NeverWraps(ms, q, id)
      <==> NeverWraps(init, q, id) && Surplus(W.Run(W.START, ms), q, id) == Surplus(W.Run(W.START, init), q, id)
  {
    RunKeyed(W.START, ms[..|ms| - 1]);
    StepConserves(W.Run(W.START, ms[..|ms| - 1]), ms[|ms| - 1], q, id);
  }

  /** Exactly the interleavings that keep a quantity equal to its rows at every point: those in which no
      sum of that quantity wraps for that intent. */
  lemma {:induction false} ConservedExactly(ms: seq<W.Move>, q: Quantity, id: string)
    ensures NeverWraps(ms, q, id) <==> forall n :: 0 <= n <= |ms| ==> Surplus(W.Run(W.START, ms[..n]), q, id) == 0
    decreases |ms|
  {
    if ms == [] {
      assert ms[..0] == ms;
    } else {
      hide W.Run, NeverWraps, Surplus;
      var init := ms[..|ms| - 1];
      Prefixes(ms);
      ConservedExactly(init, q, id);
      LastMoveConserves(ms, q, id);
      if NeverWraps(init, q, id) {
        assert init[..|init|] == init;
      } else {
        var n :| 0 <= n <= |init| && Surplus(W.Run(W.START, init[..n]), q, id) != 0;
        assert init[..n] == ms[..n];
      }
    }
  }

  /** Whatever happens to other intents, each quantity equals its rows, appended and pending, at every
      point of every interleaving in which no sum of it has wrapped. */
  lemma Conserved(ms: seq<W.Move>, q: Quantity, id: string)
    requires !CanWrap(q) || NeverWraps(ms, q, id)
    ensures var s := W.Run(W.START, ms);
      Value(s.world, q, id) == RowTotal(s.world, q, id) + Pending(s, q, id)
  {
    if !CanWrap(q) {
      OnlyCountersWrap(ms, q, id);
    }
    ConservedExactly(ms, q, id);
    assert ms[..|ms|] == ms;
  }

  lemma RestOwesNothing(s: W.System, q: Quantity, id: string)
    requires W.AtRest(s)
    ensures Pending(s, q, id) == 0
  {
    TotalEmpty(s.tasks, Owes(q, id));
  }

  /** When no request is in flight, nothing is pending. */
  lemma ConservedAtRest(ms: seq<W.Move>, q: Quantity, id: string)
    requires !CanWrap(q) || NeverWraps(ms, q, id)
    requires W.AtRest(W.Run(W.START, ms))
    ensures var s := W.Run(W.START, ms); Value(s.world, q, id) == RowTotal(s.world, q, id)
  {
    Conserved(ms, q, id);
    RestOwesNothing(W.Run(W.START, ms), q, id);
  }

  // --- counting rows ---------------------------------------------------------

  predicate IsCount(q: Quantity) {
    q.CaptureEvents? || q.Settlements?
  }

  lemma {:induction false} CountsRows(rows: seq<Row>, q: Quantity)
    requires IsCount(q) && forall r <- rows :: r.kind == KindOf(q)
    ensures Sum(rows, Weighed(q)) == |rows|
    decreases |rows|
  {
    if rows != [] {
      CountsRows(rows[..|rows| - 1], q);
    }
  }

  /** Each table holds rows of its own kind. */
  ghost predicate Filed(w: W.World) {
    forall k, id :: forall r <- W.RowsFor(w, k, id) :: r.kind == k
  }

  lemma {:induction false} RunFiled(ms: seq<W.Move>)
    ensures Filed(W.Run(W.START, ms).world)
    decreases |ms|
  {
    if ms != [] {
      RunFiled(ms[..|ms| - 1]);
      var s, m := W.Run(W.START, ms[..|ms| - 1]), ms[|ms| - 1];
      if m.Advance? && m.task < |s.tasks| && s.tasks[m.task] != [] {
        ExecFiled(s.world, s.tasks[m.task][0]);
      }
    }
  }

  lemma ExecFiled(w: W.World, a: W.Act)
    requires Filed(w)
    ensures Filed(W.Exec(w, a).world)
  {
    hide Create, Apply, W.ExecDeliver;
    var v := W.Exec(w, a).world;
    if a.Append? {
      AppendFiled(w, a.row);
    } else {
      ExecKeepsRows(w, a);
      assert forall k, id :: W.RowsFor(v, k, id) == W.RowsFor(w, k, id);
    }
  }

  lemma ExecKeepsRows(w: W.World, a: W.Act)
    requires !a.Append?
    ensures SameRows(W.Exec(w, a).world, w)
  {
    hide Create, Apply;
    if !a.Post? && !a.Update? {
      ExecOther(w, a);
    }
  }

  lemma AppendFiled(w: W.World, r: Row)
    requires Filed(w)
    ensures Filed(W.AddRow(w, r))
  {
    var v := W.AddRow(w, r);
    forall k, id ensures forall x <- W.RowsFor(v, k, id) :: x.kind == k {
      W.RowsAfterAppend(w, r, k, id);
    }
  }

  lemma {:induction false} PendingIsNatural(tasks: seq<seq<W.Act>>, q: Quantity, id: string)
    requires IsCount(q)
    ensures Total(tasks, Owes(q, id)) >= 0
    decreases |tasks|
  {
    if tasks != [] {
      PendingIsNatural(tasks[..|tasks| - 1], q, id);
      SumNonNegative(tasks[|tasks| - 1], Owes(q, id));
    }
  }

  /** In any run whatsoever an intent has at most one settlement row, and none unless it is settled. */
  lemma SettledOnce(ms: seq<W.Move>, id: string)
    ensures var w := W.Run(W.START, ms).world;
      && |W.RowsFor(w, SettlementRow, id)| <= 1
      && (W.RowsFor(w, SettlementRow, id) != [] ==> id in w.intents && w.intents[id].status.StatusSettled?)
  {
    var s := W.Run(W.START, ms);
    Conserved(ms, Settlements, id);
    PendingIsNatural(s.tasks, Settlements, id);
    RunFiled(ms);
    CountsRows(W.RowsFor(s.world, SettlementRow, id), Settlements);
  }

  /** At rest, the history of an intent holds one captured event, partial or final, per capture row. */
  lemma CapturesLogged(ms: seq<W.Move>, id: string)
    requires W.AtRest(W.Run(W.START, ms))
    ensures var w := W.Run(W.START, ms).world;
      id in w.intents ==> Read(w.intents[id].history).captures == |W.RowsFor(w, CaptureRow, id)|
  {
    ConservedAtRest(ms, CaptureEvents, id);
    RunFiled(ms);
    CountsRows(W.RowsFor(W.Run(W.START, ms).world, CaptureRow, id), CaptureEvents);
  }
}
