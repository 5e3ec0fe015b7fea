/** The in-memory store and the requests running against it. A request is a short program of atomic
    actions, one per lock acquisition of the store; a schedule interleaves any number of requests. */
module World {
  import opened Domain
  import opened Engine

  // --- the store (internal/store/store.go) -----------------------------------

  datatype Stage = Opened | Evidence | Arbitration | Reversal

  datatype Chargeback = Chargeback(
    intentId: string,
    amount: Int64,
    reason: string,
    stage: Stage,
    caseRef: string,
    createdAt: Time,
    updatedAt: Time)

  datatype WebhookRecord = WebhookRecord(
    rail: Rail,
    eventId: string,
    receivedAt: Time,
    processedAt: Option<Time>)

  /** MemStore, the audit log, and the log of calls to the outside. */
  datatype World = World(
    intents: map<string, Intent>,
    captures: map<string, seq<Row>>,
    refunds: map<string, seq<Row>>,
    settlements: map<string, seq<Row>>,
    chargebacks: map<string, seq<Chargeback>>,
    webhooks: map<string, WebhookRecord>,
    audit: seq<AuditEvent>,
    ext: seq<ExtCall>)

  const EMPTY: World := World(map[], map[], map[], map[], map[], map[], [], [])

  function ListFor<T>(m: map<string, seq<T>>, id: string): seq<T> {
    if id in m then m[id] else []
  }

  function Push<T>(m: map<string, seq<T>>, id: string, x: T): map<string, seq<T>> {
    m[id := ListFor(m, id) + [x]]
  }

  /** CapturesFor, RefundsFor and SettlementsFor. */
  function RowsFor(w: World, k: Kind, id: string): seq<Row> {
    match k
    case CaptureRow => ListFor(w.captures, id)
    case RefundRow => ListFor(w.refunds, id)
    case SettlementRow => ListFor(w.settlements, id)
  }

  /** AddCapture, AddRefund and AddSettlement. */
  function AddRow(w: World, r: Row): World {
    match r.kind
    case CaptureRow => w.(captures := Push(w.captures, r.intentId, r))
    case RefundRow => w.(refunds := Push(w.refunds, r.intentId, r))
    case SettlementRow => w.(settlements := Push(w.settlements, r.intentId, r))
  }

  lemma RowsAfterAppend(w: World, r: Row, k: Kind, id: string)
    ensures RowsFor(AddRow(w, r), k, id)
         == if r.kind == k && r.intentId == id then RowsFor(w, k, id) + [r] else RowsFor(w, k, id)
  {
  }

  lemma RowKeepsRest(w: World, r: Row)
    ensures AddRow(w, r).intents == w.intents && AddRow(w, r).webhooks == w.webhooks
    ensures AddRow(w, r).audit == w.audit && AddRow(w, r).ext == w.ext
  {
    match r.kind
    case CaptureRow =>
    case RefundRow =>
    case SettlementRow =>
  }

  function WebhookKey(rail: Rail, eventId: string): string {
    RailName(rail) + "\0" + eventId
  }

  predicate HasCase(cs: seq<Chargeback>, caseRef: string) {
    exists k :: 0 <= k < |cs| && cs[k].caseRef == caseRef
  }

  /** The inner loop of UpdateChargeback: the first chargeback with the case reference. */
  function Restage(cs: seq<Chargeback>, caseRef: string, stage: Stage, now: Time): (r: seq<Chargeback>)
    ensures |r| == |cs|
  {
    if cs == [] then []
    else if cs[0].caseRef == caseRef then [cs[0].(stage := stage, updatedAt := now)] + cs[1..]
    else [cs[0]] + Restage(cs[1..], caseRef, stage, now)
  }

  // --- requests (internal/api/handlers.go) -----------------------------------

  datatype WebhookBody = WebhookBody(
    paymentId: string,
    typ: string,
    eventId: string,
    timestamp: Int64,
    amount: Int64,
    reason: string,
    caseRef: string,
    stage: string,
    railRef: string)

  function ParseStage(s: string): Option<Stage> {
    if s == "" || s == "opened" then Some(Opened)
    else if s == "evidence" then Some(Evidence)
    else if s == "arbitration" then Some(Arbitration)
    else if s == "reversal" then Some(Reversal)
    else None
  }

  /** Atomic actions. Posts (creating an intent), updates by the payment endpoints and webhook
      deliveries are requests; the others are what remains of a request after its first action.
      `pick` is the intent that the map iteration of UpdateChargeback happens to visit first. */
  datatype Act =
    | Post(req: CreateReq, id: string, env: CreateEnv, now: Time)
    | Update(id: string, op: Op, now: Time)
    | Append(row: Row)
    | Emit(event: AuditEvent)
    | Deliver(rail: string, body: WebhookBody, signed: bool, window: int, pick: string, now: Time)
    | Dispute(source: Rail, body: WebhookBody, stage: Stage, pick: string, now: Time)
    | AddChargeback(chargeback: Chargeback)
    | StageChargeback(caseRef: string, stage: Stage, pick: string, fallback: string, now: Time)
    | MarkProcessed(key: string, now: Time)

  predicate IsRequest(a: Act) {
    || a.Post?
    || a.Deliver?
    || (a.Update? && (a.op.Capture? || a.op.Void? || a.op.Refund? || a.op.Challenge?))
  }

  /** time.Unix counts seconds from the year 1 in an int64, which wraps for the last timestamps. */
  const UNIX_TO_INTERNAL: int := 62_135_596_800

  function Unix(timestamp: Int64): Time {
    (Add64(timestamp, UNIX_TO_INTERNAL) - UNIX_TO_INTERNAL) * 1_000_000_000
  }

  /** abs(time.Since(ts)): negation wraps, so the smallest duration stays negative. */
  function Age(timestamp: Int64, now: Time): Int64 {
    var d := Since(now, Unix(timestamp));
    if d < 0 then Sub64(0, d) else d
  }

  predicate Accepted(a: Act)
    requires a.Deliver?
  {
    && ParseRail(a.rail).Some?
    && a.signed
    && (a.body.timestamp != 0 ==> Age(a.body.timestamp, a.now) <= a.window)
  }

  function Appends(rows: seq<Row>): seq<Act> {
    seq(|rows|, k requires 0 <= k < |rows| => Append(rows[k]))
  }

  function Emits(events: seq<AuditEvent>): seq<Act> {
    seq(|events|, k requires 0 <= k < |events| => Emit(events[k]))
  }

  /** processWebhook: what an accepted delivery goes on to do. */
  function Process(rail: Rail, b: WebhookBody, pick: string, now: Time): seq<Act> {
    if b.paymentId == "" then []
    else if b.typ == "settlement" then [Update(b.paymentId, Settle(rail, b.amount, b.railRef), now)]
    else if b.typ == "chargeback" || b.stage != "" then
      var stage := ParseStage(b.stage);
      if stage.None? || b.caseRef == "" then [] else [Dispute(rail, b, stage.value, pick, now)]
    else [Update(b.paymentId, Note(rail, b.typ), now)]
  }

  datatype Executed = Executed(world: World, rest: seq<Act>)

  /** One action: its effect on the store and what the request still has to do because of it. */
  function Exec(w: World, a: Act): Executed {
    match a
    case Post(req, id, env, now) => ExecPost(w, req, id, env, now)
    case Update(id, op, now) => ExecUpdate(w, id, op, now)
    case Append(row) => Executed(AddRow(w, row), [])
    case Emit(e) => Executed(w.(audit := w.audit + [e]), [])
    case Deliver(_, _, _, _, _, _) => ExecDeliver(w, a)
    case Dispute(rail, b, stage, pick, now) => Executed(w, ExecDispute(w, rail, b, stage, pick, now))
    case AddChargeback(c) =>
      Executed(w.(chargebacks := Push(w.chargebacks, c.intentId, c)), [])
    case StageChargeback(caseRef, stage, pick, fallback, now) =>
      Executed(w.(chargebacks := UpdateChargeback(w.chargebacks, caseRef, stage, pick, fallback, now)), [])
    case MarkProcessed(key, now) => Executed(Marked(w, key, now), [])
  }

  /** MarkWebhookProcessed. */
  function Marked(w: World, key: string, now: Time): World {
    if key in w.webhooks
    then w.(webhooks := w.webhooks[key := w.webhooks[key].(processedAt := Some(now))])
    else w
  }

  /** Ids are fresh; a post that repeats one does nothing here. */
  function ExecPost(w: World, req: CreateReq, id: string, env: CreateEnv, now: Time): Executed {
    if !ValidCreate(req) || id in w.intents then Executed(w, [])
    else
      var c := Create(req, id, env, now);
      Executed(w.(intents := w.intents[id := c.intent], audit := w.audit + c.early, ext := w.ext + c.ext),
               Appends(c.rows) + Emits(c.late))
  }

  /** MemStore.UpdateIntent: the callback works on the stored intent itself, so what it did before
      failing stays. The rows are appended by a later action. */
  function ExecUpdate(w: World, id: string, op: Op, now: Time): Executed {
    if id !in w.intents then Executed(w, [])
    else
      var o := Apply(w.intents[id], op, now);
      Executed(w.(intents := w.intents[id := o.intent], audit := w.audit + o.audit, ext := w.ext + o.ext),
               Appends(o.rows))
  }

  function ExecDeliver(w: World, a: Act): Executed
    requires a.Deliver?
  {
    if !Accepted(a) then Executed(w, [])
    else
      var rail := ParseRail(a.rail).value;
      var todo := Process(rail, a.body, a.pick, a.now);
      if a.body.eventId == "" then Executed(w, todo)
      else
        var key := WebhookKey(rail, a.body.eventId);
        if key in w.webhooks then Executed(w, [])
        else Executed(w.(webhooks := w.webhooks[key := WebhookRecord(rail, a.body.eventId, a.now, None)]),
                      todo + [MarkProcessed(key, a.now)])
  }

  function ExecDispute(w: World, rail: Rail, b: WebhookBody, stage: Stage, pick: string, now: Time): seq<Act> {
    if HasCase(ListFor(w.chargebacks, b.paymentId), b.caseRef) then
      [StageChargeback(b.caseRef, stage, pick, b.paymentId, now)]
      + (if stage.Reversal? then [Update(b.paymentId, ReverseChargeback(b.amount), now)] else [])
    else
      [AddChargeback(Chargeback(b.paymentId, b.amount, b.reason, stage, b.caseRef, now, now))]
      + (if stage.Opened? then [Update(b.paymentId, OpenChargeback(rail), now)] else [])
  }

  /** UpdateChargeback visits the lists in an unspecified order and changes the first match. */
  function UpdateChargeback(cbs: map<string, seq<Chargeback>>, caseRef: string, stage: Stage,
                            pick: string, fallback: string, now: Time): map<string, seq<Chargeback>>
  {
    var at := if HasCase(ListFor(cbs, pick), caseRef) then pick else fallback;
    if at in cbs then cbs[at := Restage(cbs[at], caseRef, stage, now)] else cbs
  }

  // --- one request after another ---------------------------------------------

  function Weight(acts: seq<Act>): nat {
    if acts == [] then 0
    else
      (match acts[0]
       case Deliver(_, _, _, _, _, _) => 6
       case Dispute(_, _, _, _, _) => 4
       case Post(_, _, _, _) => 4
       case Update(_, _, _) => 2
       case _ => 1)
      + Weight(acts[1..])
  }

  lemma {:induction false} WeightConcat(a: seq<Act>, b: seq<Act>)
    ensures Weight(a + b) == Weight(a) + Weight(b)
    decreases |a|
  {
    if a == [] {
      assert a + b == b;
    } else {
      assert (a + b)[1..] == a[1..] + b;
      WeightConcat(a[1..], b);
    }
  }

  lemma WeightOne(a: Act)
    ensures Weight([a]) == match a
      case Deliver(_, _, _, _, _, _) => 6
      case Dispute(_, _, _, _, _) => 4
      case Post(_, _, _, _) => 4
      case Update(_, _, _) => 2
      case _ => 1
  {
    assert [a][1..] == [];
  }

  /** An intent update decides at most one row, for the intent itself. */
  lemma ApplyRows(i: Intent, op: Op, now: Time)
    ensures |Apply(i, op, now).rows| <= 1
    ensures forall r <- Apply(i, op, now).rows :: r.intentId == i.id
  {
    hide ChallengeFailure, BreakDetail;
  }

  lemma CreateRows(req: CreateReq, id: string, env: CreateEnv, now: Time)
    requires ValidCreate(req)
    ensures var c := Create(req, id, env, now);
      && |c.rows| <= 1 && |c.late| == 1 && (forall r <- c.rows :: r.intentId == id)
      && (forall e <- c.early + c.late :: e.intentId == id)
  {
  }

  lemma ApplyEvents(i: Intent, op: Op, now: Time)
    ensures forall e <- Apply(i, op, now).audit :: e.intentId == i.id
  {
    hide ChallengeFailure, BreakDetail;
  }

  predicate CallsOf(ext: seq<ExtCall>, id: string) {
    forall c <- ext :: c.id == id
  }

  predicate NoRailMoney(ext: seq<ExtCall>) {
    forall c <- ext :: !c.RailCapture? && !c.RailRefund? && !c.RailSubmit?
  }

  /** The calls of a request concern its own intent. */
  lemma ApplyCalls(i: Intent, op: Op, now: Time)
    ensures CallsOf(Apply(i, op, now).ext, i.id)
    ensures !op.Capture? && !op.Refund? ==> NoRailMoney(Apply(i, op, now).ext)
  {
    if op.Challenge? {
      ChallengeCalls(i, op, now);
    }
  }

  lemma ChallengeCalls(i: Intent, op: Op, now: Time)
    requires op.Challenge?
    ensures CallsOf(Apply(i, op, now).ext, i.id) && NoRailMoney(Apply(i, op, now).ext)
  {
    ChallengeExt(i, op.window, op.resume, op.verify, op.authorize, now);
    FourCalls(i.id, true, true, true, true);
    FourCalls(i.id, true, true, true, false);
    FourCalls(i.id, true, true, false, false);
    FourCalls(i.id, true, false, false, false);
    FourCalls(i.id, false, false, false, false);
  }

  /** The calls of a challenge that got as far as its fourth call, with the given answers. */
  function Calls(id: string, w: bool, m: bool, v: bool, a: bool): seq<ExtCall> {
    [WindowCheck(id, w), MpiResume(id, m), RailVerify(id, v), RailAuthorize(id, a)]
  }

  lemma FourCalls(id: string, w: bool, m: bool, v: bool, a: bool)
    ensures var c := Calls(id, w, m, v, a);
      forall n :: 0 <= n <= 4 ==> CallsOf(c[..n], id) && NoRailMoney(c[..n])
  {
  }

  lemma ChallengeExt(i: Intent, window: int, resume: ResumeReply, verify: Reply, authorize: AuthReply, now: Time)
    ensures var e := ApplyChallenge(i, window, resume, verify, authorize, now).ext;
      || e == []
      || e == Calls(i.id, false, false, false, false)[..1]
      || e == Calls(i.id, true, false, false, false)[..2]
      || e == Calls(i.id, true, true, false, false)[..3]
      || e == Calls(i.id, true, true, true, false)[..4]
      || e == Calls(i.id, true, true, true, true)[..4]
  {
  }

  lemma CreateCalls(req: CreateReq, id: string, env: CreateEnv, now: Time)
    requires ValidCreate(req)
    ensures CallsOf(Create(req, id, env, now).ext, id)
  {
    var f := CreateFailure(Draft(req, id, now), env);
    assert f.Some? ==> CallsOf(f.value.ext, id);
  }

  /** Every action leaves less to do than it was: requests always finish. */
  lemma ExecShrinks(w: World, a: Act)
    ensures Weight(Exec(w, a).rest) < Weight([a])
  {
    WeightOne(a);
    var rest := Exec(w, a).rest;
    match a
    case Post(req, id, env, now) =>
      if ValidCreate(req) && id !in w.intents {
        CreateRows(req, id, env, now);
        var c := Create(req, id, env, now);
        WeightConcat(Appends(c.rows), Emits(c.late));
        assert Emits(c.late) == [Emit(c.late[0])];
        assert Appends(c.rows) == [] || Appends(c.rows) == [Append(c.rows[0])];
      }
    case Update(id, op, now) =>
      if id in w.intents {
        ApplyRows(w.intents[id], op, now);
        var rows := Apply(w.intents[id], op, now).rows;
        assert Appends(rows) == [] || Appends(rows) == [Append(rows[0])];
      }
    case Deliver(_, _, _, _, _, _) => DeliverShrinks(w, a);
    case Dispute(_, _, _, _, _) =>
      WeightConcat([rest[0]], rest[1..]);
      assert rest == [rest[0]] + rest[1..];
      if |rest| == 2 {
        assert rest[1..] == [rest[1]];
      } else {
        assert rest[1..] == [];
      }
    case _ =>
  }

  lemma DeliverShrinks(w: World, a: Act)
    requires a.Deliver?
    ensures Weight(ExecDeliver(w, a).rest) < 6
  {
    if Accepted(a) {
      var rail := ParseRail(a.rail).value;
      var todo := Process(rail, a.body, a.pick, a.now);
      assert todo == [] || (todo == [todo[0]] && !todo[0].Deliver?);
      assert Weight(todo) <= 4;
      var mark := [MarkProcessed(WebhookKey(rail, a.body.eventId), a.now)];
      WeightOne(mark[0]);
      WeightConcat(todo, mark);
    }
  }

  /** Running actions to completion, each with everything it leaves to do, before the next one. */
  function RunAll(w: World, acts: seq<Act>): World
    decreases Weight(acts)
  {
    if acts == [] then w
    else
      var e := Exec(w, acts[0]);
      ExecShrinks(w, acts[0]);
      WeightConcat(e.rest, acts[1..]);
      assert acts == [acts[0]] + acts[1..];
      WeightConcat([acts[0]], acts[1..]);
      RunAll(e.world, e.rest + acts[1..])
  }

  // --- interleavings ---------------------------------------------------------

  /** The store with the requests in flight: what each still has to do. */
  datatype System = System(world: World, tasks: seq<seq<Act>>)

  const START: System := System(EMPTY, [])

  /** A scheduling decision: a new request arrives, or a request takes its next action. */
  datatype Move = Arrive(request: Act) | Advance(task: nat)

  function Step(s: System, m: Move): System {
    match m
    case Arrive(a) => if IsRequest(a) then System(s.world, s.tasks + [[a]]) else s
    case Advance(t) =>
      if t < |s.tasks| && s.tasks[t] != [] then
        var e := Exec(s.world, s.tasks[t][0]);
        System(e.world, s.tasks[t := e.rest + s.tasks[t][1..]])
      else s
  }

  function Run(s: System, ms: seq<Move>): System {
    if ms == [] then s else Step(Run(s, ms[..|ms| - 1]), ms[|ms| - 1])
  }

  predicate AtRest(s: System) {
    forall t :: 0 <= t < |s.tasks| ==> s.tasks[t] == []
  }
}
