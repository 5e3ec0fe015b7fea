/** The handlers as methods on the in-memory store (internal/api/handlers.go), each proved to do to the
    store what the corresponding request does to a World. */
module Service {
  import opened Domain
  import opened Engine
  import opened Store
  import Numeric
  import TwoStores
  import Webhooks
  import W = World

  function Records(row: Option<Row>): seq<Row> {
    if row.Some? then [row.value] else []
  }

  /** The HTTP status of a payment endpoint. */
  function StatusOf(err: Option<Error>): int {
    match err
    case None => 200
    case Some(ErrNotFound) => 404
    case Some(ErrText(_)) => 502
    case Some(_) => 409
  }

  /** The error of an update. */
  function UpdateError(intents: map<string, Intent>, id: string, op: Op, now: Time): Option<Error> {
    if id !in intents then Some(ErrNotFound) else Apply(intents[id], op, now).err
  }

  /** The HTTP status of a webhook whose update ended like that: an unknown intent is none of the
      sender's business. */
  function Acknowledged(err: Option<Error>): int {
    if err.None? || err == Some(ErrNotFound) then 200 else 500
  }

  /** The HTTP status of a creation. */
  function CreateStatus(req: CreateReq, env: CreateEnv): int {
    if !ValidCreate(req) then 400
    else if req.threeDS then 201
    else
      match env.fraud
      case FraudErr(_) => 502
      case FraudBlock(_) => 403
      case FraudAllow =>
        if IsInstant(ParseRail(req.rail).value) then (if env.submit.SubmitOk? then 201 else 502)
        else if env.authorize.AuthOk? then 201 else 502
  }

  /** A creation is answered 201 if and only if it is valid and did not end in failed. */
  lemma CreatedExactly(req: CreateReq, id: string, env: CreateEnv, now: Time)
    ensures CreateStatus(req, env) == 201
       <==> ValidCreate(req) && !Create(req, id, env, now).intent.status.StatusFailed?
  {
  }

  /** The HTTP status of processing a webhook. */
  function ProcessStatus(w: W.World, rail: Rail, b: W.WebhookBody, now: Time): int {
    if b.paymentId == "" then 200
    else if b.typ == "settlement" then
      Acknowledged(UpdateError(w.intents, b.paymentId, Settle(rail, b.amount, b.railRef), now))
    else if b.typ == "chargeback" || b.stage != "" then
      var stage := W.ParseStage(b.stage);
      if stage.None? || b.caseRef == "" then 400 else DisputeStatus(w, rail, b, stage.value, now)
    else Acknowledged(UpdateError(w.intents, b.paymentId, Note(rail, b.typ), now))
  }

  function DisputeStatus(w: W.World, rail: Rail, b: W.WebhookBody, stage: W.Stage, now: Time): int {
    if W.HasCase(W.ListFor(w.chargebacks, b.paymentId), b.caseRef) then
      if stage.Reversal? then Acknowledged(UpdateError(w.intents, b.paymentId, ReverseChargeback(b.amount), now))
      else 200
    else if stage.Opened? then Acknowledged(UpdateError(w.intents, b.paymentId, OpenChargeback(rail), now))
    else 200
  }

  /** The HTTP status of a delivery. */
  function DeliverStatus(w: W.World, a: W.Act): int
    requires a.Deliver?
  {
    if ParseRail(a.rail).None? then 400
    else if !W.Accepted(a) then 401
    else
      var rail := ParseRail(a.rail).value;
      if a.body.eventId != "" && W.WebhookKey(rail, a.body.eventId) in w.webhooks then 200
      else ProcessStatus(w, rail, a.body, a.now)
  }

  /** Of the updates by webhooks only the opening of a chargeback can fail, and it does so exactly on a
      settled intent, which it leaves as it was. */
  lemma WebhookUpdatesFailExactly(i: Intent, op: Op, now: Time)
    requires op.Settle? || op.OpenChargeback? || op.ReverseChargeback? || op.Note?
    ensures Apply(i, op, now).err.Some? <==> op.OpenChargeback? && i.status.StatusSettled?
    ensures Apply(i, op, now).err.Some? ==> Apply(i, op, now).err == Some(ErrTerminalState)
    ensures Apply(i, op, now).err.Some? ==> Apply(i, op, now).intent == i
  {
  }

  /** The delivery opens a new case on the payment. */
  predicate OpensCase(w: W.World, b: W.WebhookBody) {
    && b.paymentId != "" && b.typ != "settlement" && (b.typ == "chargeback" || b.stage != "")
    && W.ParseStage(b.stage) == Some(W.Opened) && b.caseRef != ""
    && !W.HasCase(W.ListFor(w.chargebacks, b.paymentId), b.caseRef)
  }

  /** A delivery is answered 500 exactly when it passes the checks, is no duplicate, and opens a new case
      on a settled intent. */
  lemma DeliveryFailsExactly(w: W.World, a: W.Act)
    requires a.Deliver?
    ensures DeliverStatus(w, a) == 500
       <==> && W.Accepted(a)
            && !(a.body.eventId != "" && W.WebhookKey(ParseRail(a.rail).value, a.body.eventId) in w.webhooks)
            && OpensCase(w, a.body)
            && a.body.paymentId in w.intents && w.intents[a.body.paymentId].status.StatusSettled?
  {
    hide Apply, ParseRail, W.WebhookKey, W.Age;
    if a.body.paymentId in w.intents {
      var i, rail := w.intents[a.body.paymentId], ParseRail(a.rail);
      if rail.Some? {
        WebhookUpdatesFailExactly(i, Settle(rail.value, a.body.amount, a.body.railRef), a.now);
        WebhookUpdatesFailExactly(i, OpenChargeback(rail.value), a.now);
        WebhookUpdatesFailExactly(i, Note(rail.value, a.body.typ), a.now);
      }
      WebhookUpdatesFailExactly(i, ReverseChargeback(a.body.amount), a.now);
    }
  }

  /** When a payment endpoint reports a conflict. A capture never does, not even in the wrong state,
      where it reports a bad gateway; and a conflict does not mean that nothing happened: it is also
      the answer to a challenge that came too late, or for which the 3DS provider timed out, and failed
      the intent, and to a refund of a settled intent that the rail carried out. */
  lemma ConflictsExactly(i: Intent, op: Op, now: Time)
    requires op.Capture? || op.Void? || op.Refund? || op.Challenge?
    ensures StatusOf(Apply(i, op, now).err) == 409 <==> match op
      case Capture(_, _) => false
      case Void(_) => !i.status.StatusAuthorized?
      case Refund(_, _) => (!i.status.StatusCaptured? && !i.status.StatusSettled?) || TwoStores.LateRefund(i, op)
      case Challenge(window, resume, _, _) =>
        !i.status.Status3DSPending? || Expired(i.history, window, now) || resume.ResumeTimeout?
  {
    if op.Challenge? {
      ChallengeConflicts(i, op, now);
    } else if op.Refund? {
      RefundConflicts(i, op, now);
    }
  }

  lemma ChallengeConflicts(i: Intent, op: Op, now: Time)
    requires op.Challenge?
    ensures StatusOf(Apply(i, op, now).err) == 409
       <==> !i.status.Status3DSPending? || Expired(i.history, op.window, now) || op.resume.ResumeTimeout?
  {
  }

  /** An on-time challenge of a pending intent for which the provider times out: a conflict, and the
      intent has failed. */
  lemma ProviderTimeoutConflicts(i: Intent, window: int, verify: Reply, authorize: AuthReply, now: Time)
    requires i.status.Status3DSPending? && !Expired(i.history, window, now)
    ensures var o := Apply(i, Challenge(window, ResumeTimeout, verify, authorize), now);
      StatusOf(o.err) == 409 && o.intent.status.StatusFailed?
  {
  }

  lemma RefundConflicts(i: Intent, op: Op, now: Time)
    requires op.Refund?
    ensures StatusOf(Apply(i, op, now).err) == 409
       <==> (!i.status.StatusCaptured? && !i.status.StatusSettled?) || TwoStores.LateRefund(i, op)
  {
  }

  // --- running one request ---------------------------------------------------

  function WithRows(w: W.World, rows: seq<Row>): W.World
    requires |rows| <= 1
  {
    if rows == [] then w else W.AddRow(w, rows[0])
  }

  lemma UpdateRuns(w: W.World, id: string, op: Op, now: Time)
    requires id in w.intents
    ensures |Apply(w.intents[id], op, now).rows| <= 1
    ensures W.RunAll(w, [W.Update(id, op, now)])
         == WithRows(W.ExecUpdate(w, id, op, now).world, Apply(w.intents[id], op, now).rows)
  {
    W.ApplyRows(w.intents[id], op, now);
    var rows := Apply(w.intents[id], op, now).rows;
    RunHead(w, W.Update(id, op, now), []);
    if rows != [] {
      assert W.Appends(rows) == [W.Append(rows[0])];
      RunHead(W.ExecUpdate(w, id, op, now).world, W.Append(rows[0]), []);
    }
  }

  lemma RunHead(w: W.World, a: W.Act, more: seq<W.Act>)
    ensures W.RunAll(w, [a] + more) == W.RunAll(W.Exec(w, a).world, W.Exec(w, a).rest + more)
    ensures [a] + [] == [a] && W.Exec(w, a).rest + [] == W.Exec(w, a).rest
  {
    Webhooks.RunAllOne(w, a, more);
  }

  /** The store after a creation. */
  function Filed(w: W.World, c: Creation): W.World
    requires |c.rows| <= 1
  {
    var v := WithRows(w.(intents := w.intents[c.intent.id := c.intent], audit := w.audit + c.early,
                         ext := w.ext + c.ext), c.rows);
    v.(audit := v.audit + c.late)
  }

  lemma PostRuns(w: W.World, req: CreateReq, id: string, env: CreateEnv, now: Time)
    requires ValidCreate(req) && id !in w.intents
    ensures |Create(req, id, env, now).rows| <= 1
    ensures W.RunAll(w, [W.Post(req, id, env, now)]) == Filed(w, Create(req, id, env, now))
  {
    W.CreateRows(req, id, env, now);
    var c := Create(req, id, env, now);
    CreationRuns(W.ExecPost(w, req, id, env, now).world, c.rows, c.late[0]);
    assert W.Emits(c.late) == W.Emits([c.late[0]]);
    assert c.late == [c.late[0]];
    RunHead(w, W.Post(req, id, env, now), []);
    CreatedId(req, id, env, now);
  }

  lemma CreatedId(req: CreateReq, id: string, env: CreateEnv, now: Time)
    requires ValidCreate(req)
    ensures Create(req, id, env, now).intent.id == id
  {
  }

  lemma AppendRuns(w: W.World, row: Row, more: seq<W.Act>)
    ensures W.RunAll(w, [W.Append(row)] + more) == W.RunAll(W.AddRow(w, row), more)
  {
    RunHead(w, W.Append(row), more);
    assert [] + more == more;
  }

  lemma EmitRuns(w: W.World, e: AuditEvent)
    ensures W.RunAll(w, [W.Emit(e)]) == w.(audit := w.audit + [e])
  {
    RunHead(w, W.Emit(e), []);
  }

  lemma CreationRuns(w: W.World, rows: seq<Row>, e: AuditEvent)
    requires |rows| <= 1
    ensures W.RunAll(w, W.Appends(rows) + W.Emits([e]))
         == var v := WithRows(w, rows); v.(audit := v.audit + [e])
  {
    assert W.Emits([e]) == [W.Emit(e)];
    if rows == [] {
      assert W.Appends(rows) + [W.Emit(e)] == [W.Emit(e)];
      EmitRuns(w, e);
    } else {
      assert W.Appends(rows) == [W.Append(rows[0])];
      AppendRuns(w, rows[0], [W.Emit(e)]);
      EmitRuns(W.AddRow(w, rows[0]), e);
    }
  }

  /** What storing a failed creation amounts to. */
  lemma FailureFiled(w: W.World, req: CreateReq, id: string, env: CreateEnv, now: Time)
    requires ValidCreate(req) && !req.threeDS && CreateFailure(Draft(req, id, now), env).Some?
    ensures |Create(req, id, env, now).rows| <= 1
    ensures var f := CreateFailure(Draft(req, id, now), env).value;
      Filed(w, Create(req, id, env, now))
      == w.(intents := w.intents[id := Domain.Transition(Draft(req, id, now), StatusFailed, f.detail, now).intent],
            audit := w.audit + [AuditEvent(id, StatusIntent, StatusFailed, f.auditDetail, now)],
            ext := w.ext + f.ext)
  {
    assert w.audit + [] == w.audit;
  }

  lemma AuthorizedFiled(w: W.World, req: CreateReq, id: string, env: CreateEnv, now: Time)
    requires ValidCreate(req) && !req.threeDS && env.fraud.FraudAllow?
    requires !IsInstant(ParseRail(req.rail).value) && env.authorize.AuthOk?
    ensures |Create(req, id, env, now).rows| <= 1
    ensures var a := Draft(req, id, now).(externalId := ExternalId(env.authorize.ref, id));
      Filed(w, Create(req, id, env, now))
      == w.(intents := w.intents[id := Domain.Transition(a, StatusAuthorized, "authorized by rail", now).intent],
            audit := w.audit + [AuditEvent(id, StatusIntent, StatusAuthorized, "authorized", now)],
            ext := w.ext + [FraudScore(id, true), RailAuthorize(id, true)])
  {
    assert w.audit + [] == w.audit;
  }

  lemma InstantFiled(w: W.World, req: CreateReq, id: string, env: CreateEnv, now: Time)
    requires ValidCreate(req) && !req.threeDS && env.fraud.FraudAllow?
    requires IsInstant(ParseRail(req.rail).value) && env.submit.SubmitOk?
    ensures |Create(req, id, env, now).rows| <= 1
    ensures var i := Draft(req, id, now); var amount := SubmittedAmount(i, env.submit.settleAmount);
      Filed(w, Create(req, id, env, now))
      == Filed(w.(ext := w.ext + [FraudScore(id, true)]),
               CreateInstant(i, env.submit.ref, amount, now).(ext := [RailSubmit(id, true, amount)]))
  {
    var amount := SubmittedAmount(Draft(req, id, now), env.submit.settleAmount);
    assert (w.ext + [FraudScore(id, true)]) + [RailSubmit(id, true, amount)]
        == w.ext + [FraudScore(id, true), RailSubmit(id, true, amount)];
  }

  /** The steps of storing an instant creation. */
  lemma InstantSteps(w: W.World, i: Intent, ref: string, amount: Int64, now: Time)
    requires i.status.StatusIntent?
    ensures var c := CreateInstant(i, ref, amount, now); var submit := [RailSubmit(i.id, true, amount)];
      var kept := w.(intents := w.intents[i.id := c.intent], ext := w.ext + submit,
                     audit := w.audit + [AuditEvent(i.id, StatusIntent, StatusAuthorized, "instant authorize", now)]);
      var v := W.AddRow(kept, Row(CaptureRow, i.id, c.intent.captured, c.intent.externalId, now));
      Filed(w, c.(ext := submit))
      == v.(audit := v.audit + [AuditEvent(i.id, StatusAuthorized, StatusCaptured, "instant submit", now)])
  {
    hide W.AddRow;
  }

  lemma PendingFiled(w: W.World, req: CreateReq, id: string, env: CreateEnv, now: Time)
    requires ValidCreate(req) && req.threeDS
    ensures |Create(req, id, env, now).rows| <= 1
    ensures Filed(w, Create(req, id, env, now))
      == w.(intents := w.intents[id := Domain.Transition(Draft(req, id, now), Status3DSPending,
                                                         "3ds challenge required", now).intent],
            audit := w.audit + [AuditEvent(id, StatusIntent, Status3DSPending, "3ds required", now)])
  {
    assert w.audit + [] == w.audit && w.ext + [] == w.ext;
  }

  lemma PostRefused(w: W.World, req: CreateReq, id: string, env: CreateEnv, now: Time)
    requires !ValidCreate(req)
    ensures W.RunAll(w, [W.Post(req, id, env, now)]) == w
  {
    RunHead(w, W.Post(req, id, env, now), []);
  }

  lemma UpdateMisses(w: W.World, id: string, op: Op, now: Time)
    requires id !in w.intents
    ensures W.RunAll(w, [W.Update(id, op, now)]) == w
  {
    RunHead(w, W.Update(id, op, now), []);
  }

  lemma OpeningRuns(w: W.World, rail: Rail, b: W.WebhookBody, stage: W.Stage, pick: string, now: Time)
    requires !W.HasCase(W.ListFor(w.chargebacks, b.paymentId), b.caseRef)
    ensures W.RunAll(w, [W.Dispute(rail, b, stage, pick, now)])
         == var c := W.Chargeback(b.paymentId, b.amount, b.reason, stage, b.caseRef, now, now);
            var v := w.(chargebacks := W.Push(w.chargebacks, b.paymentId, c));
            if stage.Opened? then W.RunAll(v, [W.Update(b.paymentId, OpenChargeback(rail), now)]) else v
  {
    hide Apply, W.RunAll, W.Push, W.ExecPost, W.ExecUpdate, W.ExecDeliver;
    var c := W.Chargeback(b.paymentId, b.amount, b.reason, stage, b.caseRef, now, now);
    var v := w.(chargebacks := W.Push(w.chargebacks, b.paymentId, c));
    var more := if stage.Opened? then [W.Update(b.paymentId, OpenChargeback(rail), now)] else [];
    RunHead(w, W.Dispute(rail, b, stage, pick, now), []);
    AddExecutes(w, c);
    assert ([W.AddChargeback(c)] + more)[1..] == more;
    RunFirst(w, [W.AddChargeback(c)] + more, v);
    RunNothing(v);
  }

  lemma AddExecutes(w: W.World, c: W.Chargeback)
    ensures W.Exec(w, W.AddChargeback(c))
         == W.Executed(w.(chargebacks := W.Push(w.chargebacks, c.intentId, c)), [])
  {
    hide W.Push;
  }

  lemma StagingRuns(w: W.World, rail: Rail, b: W.WebhookBody, stage: W.Stage, pick: string, now: Time)
    requires W.HasCase(W.ListFor(w.chargebacks, b.paymentId), b.caseRef)
    ensures W.RunAll(w, [W.Dispute(rail, b, stage, pick, now)])
         == var cbs := W.UpdateChargeback(w.chargebacks, b.caseRef, stage, pick, b.paymentId, now);
            var v := w.(chargebacks := cbs);
            if stage.Reversal? then W.RunAll(v, [W.Update(b.paymentId, ReverseChargeback(b.amount), now)]) else v
  {
    hide Apply, W.RunAll, W.UpdateChargeback, W.ExecPost, W.ExecUpdate, W.ExecDeliver;
    var cbs := W.UpdateChargeback(w.chargebacks, b.caseRef, stage, pick, b.paymentId, now);
    var v := w.(chargebacks := cbs);
    var first := W.StageChargeback(b.caseRef, stage, pick, b.paymentId, now);
    var more := if stage.Reversal? then [W.Update(b.paymentId, ReverseChargeback(b.amount), now)] else [];
    RunHead(w, W.Dispute(rail, b, stage, pick, now), []);
    StageExecutes(w, b.caseRef, stage, pick, b.paymentId, now);
    assert ([first] + more)[1..] == more;
    RunFirst(w, [first] + more, v);
    RunNothing(v);
  }

  lemma StageExecutes(w: W.World, caseRef: string, stage: W.Stage, pick: string, id: string, now: Time)
    ensures W.Exec(w, W.StageChargeback(caseRef, stage, pick, id, now))
         == W.Executed(w.(chargebacks := W.UpdateChargeback(w.chargebacks, caseRef, stage, pick, id, now)), [])
  {
    hide W.UpdateChargeback;
  }

  lemma RunNothing(w: W.World)
    ensures W.RunAll(w, []) == w
  {
  }

  lemma RunFirst(w: W.World, acts: seq<W.Act>, v: W.World)
    requires acts != [] && W.Exec(w, acts[0]) == W.Executed(v, [])
    ensures W.RunAll(w, acts) == W.RunAll(v, acts[1..])
  {
    hide W.Exec, W.RunAll;
    assert acts == [acts[0]] + acts[1..];
    RunHead(w, acts[0], acts[1..]);
    assert [] + acts[1..] == acts[1..];
  }

  lemma DeliverRefused(w: W.World, a: W.Act)
    requires a.Deliver?
    ensures !W.Accepted(a) ==> W.RunAll(w, [a]) == w
  {
    RunHead(w, a, []);
  }

  /** The store after an accepted delivery. */
  function AfterDelivery(w: W.World, rail: Rail, body: W.WebhookBody, pick: string, now: Time): W.World {
    var todo := W.Process(rail, body, pick, now);
    if body.eventId == "" then W.RunAll(w, todo)
    else
      var key := W.WebhookKey(rail, body.eventId);
      if key in w.webhooks then w
      else
        var record := W.WebhookRecord(rail, body.eventId, now, None);
        W.Marked(W.RunAll(w.(webhooks := w.webhooks[key := record]), todo), key, now)
  }

  lemma DeliverAccepted(w: W.World, a: W.Act)
    requires a.Deliver? && W.Accepted(a)
    ensures W.RunAll(w, [a]) == AfterDelivery(w, ParseRail(a.rail).value, a.body, a.pick, a.now)
  {
    RunHead(w, a, []);
    var rail := ParseRail(a.rail).value;
    var key := W.WebhookKey(rail, a.body.eventId);
    if a.body.eventId != "" && key !in w.webhooks {
      MarkLast(W.ExecDeliver(w, a).world, W.Process(rail, a.body, a.pick, a.now), key, a.now);
    }
  }

  lemma MarkLast(w: W.World, todo: seq<W.Act>, key: string, now: Time)
    ensures W.RunAll(w, todo + [W.MarkProcessed(key, now)]) == W.Marked(W.RunAll(w, todo), key, now)
  {
    hide W.ExecPost, W.ExecUpdate, W.ExecDeliver;
    Webhooks.RunAllConcat(w, todo, [W.MarkProcessed(key, now)]);
    RunHead(W.RunAll(w, todo), W.MarkProcessed(key, now), []);
  }

  // --- the service -----------------------------------------------------------

  class Orchestrator {
    const store: MemStore
    const replayWindow: int
    var audit: seq<AuditEvent>
    var ext: seq<ExtCall>

    constructor (replayWindow: int)
      ensures fresh(store) && this.replayWindow == replayWindow && Valid() && Contents() == W.EMPTY
    {
      store := new MemStore();
      this.replayWindow := replayWindow;
      audit, ext := [], [];
    }

    ghost predicate Valid()
      reads this, store
    {
      store.Valid()
    }

    ghost function Contents(): W.World
      reads this, store, store.intents.Values
    {
      store.Contents(audit, ext)
    }

    method Emit(p: Payment, from: Status, to: Status, detail: string, now: Time)
      modifies this`audit
      ensures audit == old(audit) + [AuditEvent(p.id, from, to, detail, now)]
    {
      audit := audit + [AuditEvent(p.id, from, to, detail, now)];
    }

    method Call(c: ExtCall)
      modifies this`ext
      ensures ext == old(ext) + [c]
    {
      ext := ext + [c];
    }

    method Append(row: Row)
      modifies store
      ensures store.intents == old(store.intents)
      ensures Contents() == W.AddRow(old(Contents()), row)
    {
      store.AddRow(row);
    }

    /** The state after a callback, as the outcome on the old state says. */
    ghost predicate Did(p: Payment, err: Option<Error>, o: Outcome, audit0: seq<AuditEvent>, ext0: seq<ExtCall>)
      reads this, p
    {
      p.Value() == o.intent && err == o.err && audit == audit0 + o.audit && ext == ext0 + o.ext
    }

    // --- the callbacks -------------------------------------------------------

    method CaptureCallback(p: Payment, req: Option<Int64>, reply: Reply, now: Time)
      returns (err: Option<Error>, record: Option<Row>)
      modifies p, this`audit, this`ext
      ensures var o := ApplyCapture(old(p.Value()), req, reply, now);
        Did(p, err, o, old(audit), old(ext)) && Records(record) == o.rows
    {
      record := None;
      if !p.rail.Card? {
        return Some(ErrText("capture only supported for card rail")), None;
      }
      if !p.status.StatusAuthorized? {
        return Some(ErrText("intent not in authorized state")), None;
      }
      var amount := p.amount;
      if req.Some? {
        if req.value <= 0 {
          return Some(ErrText("capture amount must be positive")), None;
        }
        if req.value > Sub64(p.amount, p.captured) {
          return Some(ErrText("capture amount exceeds authorized amount")), None;
        }
        amount := req.value;
      }
      if Add64(p.captured, amount) > p.amount {
        return Some(ErrText("capture amount exceeds authorized amount")), None;
      }
      Call(RailCapture(p.id, reply.Ok?, amount));
      if reply.Err? {
        return Some(ErrText(reply.msg)), None;
      }
      p.captured := Add64(p.captured, amount);
      record := Some(Row(CaptureRow, p.id, amount, p.externalId, now));
      var prev := p.status;
      if p.captured >= p.amount {
        err := p.Transition(StatusCaptured, "captured", now);
        if err.None? {
          Emit(p, prev, StatusCaptured, "capture", now);
        }
      } else {
        p.AppendEvent(Entered(StatusCaptured), "partial capture", now);
        Emit(p, prev, prev, "partial capture", now);
        err := None;
      }
    }

    method VoidCallback(p: Payment, reply: Reply, now: Time) returns (err: Option<Error>)
      modifies p, this`audit, this`ext
      ensures var o := ApplyVoid(old(p.Value()), reply, now);
        Did(p, err, o, old(audit), old(ext)) && o.rows == []
    {
      if !p.status.StatusAuthorized? {
        return Some(ErrInvalidTransition);
      }
      Call(RailVoid(p.id, reply.Ok?));
      if reply.Err? {
        return Some(ErrText(reply.msg));
      }
      var prev := p.status;
      err := p.Transition(StatusVoided, "voided", now);
      if err.None? {
        Emit(p, prev, StatusVoided, "void", now);
      }
    }

    method RefundCallback(p: Payment, req: Option<Int64>, reply: Reply, now: Time)
      returns (err: Option<Error>, record: Option<Row>)
      modifies p, this`audit, this`ext
      ensures var o := ApplyRefund(old(p.Value()), req, reply, now);
        Did(p, err, o, old(audit), old(ext)) && Records(record) == o.rows
    {
      if !p.status.StatusCaptured? && !p.status.StatusSettled? {
        return Some(ErrInvalidTransition), None;
      }
      var amount := p.captured;
      if req.Some? {
        if req.value <= 0 {
          return Some(ErrText("refund amount must be positive")), None;
        }
        amount := req.value;
      }
      if Add64(p.refunded, amount) > p.captured {
        return Some(ErrText("refund amount exceeds captured amount")), None;
      }
      Call(RailRefund(p.id, reply.Ok?, amount));
      if reply.Err? {
        return Some(ErrText(reply.msg)), None;
      }
      p.refunded := Add64(p.refunded, amount);
      record := Some(Row(RefundRow, p.id, amount, p.externalId, now));
      var prev := p.status;
      err := p.Transition(StatusRefunding, "refund initiated", now);
      if err.Some? {
        return;
      }
      err := p.Transition(StatusRefunded, "refunded", now);
      if err.Some? {
        return;
      }
      Emit(p, prev, StatusRefunded, "refund", now);
    }

    /** Moves the intent to failed, and emits, whatever the transition says. */
    method Fail(p: Payment, detail: string, auditDetail: string, now: Time)
      modifies p, this`audit
      ensures p.Value() == Domain.Transition(old(p.Value()), StatusFailed, detail, now).intent
      ensures audit == old(audit) + [AuditEvent(p.id, old(p.status), StatusFailed, auditDetail, now)]
    {
      var prev := p.status;
      var ignored := p.Transition(StatusFailed, detail, now);
      Emit(p, prev, StatusFailed, auditDetail, now);
    }

    method ChallengeCallback(p: Payment, window: int, resume: ResumeReply, verify: Reply, authorize: AuthReply,
                             now: Time) returns (err: Option<Error>)
      modifies p, this`audit, this`ext
      ensures var o := ApplyChallenge(old(p.Value()), window, resume, verify, authorize, now);
        Did(p, err, o, old(audit), old(ext)) && o.rows == []
    {
      if !p.status.Status3DSPending? {
        return Some(ErrInvalidTransition);
      }
      var expired := Is3DSExpired(p.history, window, now);
      Call(WindowCheck(p.id, !expired));
      if expired {
        Fail(p, "3ds challenge timed out", "3ds timeout", now);
        return Some(ErrTimeout);
      }
      err := ChallengeOnTime(p, window, resume, verify, authorize, now);
    }

    /** The rest of a challenge whose window has been checked. */
    method ChallengeOnTime(p: Payment, window: int, resume: ResumeReply, verify: Reply, authorize: AuthReply,
                           now: Time) returns (err: Option<Error>)
      requires p.status.Status3DSPending? && !Expired(p.history, window, now)
      modifies p, this`audit, this`ext
      ensures var o := ApplyChallenge(old(p.Value()), window, resume, verify, authorize, now);
        && p.Value() == o.intent && err == o.err && audit == old(audit) + o.audit && o.rows == []
        && o.ext[..1] == [WindowCheck(p.id, true)] && ext == old(ext) + o.ext[1..]
    {
      Call(MpiResume(p.id, resume.ResumeOk?));
      if !resume.ResumeOk? {
        Fail(p, "3ds verification failed: " + ResumeText(resume), ResumeText(resume), now);
        return Some(ResumeError(resume));
      }
      Call(RailVerify(p.id, verify.Ok?));
      if verify.Err? {
        Fail(p, "3ds verification failed: " + verify.msg, verify.msg, now);
        return Some(ErrText(verify.msg));
      }
      Call(RailAuthorize(p.id, authorize.AuthOk?));
      if authorize.AuthErr? {
        Fail(p, "authorize failed after 3ds: " + authorize.msg, authorize.msg, now);
        return Some(ErrText(authorize.msg));
      }
      Grant(p, authorize.ref, now);
      err := None;
    }

    method Grant(p: Payment, ref: string, now: Time)
      requires p.status.Status3DSPending?
      modifies p, this`audit
      ensures p.Value() == Domain.Transition(old(p.Value()).(externalId := ExternalId(ref, p.id)),
                                             StatusAuthorized, "3ds verified, authorized", now).intent
      ensures audit == old(audit) + [AuditEvent(p.id, old(p.status), StatusAuthorized, "3ds verified", now)]
    {
      p.externalId := ExternalId(ref, p.id);
      var prev := p.status;
      var err := p.Transition(StatusAuthorized, "3ds verified, authorized", now);
      if err.None? {
        Emit(p, prev, StatusAuthorized, "3ds verified", now);
      }
    }

    method SettleCallback(p: Payment, rail: Rail, amount: Int64, ref: string, now: Time)
      returns (err: Option<Error>, record: Option<Row>)
      modifies p, this`audit
      ensures var o := ApplySettle(old(p.Value()), rail, amount, ref, now);
        Did(p, err, o, old(audit), old(ext)) && Records(record) == o.rows
    {
      if !p.status.StatusCaptured? {
        p.AppendEvent(EventWebhook, RailName(rail) + ":settlement (ignored)", now);
        return None, None;
      }
      p.settled := Add64(p.settled, amount);
      record := Some(Row(SettlementRow, p.id, amount, ref, now));
      var prev := p.status;
      err := p.Transition(StatusSettled, "settled via webhook", now);
      if err.Some? {
        return;
      }
      Emit(p, prev, StatusSettled, "settlement", now);
      if p.settled != p.captured {
        p.AppendEvent(EventReconciliation, "settled amount does not match captured amount", now);
        var captured := Numeric.Itoa(p.captured);
        var settled := Numeric.Itoa(p.settled);
        Emit(p, StatusSettled, StatusSettled,
             "reconciliation break: captured=" + captured + " settled=" + settled, now);
      }
    }

    method ChargebackCallback(p: Payment, rail: Rail, now: Time) returns (err: Option<Error>)
      modifies p, this`audit
      ensures var o := ApplyOpenChargeback(old(p.Value()), rail, now);
        Did(p, err, o, old(audit), old(ext)) && o.rows == []
    {
      if !p.status.StatusCaptured? && !p.status.StatusSettled? {
        p.AppendEvent(EventWebhook, RailName(rail) + ":chargeback (ignored)", now);
        return None;
      }
      var prev := p.status;
      err := p.Transition(StatusChargedBack, "chargeback opened", now);
      if err.None? {
        Emit(p, prev, StatusChargedBack, "chargeback opened", now);
      }
    }

    method ReverseCallback(p: Payment, amount: Int64, now: Time) returns (err: Option<Error>)
      modifies p, this`audit
      ensures var o := ApplyReverse(old(p.Value()), amount, now);
        Did(p, err, o, old(audit), old(ext)) && o.rows == []
    {
      if !p.status.StatusChargedBack? {
        return None;
      }
      var outcome, detail := StatusChargebackLost, "chargeback lost";
      if amount == 0 {
        outcome, detail := StatusChargebackWon, "chargeback won";
      }
      var prev := p.status;
      err := p.Transition(outcome, detail, now);
      if err.None? {
        Emit(p, prev, outcome, detail, now);
      }
    }

    method Callback(p: Payment, op: Op, now: Time) returns (err: Option<Error>, record: Option<Row>)
      modifies p, this`audit, this`ext
      ensures var o := Apply(old(p.Value()), op, now);
        Did(p, err, o, old(audit), old(ext)) && Records(record) == o.rows
    {
      record := None;
      match op
      case Capture(req, reply) => err, record := CaptureCallback(p, req, reply, now);
      case Void(reply) => err := VoidCallback(p, reply, now);
      case Refund(req, reply) => err, record := RefundCallback(p, req, reply, now);
      case Challenge(window, resume, verify, authorize) =>
        err := ChallengeCallback(p, window, resume, verify, authorize, now);
      case Settle(rail, amount, ref) => err, record := SettleCallback(p, rail, amount, ref, now);
      case OpenChargeback(rail) => err := ChargebackCallback(p, rail, now);
      case ReverseChargeback(amount) => err := ReverseCallback(p, amount, now);
      case Note(rail, what) =>
        p.AppendEvent(EventWebhook, RailName(rail) + ":" + what, now);
        err := None;
    }

    // --- UpdateIntent in the two stores --------------------------------------

    /** MemStore: the callback works on the stored record itself. */
    method UpdateIntent(id: string, op: Op, now: Time) returns (err: Option<Error>, record: Option<Row>)
      requires Valid()
      modifies this`audit, this`ext, store.intents.Values
      ensures Valid() && store.intents == old(store.intents)
      ensures Contents() == W.ExecUpdate(old(Contents()), id, op, now).world
      ensures if id !in store.intents then err == Some(ErrNotFound) && record.None?
        else
          var o := Apply(old(store.intents[id].Value()), op, now);
          err == o.err && Records(record) == o.rows
    {
      hide Apply;
      if id !in store.intents {
        return Some(ErrNotFound), None;
      }
      var p := store.intents[id];
      err, record := Callback(p, op, now);
      assert forall q <- store.intents :: q != id ==> store.intents[q].Value() == old(store.intents[q].Value());
      assert store.Values() == old(store.Values())[id := p.Value()];
    }

    /** Postgres: the callback works on a copy, which is written back only if it succeeds. */
    method UpdateIntentTx(db: Postgres, id: string, op: Op, now: Time)
      returns (err: Option<Error>, record: Option<Row>)
      modifies this`audit, this`ext, db
      ensures if id !in old(db.rows) then err == Some(ErrNotFound) && record.None? && db.rows == old(db.rows)
        else
          var o := TwoStores.ApplyTx(old(db.rows[id]), op, now);
          && db.rows == old(db.rows)[id := o.intent]
          && err == o.err && Records(record) == o.rows && audit == old(audit) + o.audit && ext == old(ext) + o.ext
    {
      if id !in db.rows {
        return Some(ErrNotFound), None;
      }
      var p := new Payment(db.rows[id]);
      err, record := Callback(p, op, now);
      if err.None? {
        db.rows := db.rows[id := p.Value()];
      }
    }

    // --- the payment endpoints -----------------------------------------------

    /** Capture, void, refund and challenge, and the updates by webhooks: the intent is updated, and then,
        without the lock, the row decided on is appended. */
    method Update(id: string, op: Op, now: Time) returns (err: Option<Error>)
      requires Valid()
      modifies this`audit, this`ext, store, store.intents.Values
      ensures Valid() && store.intents == old(store.intents)
      ensures Contents() == W.RunAll(old(Contents()), [W.Update(id, op, now)])
      ensures err == UpdateError(old(Contents()).intents, id, op, now)
    {
      ghost var w := Contents();
      var record;
      err, record := UpdateIntent(id, op, now);
      if record.Some? {
        Append(record.value);
      }
      if id in store.intents {
        UpdateRuns(w, id, op, now);
      } else {
        UpdateMisses(w, id, op, now);
      }
    }

    /** A payment endpoint: capture, void, refund or challenge. */
    method Endpoint(id: string, op: Op, now: Time) returns (status: int)
      requires Valid() && (op.Capture? || op.Void? || op.Refund? || op.Challenge?)
      modifies this`audit, this`ext, store, store.intents.Values
      ensures Valid()
      ensures Contents() == W.RunAll(old(Contents()), [W.Update(id, op, now)])
      ensures status == StatusOf(UpdateError(old(Contents()).intents, id, op, now))
    {
      var err := Update(id, op, now);
      return StatusOf(err);
    }

    // --- creating an intent --------------------------------------------------

    method CreateIntent(req: CreateReq, id: string, env: CreateEnv, now: Time) returns (status: int)
      requires Valid() && id !in store.intents
      modifies this`audit, this`ext, store
      ensures Valid()
      ensures Contents() == W.RunAll(old(Contents()), [W.Post(req, id, env, now)])
      ensures status == CreateStatus(req, env)
    {
      ghost var w := Contents();
      if !ValidCreate(req) {
        PostRefused(w, req, id, env, now);
        return 400;
      }
      PostRuns(w, req, id, env, now);
      var p := new Payment(Draft(req, id, now));
      if req.threeDS {
        KeepPending(p, now);
        PendingFiled(w, req, id, env, now);
        status := 201;
      } else {
        status := Score(p, req, id, env, now);
      }
    }

    method Keep(p: Payment)
      requires Valid() && p !in store.intents.Values
      modifies store`intents
      ensures Valid()
      ensures Contents() == var w := old(Contents()); w.(intents := w.intents[p.id := p.Value()])
    {
      store.CreateIntent(p);
    }

    method KeepPending(p: Payment, now: Time)
      requires Valid() && p !in store.intents.Values && p.status.StatusIntent?
      modifies this`audit, store`intents, p
      ensures Valid()
      ensures Contents() == var w := old(Contents());
        w.(intents := w.intents[p.id := Domain.Transition(old(p.Value()), Status3DSPending,
                                                          "3ds challenge required", now).intent],
           audit := w.audit + [AuditEvent(p.id, StatusIntent, Status3DSPending, "3ds required", now)])
    {
      ghost var w := Contents();
      var ignored := p.Transition(Status3DSPending, "3ds challenge required", now);
      assert Contents() == w;
      Keep(p);
      Emit(p, StatusIntent, Status3DSPending, "3ds required", now);
    }

    /** Moves a new intent to failed and stores it. */
    method KeepFailed(p: Payment, detail: string, auditDetail: string, now: Time)
      requires Valid() && p !in store.intents.Values && p.status.StatusIntent?
      modifies this`audit, store`intents, p
      ensures Valid()
      ensures Contents() == var w := old(Contents());
        w.(intents := w.intents[p.id := Domain.Transition(old(p.Value()), StatusFailed, detail, now).intent],
           audit := w.audit + [AuditEvent(p.id, StatusIntent, StatusFailed, auditDetail, now)])
    {
      ghost var w := Contents();
      var ignored := p.Transition(StatusFailed, detail, now);
      assert Contents() == w;
      Keep(p);
      Emit(p, StatusIntent, StatusFailed, auditDetail, now);
    }

    method KeepAuthorized(p: Payment, ref: string, now: Time)
      requires Valid() && p !in store.intents.Values && p.status.StatusIntent?
      modifies this`audit, store`intents, p
      ensures Valid()
      ensures Contents() == var w := old(Contents());
        var a := old(p.Value()).(externalId := ExternalId(ref, p.id));
        w.(intents := w.intents[p.id := Domain.Transition(a, StatusAuthorized, "authorized by rail", now).intent],
           audit := w.audit + [AuditEvent(p.id, StatusIntent, StatusAuthorized, "authorized", now)])
    {
      ghost var w := Contents();
      p.externalId := ExternalId(ref, p.id);
      var ignored := p.Transition(StatusAuthorized, "authorized by rail", now);
      assert Contents() == w;
      Keep(p);
      Emit(p, StatusIntent, StatusAuthorized, "authorized", now);
    }

    method KeepCaptured(p: Payment, ref: string, amount: Int64, now: Time)
      requires Valid() && p !in store.intents.Values && p.status.StatusIntent?
      modifies this`audit, store`intents, p
      ensures Valid()
      ensures p.Value() == CreateInstant(old(p.Value()), ref, amount, now).intent
      ensures Contents() == var w := old(Contents());
        w.(intents := w.intents[p.id := p.Value()],
           audit := w.audit + [AuditEvent(p.id, StatusIntent, StatusAuthorized, "instant authorize", now)])
    {
      ghost var values := store.Values();
      CaptureAtOnce(p, ref, amount, now);
      assert store.Values() == values;
      Keep(p);
    }

    method CaptureAtOnce(p: Payment, ref: string, amount: Int64, now: Time)
      requires p.status.StatusIntent?
      modifies this`audit, p
      ensures p.Value() == CreateInstant(old(p.Value()), ref, amount, now).intent
      ensures audit == old(audit) + [AuditEvent(p.id, StatusIntent, StatusAuthorized, "instant authorize", now)]
    {
      p.externalId, p.captured := ExternalId(ref, p.id), amount;
      var ignored := p.Transition(StatusAuthorized, "instant rail authorized via submit", now);
      Emit(p, StatusIntent, StatusAuthorized, "instant authorize", now);
      ignored := p.Transition(StatusCaptured, "instant rail captured via submit", now);
    }

    /** The fraud gate, and what comes after it. */
    method Score(p: Payment, req: CreateReq, id: string, env: CreateEnv, now: Time) returns (status: int)
      requires Valid() && p !in store.intents.Values
      requires ValidCreate(req) && !req.threeDS && p.Value() == Draft(req, id, now)
      modifies this`audit, this`ext, store, p
      ensures Valid() && |Create(req, id, env, now).rows| <= 1
      ensures Contents() == Filed(old(Contents()), Create(req, id, env, now))
      ensures status == CreateStatus(req, env)
    {
      ghost var w := Contents();
      Call(FraudScore(id, env.fraud.FraudAllow?));
      assert Contents() == w.(ext := w.ext + [FraudScore(id, env.fraud.FraudAllow?)]);
      if !env.fraud.FraudAllow? {
        status := Deny(p, req, id, env, now, w);
      } else if IsInstant(p.rail) {
        status := Submit(p, req, id, env, now, w);
      } else {
        status := Authorize(p, req, id, env, now, w);
      }
    }

    method Deny(p: Payment, req: CreateReq, id: string, env: CreateEnv, now: Time, ghost w: W.World)
      returns (status: int)
      requires Valid() && p !in store.intents.Values
      requires ValidCreate(req) && !req.threeDS && p.Value() == Draft(req, id, now)
      requires !env.fraud.FraudAllow?
      requires Contents() == w.(ext := w.ext + [FraudScore(id, false)])
      modifies this`audit, store`intents, p
      ensures Valid() && |Create(req, id, env, now).rows| <= 1
      ensures Contents() == Filed(w, Create(req, id, env, now))
      ensures status == CreateStatus(req, env)
    {
      FailureFiled(w, req, id, env, now);
      match env.fraud
      case FraudErr(m) =>
        KeepFailed(p, "fraud check failed: " + m, m, now);
        return 502;
      case FraudBlock(r) =>
        KeepFailed(p, "blocked by fraud: " + r, "fraud blocked", now);
        return 403;
    }

    method Authorize(p: Payment, req: CreateReq, id: string, env: CreateEnv, now: Time, ghost w: W.World)
      returns (status: int)
      requires Valid() && p !in store.intents.Values
      requires ValidCreate(req) && !req.threeDS && p.Value() == Draft(req, id, now)
      requires env.fraud.FraudAllow? && !IsInstant(p.rail)
      requires Contents() == w.(ext := w.ext + [FraudScore(id, true)])
      modifies this`audit, this`ext, store`intents, p
      ensures Valid() && |Create(req, id, env, now).rows| <= 1
      ensures Contents() == Filed(w, Create(req, id, env, now))
      ensures status == CreateStatus(req, env)
    {
      hide Create, Filed, Domain.Transition;
      Call(RailAuthorize(id, env.authorize.AuthOk?));
      match env.authorize
      case AuthErr(m) =>
        KeepFailed(p, "authorize failed: " + m, m, now);
        FailureFiled(w, req, id, env, now);
        assert (w.ext + [FraudScore(id, true)]) + [RailAuthorize(id, false)]
            == w.ext + [FraudScore(id, true), RailAuthorize(id, false)];
        return 502;
      case AuthOk(ref) =>
        KeepAuthorized(p, ref, now);
        AuthorizedFiled(w, req, id, env, now);
        assert (w.ext + [FraudScore(id, true)]) + [RailAuthorize(id, true)]
            == w.ext + [FraudScore(id, true), RailAuthorize(id, true)];
        return 201;
    }

    method Submit(p: Payment, req: CreateReq, id: string, env: CreateEnv, now: Time, ghost w: W.World)
      returns (status: int)
      requires Valid() && p !in store.intents.Values
      requires ValidCreate(req) && !req.threeDS && p.Value() == Draft(req, id, now)
      requires env.fraud.FraudAllow? && IsInstant(p.rail)
      requires Contents() == w.(ext := w.ext + [FraudScore(id, true)])
      modifies this`audit, this`ext, store, p
      ensures Valid() && |Create(req, id, env, now).rows| <= 1
      ensures Contents() == Filed(w, Create(req, id, env, now))
      ensures status == CreateStatus(req, env)
    {
      hide Create, Domain.Transition;
      match env.submit
      case SubmitErr(m) =>
        Call(RailSubmit(id, false, 0));
        KeepFailed(p, "submit failed: " + m, m, now);
        FailureFiled(w, req, id, env, now);
        assert (w.ext + [FraudScore(id, true)]) + [RailSubmit(id, false, 0)]
            == w.ext + [FraudScore(id, true), RailSubmit(id, false, 0)];
        return 502;
      case SubmitOk(ref, settleAmount) =>
        var amount := if settleAmount.Some? then settleAmount.value else p.amount;
        SubmitAccepted(p, ref, amount, now);
        InstantFiled(w, req, id, env, now);
        return 201;
    }

    method SubmitAccepted(p: Payment, ref: string, amount: Int64, now: Time)
      requires Valid() && p !in store.intents.Values && p.status.StatusIntent?
      modifies this`audit, this`ext, store, p
      ensures Valid()
      ensures var c := CreateInstant(old(p.Value()), ref, amount, now);
        Contents() == Filed(old(Contents()), c.(ext := [RailSubmit(p.id, true, amount)]))
    {
      hide W.AddRow, Filed, CreateInstant;
      InstantSteps(Contents(), p.Value(), ref, amount, now);
      Call(RailSubmit(p.id, true, amount));
      StoreCaptured(p, ref, amount, now);
    }

    method StoreCaptured(p: Payment, ref: string, amount: Int64, now: Time)
      requires Valid() && p !in store.intents.Values && p.status.StatusIntent?
      modifies this`audit, store, p
      ensures Valid()
      ensures Contents() == var w := old(Contents());
        var i := CreateInstant(old(p.Value()), ref, amount, now).intent;
        var kept := w.(intents := w.intents[p.id := i],
                       audit := w.audit + [AuditEvent(p.id, StatusIntent, StatusAuthorized, "instant authorize", now)]);
        var v := W.AddRow(kept, Row(CaptureRow, p.id, i.captured, i.externalId, now));
        v.(audit := v.audit + [AuditEvent(p.id, StatusAuthorized, StatusCaptured, "instant submit", now)])
    {
      hide W.AddRow, CreateInstant;
      KeepCaptured(p, ref, amount, now);
      Append(Row(CaptureRow, p.id, p.captured, p.externalId, now));
      Emit(p, StatusAuthorized, StatusCaptured, "instant submit", now);
    }

    // --- webhooks ------------------------------------------------------------

    /** `signed` says that a secret is configured for the rail and the signature matches. `pick` is the
        intent whose dispute was restaged, if any. */
    method Webhook(rail: string, body: W.WebhookBody, signed: bool, now: Time)
      returns (status: int, ghost pick: string)
      requires Valid()
      modifies this`audit, this`ext, store, store.intents.Values
      ensures Valid()
      ensures Contents() == W.RunAll(old(Contents()), [W.Deliver(rail, body, signed, replayWindow, pick, now)])
      ensures status == DeliverStatus(old(Contents()), W.Deliver(rail, body, signed, replayWindow, pick, now))
    {
      ghost var w := Contents();
      pick := "";
      DeliverRefused(w, W.Deliver(rail, body, signed, replayWindow, pick, now));
      var known := ParseRail(rail);
      if known.None? {
        return 400, pick;
      }
      if !signed {
        return 401, pick;
      }
      if body.timestamp != 0 {
        if W.Age(body.timestamp, now) > replayWindow {
          return 401, pick;
        }
      }
      status, pick := Accept(known.value, body, now);
      DeliverAccepted(w, W.Deliver(rail, body, signed, replayWindow, pick, now));
    }

    method Record(rail: Rail, eventId: string, now: Time) returns (duplicate: bool)
      requires Valid()
      modifies store`webhooks
      ensures Valid() && store.intents == old(store.intents)
      ensures duplicate <==> W.WebhookKey(rail, eventId) in old(store.webhooks)
      ensures Contents() == var w := old(Contents());
        if duplicate then w
        else w.(webhooks := w.webhooks[W.WebhookKey(rail, eventId) := W.WebhookRecord(rail, eventId, now, None)])
    {
      duplicate := store.RecordWebhook(rail, eventId, now);
    }

    method Mark(rail: Rail, eventId: string, now: Time)
      requires Valid()
      modifies store`webhooks
      ensures Valid() && store.intents == old(store.intents)
      ensures Contents() == W.Marked(old(Contents()), W.WebhookKey(rail, eventId), now)
    {
      store.MarkWebhookProcessed(rail, eventId, now);
    }

    /** A delivery that has passed the checks. */
    method Accept(rail: Rail, body: W.WebhookBody, now: Time) returns (status: int, ghost pick: string)
      requires Valid()
      modifies this`audit, this`ext, store, store.intents.Values
      ensures Valid()
      ensures Contents() == AfterDelivery(old(Contents()), rail, body, pick, now)
      ensures status == if body.eventId != "" && W.WebhookKey(rail, body.eventId) in old(store.webhooks) then 200
        else ProcessStatus(old(Contents()), rail, body, now)
    {
      hide W.RunAll, W.Process;
      if body.eventId == "" {
        status, pick := Process(rail, body, now);
        return;
      }
      var duplicate := Record(rail, body.eventId, now);
      if duplicate {
        return 200, "";
      }
      status, pick := Process(rail, body, now);
      Mark(rail, body.eventId, now);
    }

    method Process(rail: Rail, body: W.WebhookBody, now: Time) returns (status: int, ghost pick: string)
      requires Valid()
      modifies this`audit, this`ext, store, store.intents.Values
      ensures Valid()
      ensures Contents() == W.RunAll(old(Contents()), W.Process(rail, body, pick, now))
      ensures status == ProcessStatus(old(Contents()), rail, body, now)
    {
      pick := "";
      if body.paymentId == "" {
        return 200, pick;
      }
      if body.typ == "settlement" {
        var err := Update(body.paymentId, Settle(rail, body.amount, body.railRef), now);
        return Acknowledged(err), pick;
      }
      if body.typ == "chargeback" || body.stage != "" {
        var stage := W.ParseStage(body.stage);
        if stage.None? || body.caseRef == "" {
          return 400, pick;
        }
        status, pick := Dispute(rail, body, stage.value, now);
        return;
      }
      var err := Update(body.paymentId, Note(rail, body.typ), now);
      return Acknowledged(err), pick;
    }

    method Dispute(rail: Rail, body: W.WebhookBody, stage: W.Stage, now: Time)
      returns (status: int, ghost pick: string)
      requires Valid()
      modifies this`audit, this`ext, store, store.intents.Values
      ensures Valid()
      ensures Contents() == W.RunAll(old(Contents()), [W.Dispute(rail, body, stage, pick, now)])
      ensures status == DisputeStatus(old(Contents()), rail, body, stage, now)
    {
      var known := KnownCase(body.paymentId, body.caseRef);
      if known {
        status, pick := ProgressDispute(rail, body, stage, now);
      } else {
        status := OpenDispute(rail, body, stage, now);
        pick := "";
      }
    }

    method KnownCase(id: string, caseRef: string) returns (known: bool)
      ensures known == W.HasCase(W.ListFor(store.chargebacks, id), caseRef)
    {
      var list := W.ListFor(store.chargebacks, id);
      for k := 0 to |list|
        invariant forall j :: 0 <= j < k ==> list[j].caseRef != caseRef
      {
        if list[k].caseRef == caseRef {
          return true;
        }
      }
      return false;
    }

    method FileChargeback(c: W.Chargeback)
      requires Valid()
      modifies store`chargebacks
      ensures Valid() && store.intents == old(store.intents)
      ensures Contents() == var w := old(Contents()); w.(chargebacks := W.Push(w.chargebacks, c.intentId, c))
    {
      store.AddChargeback(c);
    }

    method OpenDispute(rail: Rail, body: W.WebhookBody, stage: W.Stage, now: Time) returns (status: int)
      requires Valid() && !W.HasCase(W.ListFor(store.chargebacks, body.paymentId), body.caseRef)
      modifies this`audit, this`ext, store, store.intents.Values
      ensures Valid()
      ensures Contents() == W.RunAll(old(Contents()), [W.Dispute(rail, body, stage, "", now)])
      ensures status == DisputeStatus(old(Contents()), rail, body, stage, now)
    {
      OpeningRuns(Contents(), rail, body, stage, "", now);
      FileChargeback(W.Chargeback(body.paymentId, body.amount, body.reason, stage, body.caseRef, now, now));
      status := 200;
      if stage.Opened? {
        var err := Update(body.paymentId, OpenChargeback(rail), now);
        status := Acknowledged(err);
      }
    }

    method Restage(caseRef: string, stage: W.Stage, now: Time, ghost id: string) returns (ghost pick: string)
      requires Valid() && W.HasCase(W.ListFor(store.chargebacks, id), caseRef)
      modifies store`chargebacks
      ensures Valid() && store.intents == old(store.intents)
      ensures Contents() == var w := old(Contents());
        w.(chargebacks := W.UpdateChargeback(w.chargebacks, caseRef, stage, pick, id, now))
    {
      var at := store.UpdateChargeback(caseRef, stage, now);
      pick := at.value;
    }

    method ProgressDispute(rail: Rail, body: W.WebhookBody, stage: W.Stage, now: Time)
      returns (status: int, ghost pick: string)
      requires Valid() && W.HasCase(W.ListFor(store.chargebacks, body.paymentId), body.caseRef)
      modifies this`audit, this`ext, store, store.intents.Values
      ensures Valid()
      ensures Contents() == W.RunAll(old(Contents()), [W.Dispute(rail, body, stage, pick, now)])
      ensures status == DisputeStatus(old(Contents()), rail, body, stage, now)
    {
      ghost var w := Contents();
      pick := Restage(body.caseRef, stage, now, body.paymentId);
      StagingRuns(w, rail, body, stage, pick, now);
      status := 200;
      if stage.Reversal? {
        var err := Update(body.paymentId, ReverseChargeback(body.amount), now);
        status := Acknowledged(err);
      }
    }
  }
}
