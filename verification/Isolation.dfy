/** Payments do not interfere: what a payment ends up with depends only on the requests naming it,
    provided no two payments share a webhook event or a case reference. */
module Isolation {
  import opened Domain
  import opened Engine
  import opened Tally
  import R = Runs
  import opened Webhooks
  import W = World

  // --- who an action is about ------------------------------------------------

  /** Which payment a webhook key and a case reference belong to. */
  datatype Owners = Owners(ofKey: string -> string, ofCase: string -> string)

  function Names(a: W.Act, o: Owners): string {
    match a
    case Post(_, id, _, _) => id
    case Update(id, _, _) => id
    case Append(row) => row.intentId
    case Emit(e) => e.intentId
    case Deliver(_, b, _, _, _, _) => b.paymentId
    case Dispute(_, b, _, _, _) => b.paymentId
    case AddChargeback(c) => c.intentId
    case StageChargeback(_, _, _, fallback, _) => fallback
    case MarkProcessed(key, _) => o.ofKey(key)
  }

  function Naming(p: string, o: Owners): W.Act -> bool {
    (a: W.Act) => Names(a, o) == p
  }

  /** The action uses event keys and case references of the payment it names. */
  predicate Owned(a: W.Act, o: Owners) {
    match a
    case Deliver(rail, b, _, _, _, _) =>
      && (Identified(a) ==> o.ofKey(W.WebhookKey(EventOf(a).0, EventOf(a).1)) == b.paymentId)
      && (b.caseRef != "" ==> o.ofCase(b.caseRef) == b.paymentId)
    case Dispute(_, b, _, _, _) => o.ofCase(b.caseRef) == b.paymentId
    case AddChargeback(c) => o.ofCase(c.caseRef) == c.intentId
    case StageChargeback(caseRef, _, _, fallback, _) => o.ofCase(caseRef) == fallback
    case _ => true
  }

  ghost predicate Tidy(w: W.World, o: Owners) {
    && R.Keyed(w)
    && forall id, c <- W.ListFor(w.chargebacks, id) :: o.ofCase(c.caseRef) == id
  }

  // --- what a payment sees of the state --------------------------------------

  function About(p: string): AuditEvent -> bool {
    (e: AuditEvent) => e.intentId == p
  }

  function Calling(p: string): ExtCall -> bool {
    (c: ExtCall) => c.id == p
  }

  /** The intent, rows, chargebacks, audit events and calls of one payment. */
  datatype Payment = Payment(
    intent: Option<Intent>,
    captures: seq<Row>,
    refunds: seq<Row>,
    settlements: seq<Row>,
    chargebacks: seq<W.Chargeback>,
    events: seq<AuditEvent>,
    calls: seq<ExtCall>)

  function View(w: W.World, p: string): Payment {
    Payment(
      if p in w.intents then Some(w.intents[p]) else None,
      W.ListFor(w.captures, p),
      W.ListFor(w.refunds, p),
      W.ListFor(w.settlements, p),
      W.ListFor(w.chargebacks, p),
      Keep(w.audit, About(p)),
      Keep(w.ext, Calling(p)))
  }

  ghost predicate SameKeys(w: W.World, v: W.World, p: string, o: Owners) {
    forall key :: o.ofKey(key) == p ==> (key in w.webhooks <==> key in v.webhooks)
  }

  ghost predicate Simulates(w: W.World, v: W.World, p: string, o: Owners) {
    Tidy(w, o) && Tidy(v, o) && View(w, p) == View(v, p) && SameKeys(w, v, p, o)
  }

  // --- the view after each change of the state -------------------------------

  lemma PushList<T>(m: map<string, seq<T>>, id: string, x: T, p: string)
    ensures W.ListFor(W.Push(m, id, x), p) == if p == id then W.ListFor(m, p) + [x] else W.ListFor(m, p)
  {
  }

  lemma ViewAfterRow(w: W.World, r: Row, p: string)
    ensures View(W.AddRow(w, r), p)
         == if r.intentId != p then View(w, p)
            else match r.kind
              case CaptureRow => View(w, p).(captures := View(w, p).captures + [r])
              case RefundRow => View(w, p).(refunds := View(w, p).refunds + [r])
              case SettlementRow => View(w, p).(settlements := View(w, p).settlements + [r])
  {
    hide W.Push, W.ListFor, Keep;
    match r.kind
    case CaptureRow => PushList(w.captures, r.intentId, r, p);
    case RefundRow => PushList(w.refunds, r.intentId, r, p);
    case SettlementRow => PushList(w.settlements, r.intentId, r, p);
  }

  function Changed(w: W.World, id: string, i: Intent, audit: seq<AuditEvent>, ext: seq<ExtCall>): W.World {
    w.(intents := w.intents[id := i], audit := w.audit + audit, ext := w.ext + ext)
  }

  lemma ViewAfterChange(w: W.World, id: string, i: Intent, audit: seq<AuditEvent>, ext: seq<ExtCall>, p: string)
    requires (forall e <- audit :: e.intentId == id) && W.CallsOf(ext, id)
    ensures View(Changed(w, id, i, audit, ext), p)
         == if id != p then View(w, p)
            else View(w, p).(intent := Some(i), events := View(w, p).events + audit,
                             calls := View(w, p).calls + ext)
  {
    KeepConcat(w.audit, audit, About(p));
    KeepConcat(w.ext, ext, Calling(p));
    if id == p {
      KeepAll(audit, About(p));
      KeepAll(ext, Calling(p));
    } else {
      KeepNone(audit, About(p));
      KeepNone(ext, Calling(p));
    }
  }

  lemma ViewAfterEmit(w: W.World, e: AuditEvent, p: string)
    ensures View(w.(audit := w.audit + [e]), p)
         == if e.intentId != p then View(w, p) else View(w, p).(events := View(w, p).events + [e])
  {
    KeepConcat(w.audit, [e], About(p));
  }

  function WithCases(w: W.World, id: string, cs: seq<W.Chargeback>): W.World {
    w.(chargebacks := w.chargebacks[id := cs])
  }

  lemma ViewAfterCases(w: W.World, id: string, cs: seq<W.Chargeback>, p: string)
    ensures View(WithCases(w, id, cs), p)
         == if id != p then View(w, p) else View(w, p).(chargebacks := cs)
  {
  }

  lemma ViewIgnoresWebhooks(w: W.World, m: map<string, W.WebhookRecord>, p: string)
    ensures View(w.(webhooks := m), p) == View(w, p)
  {
  }

  // --- one action ------------------------------------------------------------

  /** The action of someone else: the payment's view stays, and so does everyone's interest. */
  ghost predicate Foreign(w: W.World, e: W.Executed, p: string, o: Owners) {
    && View(e.world, p) == View(w, p)
    && SameKeys(e.world, w, p, o)
    && forall b <- e.rest :: Names(b, o) != p
  }

  /** An action of the payment itself, in two states that look alike to it. */
  ghost predicate Own(e: W.Executed, f: W.Executed, p: string, o: Owners) {
    && e.rest == f.rest
    && View(e.world, p) == View(f.world, p)
    && SameKeys(e.world, f.world, p, o)
    && forall b <- e.rest :: Names(b, o) == p
  }

  lemma ExecForeign(w: W.World, a: W.Act, p: string, o: Owners)
    requires Tidy(w, o) && Owned(a, o) && Names(a, o) != p
    ensures Foreign(w, W.Exec(w, a), p, o)
  {
    match a
    case Post(_, _, _, _) => ForeignPost(w, a, p, o);
    case Update(_, _, _) => ForeignUpdate(w, a, p, o);
    case Append(row) => ForeignAppend(w, row, p, o);
    case Emit(e) => ViewAfterEmit(w, e, p);
    case Deliver(_, _, _, _, _, _) => ForeignDelivery(w, a, p, o);
    case Dispute(_, _, _, _, _) => ForeignDispute(w, a, p, o);
    case AddChargeback(c) =>
      ViewAfterCases(w, c.intentId, W.ListFor(w.chargebacks, c.intentId) + [c], p);
    case StageChargeback(_, _, _, _, _) => ForeignStage(w, a, p, o);
    case MarkProcessed(key, now) =>
      ViewIgnoresWebhooks(w, W.Marked(w, key, now).webhooks, p);
  }

  lemma ExecOwn(w: W.World, v: W.World, a: W.Act, p: string, o: Owners)
    requires Simulates(w, v, p, o) && Owned(a, o) && Names(a, o) == p
    ensures Own(W.Exec(w, a), W.Exec(v, a), p, o)
  {
    match a
    case Post(_, _, _, _) => OwnPost(w, v, a, p, o);
    case Update(_, _, _) => OwnUpdate(w, v, a, p, o);
    case Append(row) => OwnAppend(w, v, row, p, o);
    case Emit(e) => OwnEmit(w, v, e, p, o);
    case Deliver(_, _, _, _, _, _) => OwnDelivery(w, v, a, p, o);
    case Dispute(_, _, _, _, _) => OwnDispute(w, v, a, p, o);
    case AddChargeback(c) => OwnAdd(w, v, c, p, o);
    case StageChargeback(_, _, _, _, _) => OwnStage(w, v, a, p, o);
    case MarkProcessed(key, now) => OwnMark(w, v, a, p, o);
  }

  predicate CreationOf(c: Creation, id: string) {
    && (forall r <- c.rows :: r.intentId == id)
    && (forall e <- c.early :: e.intentId == id)
    && (forall e <- c.late :: e.intentId == id)
    && W.CallsOf(c.ext, id)
  }

  lemma CreateOwn(req: CreateReq, id: string, env: CreateEnv, now: Time)
    requires ValidCreate(req)
    ensures CreationOf(Create(req, id, env, now), id)
  {
    W.CreateRows(req, id, env, now);
    W.CreateCalls(req, id, env, now);
    var c := Create(req, id, env, now);
    assert forall e <- c.early :: e in c.early + c.late;
    assert forall e <- c.late :: e in c.early + c.late;
  }

  function Stored(w: W.World, id: string, c: Creation): W.Executed {
    W.Executed(Changed(w, id, c.intent, c.early, c.ext), W.Appends(c.rows) + W.Emits(c.late))
  }

  lemma ForeignPost(w: W.World, a: W.Act, p: string, o: Owners)
    requires a.Post? && a.id != p
    ensures Foreign(w, W.ExecPost(w, a.req, a.id, a.env, a.now), p, o)
  {
    if ValidCreate(a.req) && a.id !in w.intents {
      CreateOwn(a.req, a.id, a.env, a.now);
      ForeignCreation(w, a.id, Create(a.req, a.id, a.env, a.now), p, o);
    }
  }

  lemma ForeignCreation(w: W.World, id: string, c: Creation, p: string, o: Owners)
    requires id != p && CreationOf(c, id)
    ensures Foreign(w, Stored(w, id, c), p, o)
  {
    ViewAfterChange(w, id, c.intent, c.early, c.ext, p);
  }

  lemma OwnPost(w: W.World, v: W.World, a: W.Act, p: string, o: Owners)
    requires Simulates(w, v, p, o) && a.Post? && a.id == p
    ensures Own(W.ExecPost(w, a.req, a.id, a.env, a.now), W.ExecPost(v, a.req, a.id, a.env, a.now), p, o)
  {
    assert p in w.intents <==> View(w, p).intent.Some?;
    assert p in v.intents <==> View(v, p).intent.Some?;
    if ValidCreate(a.req) && p !in w.intents {
      CreateOwn(a.req, p, a.env, a.now);
      OwnCreation(w, v, p, Create(a.req, p, a.env, a.now), o);
    }
  }

  lemma OwnCreation(w: W.World, v: W.World, p: string, c: Creation, o: Owners)
    requires Simulates(w, v, p, o) && CreationOf(c, p)
    ensures Own(Stored(w, p, c), Stored(v, p, c), p, o)
  {
    ViewAfterChange(w, p, c.intent, c.early, c.ext, p);
    ViewAfterChange(v, p, c.intent, c.early, c.ext, p);
  }

  lemma ForeignUpdate(w: W.World, a: W.Act, p: string, o: Owners)
    requires R.Keyed(w) && a.Update? && a.id != p
    ensures Foreign(w, W.ExecUpdate(w, a.id, a.op, a.now), p, o)
  {
    if a.id in w.intents {
      var u := Apply(w.intents[a.id], a.op, a.now);
      ApplyOwn(w.intents[a.id], a.op, a.now);
      ViewAfterChange(w, a.id, u.intent, u.audit, u.ext, p);
    }
  }

  lemma OwnUpdate(w: W.World, v: W.World, a: W.Act, p: string, o: Owners)
    requires Simulates(w, v, p, o) && a.Update? && a.id == p
    ensures Own(W.ExecUpdate(w, a.id, a.op, a.now),
                W.ExecUpdate(v, a.id, a.op, a.now), p, o)
  {
    assert View(w, p).intent == View(v, p).intent;
    if p in w.intents {
      var u := Apply(w.intents[p], a.op, a.now);
      ApplyOwn(w.intents[p], a.op, a.now);
      ViewAfterChange(w, p, u.intent, u.audit, u.ext, p);
      ViewAfterChange(v, p, u.intent, u.audit, u.ext, p);
    }
  }

  /** Rows, events and calls of a request are those of its intent. */
  lemma ApplyOwn(i: Intent, op: Op, now: Time)
    ensures forall r <- Apply(i, op, now).rows :: r.intentId == i.id
    ensures forall e <- Apply(i, op, now).audit :: e.intentId == i.id
    ensures W.CallsOf(Apply(i, op, now).ext, i.id)
  {
    W.ApplyRows(i, op, now);
    W.ApplyCalls(i, op, now);
    W.ApplyEvents(i, op, now);
  }

  lemma ForeignAppend(w: W.World, r: Row, p: string, o: Owners)
    requires r.intentId != p
    ensures Foreign(w, W.Executed(W.AddRow(w, r), []), p, o)
  {
    hide View, W.AddRow;
    ViewAfterRow(w, r, p);
    W.RowKeepsRest(w, r);
  }

  lemma OwnAppend(w: W.World, v: W.World, r: Row, p: string, o: Owners)
    requires Simulates(w, v, p, o)
    ensures Own(W.Executed(W.AddRow(w, r), []), W.Executed(W.AddRow(v, r), []), p, o)
  {
    hide View, W.AddRow;
    ViewAfterRow(w, r, p);
    ViewAfterRow(v, r, p);
    W.RowKeepsRest(w, r);
    W.RowKeepsRest(v, r);
  }

  lemma OwnEmit(w: W.World, v: W.World, e: AuditEvent, p: string, o: Owners)
    requires Simulates(w, v, p, o)
    ensures Own(W.Executed(w.(audit := w.audit + [e]), []), W.Executed(v.(audit := v.audit + [e]), []), p, o)
  {
    ViewAfterEmit(w, e, p);
    ViewAfterEmit(v, e, p);
  }

  lemma ForeignDelivery(w: W.World, a: W.Act, p: string, o: Owners)
    requires a.Deliver? && Owned(a, o) && Names(a, o) != p
    ensures Foreign(w, W.ExecDeliver(w, a), p, o)
  {
    var e := W.ExecDeliver(w, a);
    ViewIgnoresWebhooks(w, e.world.webhooks, p);
    assert e.world == w.(webhooks := e.world.webhooks);
    if W.Accepted(a) {
      ProcessNames(ParseRail(a.rail).value, a.body, a.pick, a.now, o);
    }
  }

  lemma OwnDelivery(w: W.World, v: W.World, a: W.Act, p: string, o: Owners)
    requires a.Deliver? && Owned(a, o) && Names(a, o) == p && Simulates(w, v, p, o)
    ensures Own(W.ExecDeliver(w, a), W.ExecDeliver(v, a), p, o)
  {
    hide View, ParseRail, W.Process, W.Age, W.WebhookKey;
    if W.Accepted(a) {
      var rail := ParseRail(a.rail).value;
      ProcessNames(rail, a.body, a.pick, a.now, o);
      var key := W.WebhookKey(rail, a.body.eventId);
      if a.body.eventId != "" && key !in w.webhooks {
        var record := W.WebhookRecord(rail, a.body.eventId, a.now, None);
        ViewIgnoresWebhooks(w, w.webhooks[key := record], p);
        ViewIgnoresWebhooks(v, v.webhooks[key := record], p);
      }
    }
  }

  lemma ProcessNames(rail: Rail, b: W.WebhookBody, pick: string, now: Time, o: Owners)
    ensures forall c <- W.Process(rail, b, pick, now) :: Names(c, o) == b.paymentId
  {
  }

  lemma DisputeNames(w: W.World, a: W.Act, o: Owners)
    requires a.Dispute?
    ensures W.Exec(w, a).world == w
    ensures forall c <- W.Exec(w, a).rest :: Names(c, o) == a.body.paymentId
  {
  }

  lemma ForeignDispute(w: W.World, a: W.Act, p: string, o: Owners)
    requires a.Dispute? && Names(a, o) != p
    ensures Foreign(w, W.Exec(w, a), p, o)
  {
    DisputeNames(w, a, o);
  }

  lemma OwnDispute(w: W.World, v: W.World, a: W.Act, p: string, o: Owners)
    requires a.Dispute? && Names(a, o) == p && Simulates(w, v, p, o)
    ensures Own(W.Exec(w, a), W.Exec(v, a), p, o)
  {
    DisputeNames(w, a, o);
    DisputeNames(v, a, o);
    assert W.ListFor(w.chargebacks, p) == View(w, p).chargebacks == W.ListFor(v.chargebacks, p);
  }

  lemma OwnAdd(w: W.World, v: W.World, c: W.Chargeback, p: string, o: Owners)
    requires Simulates(w, v, p, o) && c.intentId == p
    ensures Own(W.Exec(w, W.AddChargeback(c)), W.Exec(v, W.AddChargeback(c)), p, o)
  {
    assert W.ListFor(w.chargebacks, p) == View(w, p).chargebacks == W.ListFor(v.chargebacks, p);
    var cs := W.ListFor(w.chargebacks, p) + [c];
    ViewAfterCases(w, p, cs, p);
    ViewAfterCases(v, p, cs, p);
    assert W.Exec(w, W.AddChargeback(c)).world == WithCases(w, p, cs);
    assert W.Exec(v, W.AddChargeback(c)).world == WithCases(v, p, cs);
  }

  lemma OwnMark(w: W.World, v: W.World, a: W.Act, p: string, o: Owners)
    requires a.MarkProcessed? && Names(a, o) == p && Simulates(w, v, p, o)
    ensures Own(W.Executed(W.Marked(w, a.key, a.now), []), W.Executed(W.Marked(v, a.key, a.now), []), p, o)
  {
    hide View;
    ViewIgnoresWebhooks(w, W.Marked(w, a.key, a.now).webhooks, p);
    ViewIgnoresWebhooks(v, W.Marked(v, a.key, a.now).webhooks, p);
  }

  function Staged(w: W.World, a: W.Act): W.World
    requires a.StageChargeback?
  {
    if a.fallback in w.chargebacks
    then WithCases(w, a.fallback, W.Restage(w.chargebacks[a.fallback], a.caseRef, a.stage, a.now))
    else w
  }

  /** The loop of UpdateChargeback ends at the payment that owns the case. */
  lemma StagedAtOwner(w: W.World, a: W.Act, o: Owners)
    requires Tidy(w, o) && a.StageChargeback? && Owned(a, o)
    ensures W.Exec(w, a) == W.Executed(Staged(w, a), [])
  {
    var cs := W.ListFor(w.chargebacks, a.pick);
    if W.HasCase(cs, a.caseRef) {
      var k :| 0 <= k < |cs| && cs[k].caseRef == a.caseRef;
      assert cs[k] in cs;
      assert a.pick == a.fallback;
    }
  }

  lemma ForeignStage(w: W.World, a: W.Act, p: string, o: Owners)
    requires Tidy(w, o) && a.StageChargeback? && Owned(a, o) && a.fallback != p
    ensures Foreign(w, W.Exec(w, a), p, o)
  {
    StagedAtOwner(w, a, o);
    if a.fallback in w.chargebacks {
      ViewAfterCases(w, a.fallback, W.Restage(w.chargebacks[a.fallback], a.caseRef, a.stage, a.now), p);
    }
  }

  lemma ViewStaged(w: W.World, a: W.Act)
    requires a.StageChargeback?
    ensures View(Staged(w, a), a.fallback)
         == View(w, a.fallback).(chargebacks :=
              W.Restage(View(w, a.fallback).chargebacks, a.caseRef, a.stage, a.now))
  {
    if a.fallback in w.chargebacks {
      ViewAfterCases(w, a.fallback, W.Restage(w.chargebacks[a.fallback], a.caseRef, a.stage, a.now), a.fallback);
    }
  }

  lemma OwnStage(w: W.World, v: W.World, a: W.Act, p: string, o: Owners)
    requires a.StageChargeback? && a.fallback == p && Simulates(w, v, p, o) && Owned(a, o)
    ensures Own(W.Exec(w, a), W.Exec(v, a), p, o)
  {
    StagedAtOwner(w, a, o);
    StagedAtOwner(v, a, o);
    ViewStaged(w, a);
    ViewStaged(v, a);
  }

  // --- every action keeps the bookkeeping tidy -------------------------------

  lemma {:induction false} RestageKeepsCases(cs: seq<W.Chargeback>, caseRef: string, stage: W.Stage, now: Time)
    ensures forall k :: 0 <= k < |cs| ==> W.Restage(cs, caseRef, stage, now)[k].caseRef == cs[k].caseRef
    decreases |cs|
  {
    if cs != [] && cs[0].caseRef != caseRef {
      RestageKeepsCases(cs[1..], caseRef, stage, now);
    }
  }

  lemma ExecTidy(w: W.World, a: W.Act, o: Owners)
    requires Tidy(w, o) && Owned(a, o)
    ensures Tidy(W.Exec(w, a).world, o)
    ensures forall b <- W.Exec(w, a).rest :: Owned(b, o)
  {
    R.ExecKeyed(w, a);
    match a
    case Deliver(_, _, _, _, _, _) => DeliveryOwned(w, a, o);
    case Dispute(rail, b, stage, pick, now) =>
    case StageChargeback(caseRef, stage, pick, fallback, now) =>
      StagedAtOwner(w, a, o);
      StageTidy(w, a, o);
    case AddChargeback(c) =>
      var v := W.Exec(w, a).world;
      forall id ensures forall d <- W.ListFor(v.chargebacks, id) :: o.ofCase(d.caseRef) == id {
        assert W.ListFor(v.chargebacks, id)
            == if id == c.intentId then W.ListFor(w.chargebacks, id) + [c] else W.ListFor(w.chargebacks, id);
      }
    case _ => OthersKeepChargebacks(w, a);
  }

  lemma OthersKeepChargebacks(w: W.World, a: W.Act)
    requires !a.AddChargeback? && !a.StageChargeback?
    ensures W.Exec(w, a).world.chargebacks == w.chargebacks
    ensures a.Post? || a.Update? ==> forall b <- W.Exec(w, a).rest :: b.Append? || b.Emit?
  {
    hide Create, Apply, W.Process;
  }

  lemma DeliveryOwned(w: W.World, a: W.Act, o: Owners)
    requires a.Deliver? && Owned(a, o)
    ensures W.ExecDeliver(w, a).world.chargebacks == w.chargebacks
    ensures forall b <- W.ExecDeliver(w, a).rest :: Owned(b, o)
  {
  }

  lemma StageTidy(w: W.World, a: W.Act, o: Owners)
    requires Tidy(w, o) && a.StageChargeback?
    ensures forall id, c <- W.ListFor(Staged(w, a).chargebacks, id) :: o.ofCase(c.caseRef) == id
  {
    if a.fallback in w.chargebacks {
      var cs := w.chargebacks[a.fallback];
      var restaged := W.Restage(cs, a.caseRef, a.stage, a.now);
      RestageKeepsCases(cs, a.caseRef, a.stage, a.now);
      forall c | c in restaged ensures o.ofCase(c.caseRef) == a.fallback {
        var k :| 0 <= k < |restaged| && restaged[k] == c;
        assert cs[k] in W.ListFor(w.chargebacks, a.fallback);
      }
      assert forall id :: id != a.fallback ==> W.ListFor(Staged(w, a).chargebacks, id) == W.ListFor(w.chargebacks, id);
    }
  }

  // --- whole runs ------------------------------------------------------------

  /** Running everything, or only the actions naming the payment, gives the payment the same. */
  lemma {:induction false} RunsAlike(w: W.World, v: W.World, acts: seq<W.Act>, p: string, o: Owners)
    requires Simulates(w, v, p, o) && forall a <- acts :: Owned(a, o)
    ensures View(W.RunAll(w, acts), p) == View(W.RunAll(v, Keep(acts, Naming(p, o))), p)
    decreases W.Weight(acts)
  {
    if acts != [] {
      var a, more := acts[0], acts[1..];
      assert acts == [a] + more;
      var e := W.Exec(w, a);
      RunAllOne(w, a, more);
      Lighter(w, a, more);
      ExecTidy(w, a, o);
      KeepConcat(e.rest, more, Naming(p, o));
      if Names(a, o) == p {
        var kept := Keep(more, Naming(p, o));
        assert Keep(acts, Naming(p, o)) == [a] + kept;
        RunAllOne(v, a, kept);
        ExecTidy(v, a, o);
        ExecOwn(w, v, a, p, o);
        KeepAll(e.rest, Naming(p, o));
        RunsAlike(e.world, W.Exec(v, a).world, e.rest + more, p, o);
      } else {
        ExecForeign(w, a, p, o);
        KeepNone(e.rest, Naming(p, o));
        assert Keep(e.rest + more, Naming(p, o)) == Keep(acts, Naming(p, o));
        RunsAlike(e.world, v, e.rest + more, p, o);
      }
    }
  }

  // --- the theorem -----------------------------------------------------------

  /** No two deliveries for different payments carry the same event or the same case reference. */
  ghost predicate NothingShared(acts: seq<W.Act>) {
    && (forall a, b ::
          a in acts && b in acts && Identified(a) && Identified(b) && EventOf(a) == EventOf(b)
          ==> a.body.paymentId == b.body.paymentId)
    && (forall a, b ::
          a in acts && b in acts && a.Deliver? && b.Deliver? && a.body.caseRef == b.body.caseRef != ""
          ==> a.body.paymentId == b.body.paymentId)
  }

  ghost function KeyOwner(acts: seq<W.Act>, key: string): string {
    if exists a :: a in acts && Identified(a) && W.WebhookKey(EventOf(a).0, EventOf(a).1) == key then
      var a :| a in acts && Identified(a) && W.WebhookKey(EventOf(a).0, EventOf(a).1) == key;
      a.body.paymentId
    else ""
  }

  ghost function CaseOwner(acts: seq<W.Act>, caseRef: string): string {
    if exists a :: a in acts && a.Deliver? && a.body.caseRef == caseRef then
      var a :| a in acts && a.Deliver? && a.body.caseRef == caseRef;
      a.body.paymentId
    else ""
  }

  function NamedBy(a: W.Act): string
    requires W.IsRequest(a)
  {
    if a.Deliver? then a.body.paymentId else a.id
  }

  /** The requests naming a payment. */
  function Requests(acts: seq<W.Act>, p: string): seq<W.Act>
    requires forall a <- acts :: W.IsRequest(a)
  {
    if acts == [] then []
    else (if NamedBy(acts[0]) == p then [acts[0]] else []) + Requests(acts[1..], p)
  }

  lemma {:induction false} RequestsAreKept(acts: seq<W.Act>, p: string, o: Owners)
    requires forall a <- acts :: W.IsRequest(a)
    ensures Requests(acts, p) == Keep(acts, Naming(p, o))
    decreases |acts|
  {
    if acts != [] {
      RequestsAreKept(acts[1..], p, o);
      assert Naming(p, o)(acts[0]) <==> NamedBy(acts[0]) == p;
    }
  }

  /** Isolation: for a payment, any sequence of requests has the effect of those that name it. */
  lemma PaymentsAreIsolated(acts: seq<W.Act>, p: string)
    requires NothingShared(acts) && forall a <- acts :: W.IsRequest(a)
    ensures View(W.RunAll(W.EMPTY, acts), p) == View(W.RunAll(W.EMPTY, Requests(acts, p)), p)
  {
    ghost var ofKey: string -> string := (key: string) => KeyOwner(acts, key);
    ghost var ofCase: string -> string := (caseRef: string) => CaseOwner(acts, caseRef);
    ghost var o := Owners(ofKey, ofCase);
    forall a | a in acts ensures Owned(a, o) {
      RequestOwned(acts, a, o);
    }
    RequestsAreKept(acts, p, o);
    RunsAlike(W.EMPTY, W.EMPTY, acts, p, o);
  }

  lemma RequestOwned(acts: seq<W.Act>, a: W.Act, o: Owners)
    requires NothingShared(acts) && a in acts && W.IsRequest(a)
    requires forall key :: o.ofKey(key) == KeyOwner(acts, key)
    requires forall caseRef :: o.ofCase(caseRef) == CaseOwner(acts, caseRef)
    ensures Owned(a, o)
  {
    if Identified(a) {
      var key := W.WebhookKey(EventOf(a).0, EventOf(a).1);
      var b :| b in acts && Identified(b) && W.WebhookKey(EventOf(b).0, EventOf(b).1) == key
            && b.body.paymentId == KeyOwner(acts, key);
      WebhookKeyInjective(EventOf(a).0, EventOf(a).1, EventOf(b).0, EventOf(b).1);
    }
  }
}
