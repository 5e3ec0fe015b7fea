/** What a webhook delivery does to the store and how it is answered, by its type and stage. */
module Deliveries {
  import opened Domain
  import opened Engine
  import opened History
  import opened Runs
  import D = Decisions
  import S = Service
  import Numeric
  import opened Store
  import W = World

  // --- names -----------------------------------------------------------------

  function StageName(s: W.Stage): string {
    match s
    case Opened => "opened"
    case Evidence => "evidence"
    case Arbitration => "arbitration"
    case Reversal => "reversal"
  }

  /** Each stage has its own name, and no name stands for the opening. */
  lemma StageNamesParse(name: string, s: W.Stage)
    ensures W.ParseStage(name) == Some(s) <==> name == StageName(s) || (name == "" && s.Opened?)
  {
  }

  // --- the checks ------------------------------------------------------------

  predicate KnownRail(name: string) {
    name in {"card", "ach", "sepa", "pix", "upi"}
  }

  /** Signed for a known rail, and not too old or too new if it has a timestamp. */
  predicate Genuine(a: W.Act)
    requires a.Deliver?
  {
    && KnownRail(a.rail) && a.signed
    && (a.body.timestamp != 0 ==> W.Age(a.body.timestamp, a.now) <= a.window)
  }

  function RailOf(a: W.Act): (r: Rail)
    requires a.Deliver? && Genuine(a)
    ensures RailName(r) == a.rail
  {
    ParseRail(a.rail).value
  }

  predicate Repeated(w: W.World, a: W.Act)
    requires a.Deliver? && Genuine(a)
  {
    a.body.eventId != "" && W.WebhookKey(RailOf(a), a.body.eventId) in w.webhooks
  }

  /** What fails the checks changes nothing. */
  lemma RefusedExactly(w: W.World, a: W.Act)
    requires a.Deliver?
    ensures !Genuine(a) ==>
      W.RunAll(w, [a]) == w && S.DeliverStatus(w, a) == if KnownRail(a.rail) then 401 else 400
    ensures Genuine(a) ==> S.DeliverStatus(w, a) != 401
  {
    hide W.Age, W.ExecDeliver, W.WebhookKey;
    S.DeliverRefused(w, a);
  }

  /** Nor does an event that was recorded before. */
  lemma RepeatedChangesNothing(w: W.World, a: W.Act)
    requires a.Deliver? && Genuine(a) && Repeated(w, a)
    ensures W.RunAll(w, [a]) == w && S.DeliverStatus(w, a) == 200
  {
    hide W.Age, W.WebhookKey, W.ExecDeliver, W.RunAll, W.Process;
    S.DeliverAccepted(w, a);
  }

  // --- what is recorded ------------------------------------------------------

  /** The webhooks once the delivery has been dealt with: if it has an event id, it is recorded as received
      and as processed. */
  function Stamped(w: W.World, a: W.Act): map<string, W.WebhookRecord>
    requires a.Deliver? && Genuine(a)
  {
    if a.body.eventId == "" then w.webhooks
    else
      w.webhooks[W.WebhookKey(RailOf(a), a.body.eventId)
                 := W.WebhookRecord(RailOf(a), a.body.eventId, a.now, Some(a.now))]
  }

  /** The store while the delivery is being processed. */
  function Received(w: W.World, a: W.Act): W.World
    requires a.Deliver? && Genuine(a)
  {
    if a.body.eventId == "" then w
    else
      w.(webhooks := w.webhooks[W.WebhookKey(RailOf(a), a.body.eventId)
                                := W.WebhookRecord(RailOf(a), a.body.eventId, a.now, None)])
  }

  /** Whatever processing makes of the store, the stamp is all that is added. */
  lemma StampedAfter(w: W.World, a: W.Act, todo: seq<W.Act>, v: W.World)
    requires a.Deliver? && Genuine(a) && !Repeated(w, a)
    requires todo == W.Process(RailOf(a), a.body, a.pick, a.now)
    requires W.RunAll(Received(w, a), todo) == v && v.webhooks == Received(w, a).webhooks
    ensures W.RunAll(w, [a]) == v.(webhooks := Stamped(w, a))
    ensures S.DeliverStatus(w, a) == S.ProcessStatus(w, RailOf(a), a.body, a.now)
  {
    hide W.Age, W.WebhookKey, W.ExecDeliver, W.RunAll, W.Process, S.ProcessStatus;
    S.DeliverAccepted(w, a);
  }

  // --- updates of the intent -------------------------------------------------

  /** The store after an update of the named intent by the delivery. */
  function Updated(w: W.World, a: W.Act, op: Op): W.World
    requires a.Deliver? && Genuine(a)
  {
    if a.body.paymentId !in w.intents then w.(webhooks := Stamped(w, a))
    else
      var o := Apply(w.intents[a.body.paymentId], op, a.now);
      var v := w.(intents := w.intents[a.body.paymentId := o.intent], audit := w.audit + o.audit,
                  ext := w.ext + o.ext, webhooks := Stamped(w, a));
      if o.rows == [] then v else W.AddRow(v, o.rows[0])
  }

  lemma UpdateRuns(w: W.World, a: W.Act, op: Op)
    requires a.Deliver? && Genuine(a) && !Repeated(w, a)
    requires W.Process(RailOf(a), a.body, a.pick, a.now) == [W.Update(a.body.paymentId, op, a.now)]
    ensures W.RunAll(w, [a]) == Updated(w, a, op)
    ensures S.DeliverStatus(w, a) == S.ProcessStatus(w, RailOf(a), a.body, a.now)
  {
    hide Apply, Genuine, Repeated, Stamped, W.RunAll, W.Process, W.AddRow, S.DeliverStatus, S.ProcessStatus;
    var u, id := Received(w, a), a.body.paymentId;
    ReceivedKeepsRest(w, a);
    if id in w.intents {
      S.UpdateRuns(u, id, op, a.now);
      var o := Apply(w.intents[id], op, a.now);
      AppendedBeside(W.ExecUpdate(u, id, op, a.now).world, o.rows, Stamped(w, a));
    } else {
      S.UpdateMisses(u, id, op, a.now);
    }
    StampedAfter(w, a, [W.Update(id, op, a.now)], W.RunAll(u, [W.Update(id, op, a.now)]));
  }

  lemma ReceivedKeepsRest(w: W.World, a: W.Act)
    requires a.Deliver? && Genuine(a)
    ensures Received(w, a).(webhooks := Stamped(w, a)) == w.(webhooks := Stamped(w, a))
  {
  }

  /** Appending a row has nothing to do with the webhooks. */
  lemma AppendedBeside(w: W.World, rows: seq<Row>, webhooks: map<string, W.WebhookRecord>)
    requires |rows| <= 1
    ensures S.WithRows(w, rows).webhooks == w.webhooks
    ensures S.WithRows(w, rows).(webhooks := webhooks) == S.WithRows(w.(webhooks := webhooks), rows)
  {
    hide W.AddRow;
    if rows != [] {
      AddedBeside(w, rows[0], webhooks);
    }
  }

  lemma AddedBeside(w: W.World, r: Row, webhooks: map<string, W.WebhookRecord>)
    ensures W.AddRow(w, r).webhooks == w.webhooks
    ensures W.AddRow(w, r).(webhooks := webhooks) == W.AddRow(w.(webhooks := webhooks), r)
  {
    hide W.Push;
    match r.kind
    case CaptureRow =>
    case RefundRow =>
    case SettlementRow =>
  }

  // --- settlements -----------------------------------------------------------

  lemma SettlementRuns(w: W.World, a: W.Act)
    requires a.Deliver? && Genuine(a) && !Repeated(w, a)
    requires a.body.typ == "settlement" && a.body.paymentId != ""
    ensures W.RunAll(w, [a]) == Updated(w, a, Settle(RailOf(a), a.body.amount, a.body.railRef))
    ensures S.DeliverStatus(w, a) == 200
  {
    hide Apply, Genuine, Repeated, Stamped, Updated, W.RunAll;
    var op := Settle(RailOf(a), a.body.amount, a.body.railRef);
    UpdateRuns(w, a, op);
    if a.body.paymentId in w.intents {
      S.WebhookUpdatesFailExactly(w.intents[a.body.paymentId], op, a.now);
    }
  }

  predicate NotesBreak(h: seq<Event>) {
    exists k :: 0 <= k < |h| && h[k].typ == EventReconciliation
  }

  /** From i to j the settlement took place: in the amount given, with a break exactly if that is not what
      was captured. */
  predicate SettledAt(i: Intent, j: Intent, amount: Int64) {
    && i.history <= j.history
    && j == i.(status := StatusSettled, settled := amount, history := j.history)
    && (NotesBreak(j.history[|i.history|..]) <==> amount != i.captured)
  }

  /** A settlement of a captured payment sets the settled amount to the amount delivered, whatever that is,
      and appends a row of that amount; a break is recorded exactly if it differs from the captured amount.
      Any other settlement is noted, or passed by, and every one is acknowledged. */
  lemma SettlementDelivered(w: W.World, a: W.Act)
    requires a.Deliver? && Genuine(a) && !Repeated(w, a) && Keyed(w)
    requires a.body.typ == "settlement" && a.body.paymentId != ""
    ensures var v, id := W.RunAll(w, [a]), a.body.paymentId;
      && S.DeliverStatus(w, a) == 200
      && if id !in w.intents then v == w.(webhooks := Stamped(w, a))
         else if !w.intents[id].status.StatusCaptured? then
           var note := Event(EventWebhook, a.rail + ":settlement (ignored)", a.now);
           var i := w.intents[id];
           v == w.(intents := w.intents[id := i.(history := i.history + [note])], webhooks := Stamped(w, a))
         else
           && id in v.intents && SettledAt(w.intents[id], v.intents[id], a.body.amount)
           && v == W.AddRow(w.(intents := w.intents[id := v.intents[id]], audit := v.audit, webhooks := Stamped(w, a)),
                            Row(SettlementRow, id, a.body.amount, a.body.railRef, a.now))
  {
    hide W.RunAll, Apply, Genuine, Repeated, Stamped, Numeric.Decimal, W.AddRow, HistoryOk, SettledAt;
    SettlementRuns(w, a);
    var id := a.body.paymentId;
    if id in w.intents {
      SettledIsZero(w, id);
      var i, op := w.intents[id], Settle(RailOf(a), a.body.amount, a.body.railRef);
      if i.status.StatusCaptured? {
        SettlesAt(i, RailOf(a), a.body.amount, a.body.railRef, a.now);
        var o := Apply(i, op, a.now);
        W.RowKeepsRest(w.(intents := w.intents[id := o.intent], audit := w.audit + o.audit, webhooks := Stamped(w, a)),
                       o.rows[0]);
        assert w.ext + [] == w.ext;
      } else {
        D.SettleExactly(i, RailOf(a), a.body.amount, a.body.railRef, a.now);
        assert w.audit + [] == w.audit && w.ext + [] == w.ext;
      }
    }
  }

  lemma SettlesAt(i: Intent, rail: Rail, amount: Int64, ref: string, now: Time)
    requires i.status.StatusCaptured? && i.settled == 0
    ensures var o := Apply(i, Settle(rail, amount, ref), now);
      SettledAt(i, o.intent, amount) && o.rows == [Row(SettlementRow, i.id, amount, ref, now)] && o.ext == []
  {
    hide Apply, Numeric.Decimal;
    D.SettleExactly(i, rail, amount, ref, now);
    var h := Apply(i, Settle(rail, amount, ref), now).intent.history[|i.history|..];
    assert amount != i.captured ==> h[1].typ == EventReconciliation;
  }

  lemma SettledIsZero(w: W.World, id: string)
    requires Keyed(w) && id in w.intents
    ensures w.intents[id].id == id
    ensures w.intents[id].status.StatusCaptured? ==> w.intents[id].settled == 0
  {
  }

  /** The same of the service and its store: what a signed settlement leaves in the store's own tables. */
  method SettleByWebhook(o: S.Orchestrator, rail: string, body: W.WebhookBody, now: Time) returns (status: int)
    requires o.Valid() && Keyed(o.Contents()) && body.typ == "settlement" && body.paymentId != ""
    requires var a := W.Deliver(rail, body, true, o.replayWindow, "", now);
      Genuine(a) && !Repeated(o.Contents(), a)
    requires body.paymentId in o.store.intents && o.store.intents[body.paymentId].status.StatusCaptured?
    modifies o`audit, o`ext, o.store, o.store.intents.Values
    ensures status == 200 && o.Valid() && body.paymentId in o.store.intents
    ensures var p := o.store.intents[body.paymentId];
      SettledAt(old(o.store.intents[body.paymentId].Value()), p.Value(), body.amount)
    ensures W.ListFor(o.store.settlements, body.paymentId)
         == W.ListFor(old(o.store.settlements), body.paymentId)
            + [Row(SettlementRow, body.paymentId, body.amount, body.railRef, now)]
  {
    hide Genuine, Repeated, Stamped, SettledAt, W.RunAll, HistoryOk;
    ghost var w := o.Contents();
    ghost var pick;
    status, pick := o.Webhook(rail, body, true, now);
    ghost var a := W.Deliver(rail, body, true, o.replayWindow, pick, now);
    PickPlaysNoPart(w, rail, body, o.replayWindow, pick, now);
    SettlementDelivered(w, a);
    SettlementAppended(w, W.RunAll(w, [a]), a);
  }

  /** The visiting order of the map does not matter to the checks. */
  lemma PickPlaysNoPart(w: W.World, rail: string, body: W.WebhookBody, window: int, pick: string, now: Time)
    requires Genuine(W.Deliver(rail, body, true, window, "", now))
    ensures var a, b := W.Deliver(rail, body, true, window, "", now), W.Deliver(rail, body, true, window, pick, now);
      Genuine(b) && Repeated(w, b) == Repeated(w, a)
  {
  }

  lemma SettlementAppended(w: W.World, v: W.World, a: W.Act)
    requires a.Deliver? && Genuine(a)
    requires var id := a.body.paymentId;
      && id in v.intents
      && v == W.AddRow(w.(intents := w.intents[id := v.intents[id]], audit := v.audit, webhooks := Stamped(w, a)),
                       Row(SettlementRow, id, a.body.amount, a.body.railRef, a.now))
    ensures W.ListFor(v.settlements, a.body.paymentId) == W.ListFor(w.settlements, a.body.paymentId)
      + [Row(SettlementRow, a.body.paymentId, a.body.amount, a.body.railRef, a.now)]
  {
  }

  // --- deliveries without a dispute ------------------------------------------

  /** A delivery that names no payment is acknowledged and recorded. */
  lemma UnnamedDelivered(w: W.World, a: W.Act)
    requires a.Deliver? && Genuine(a) && !Repeated(w, a) && a.body.paymentId == ""
    ensures W.RunAll(w, [a]) == w.(webhooks := Stamped(w, a)) && S.DeliverStatus(w, a) == 200
  {
    hide Genuine, Repeated, Stamped, W.RunAll;
    ReceivedKeepsRest(w, a);
    S.RunNothing(Received(w, a));
    StampedAfter(w, a, [], Received(w, a));
  }

  /** Any other type is noted in the history of the payment. */
  lemma OtherDelivered(w: W.World, a: W.Act)
    requires a.Deliver? && Genuine(a) && !Repeated(w, a) && a.body.paymentId != ""
    requires a.body.typ != "settlement" && a.body.typ != "chargeback" && a.body.stage == ""
    ensures var v, id := W.RunAll(w, [a]), a.body.paymentId;
      && S.DeliverStatus(w, a) == 200
      && v == if id !in w.intents then w.(webhooks := Stamped(w, a))
              else
                var note := Event(EventWebhook, a.rail + ":" + a.body.typ, a.now);
                var i := w.intents[id];
                w.(intents := w.intents[id := i.(history := i.history + [note])], webhooks := Stamped(w, a))
  {
    hide Genuine, Repeated, Stamped, W.RunAll;
    UpdateRuns(w, a, Note(RailOf(a), a.body.typ));
    assert w.audit + [] == w.audit && w.ext + [] == w.ext;
  }

  // --- disputes --------------------------------------------------------------

  predicate IsDispute(b: W.WebhookBody) {
    b.paymentId != "" && b.typ != "settlement" && (b.typ == "chargeback" || b.stage != "")
  }

  predicate KnownStage(name: string) {
    name in {"", "opened", "evidence", "arbitration", "reversal"}
  }

  /** The stage that a name stands for, see StageNamesParse. */
  function StageOf(name: string): (s: W.Stage)
    requires KnownStage(name)
    ensures name == StageName(s) || (name == "" && s.Opened?)
  {
    W.ParseStage(name).value
  }

  /** A dispute of an unknown stage or without a case is refused after it was recorded. */
  lemma BadDisputeDelivered(w: W.World, a: W.Act)
    requires a.Deliver? && Genuine(a) && !Repeated(w, a) && IsDispute(a.body)
    requires !KnownStage(a.body.stage) || a.body.caseRef == ""
    ensures W.RunAll(w, [a]) == w.(webhooks := Stamped(w, a)) && S.DeliverStatus(w, a) == 400
  {
    hide Genuine, Repeated, Stamped, W.RunAll;
    ReceivedKeepsRest(w, a);
    S.RunNothing(Received(w, a));
    StampedAfter(w, a, [], Received(w, a));
  }

  /** The payment has a dispute with that case reference. */
  predicate OnFile(w: W.World, b: W.WebhookBody) {
    exists c :: c in W.ListFor(w.chargebacks, b.paymentId) && c.caseRef == b.caseRef
  }

  /** The store after an update of the payment, if there is one. */
  function Following(w: W.World, id: string, op: Op, now: Time): W.World {
    if id !in w.intents then w
    else
      var o := Apply(w.intents[id], op, now);
      w.(intents := w.intents[id := o.intent], audit := w.audit + o.audit)
  }

  /** A new case is filed under the payment with its stage; if that is the opening, the intent follows, and
      a settled intent, which cannot, makes it an error. */
  lemma NewCaseDelivered(w: W.World, a: W.Act)
    requires a.Deliver? && Genuine(a) && !Repeated(w, a) && IsDispute(a.body)
    requires KnownStage(a.body.stage) && a.body.caseRef != "" && !OnFile(w, a.body)
    ensures var b := a.body; var stage := StageOf(b.stage);
      var c := W.Chargeback(b.paymentId, b.amount, b.reason, stage, b.caseRef, a.now, a.now);
      var v := w.(chargebacks := w.chargebacks[b.paymentId := W.ListFor(w.chargebacks, b.paymentId) + [c]],
                  webhooks := Stamped(w, a));
      && W.RunAll(w, [a]) == (if stage.Opened? then Following(v, b.paymentId, OpenChargeback(RailOf(a)), a.now) else v)
      && S.DeliverStatus(w, a)
         == if stage.Opened? && b.paymentId in w.intents && w.intents[b.paymentId].status.StatusSettled? then 500 else 200
  {
    hide Genuine, Repeated, Stamped, W.RunAll, Apply;
    var b, stage, u := a.body, StageOf(a.body.stage), Received(w, a);
    var op := OpenChargeback(RailOf(a));
    var c := W.Chargeback(b.paymentId, b.amount, b.reason, stage, b.caseRef, a.now, a.now);
    var filed := u.(chargebacks := W.Push(u.chargebacks, b.paymentId, c));
    ReceivedKeepsRest(w, a);
    S.OpeningRuns(u, RailOf(a), b, stage, a.pick, a.now);
    FollowingRuns(filed, b.paymentId, op, a.now);
    var todo := [W.Dispute(RailOf(a), b, stage, a.pick, a.now)];
    StampedAfter(w, a, todo, W.RunAll(u, todo));
    if b.paymentId in w.intents {
      S.WebhookUpdatesFailExactly(w.intents[b.paymentId], op, a.now);
    }
  }

  lemma FollowingRuns(w: W.World, id: string, op: Op, now: Time)
    requires op.OpenChargeback? || op.ReverseChargeback?
    ensures W.RunAll(w, [W.Update(id, op, now)]) == Following(w, id, op, now)
  {
    hide W.RunAll;
    if id in w.intents {
      S.UpdateRuns(w, id, op, now);
      assert w.ext + [] == w.ext;
    } else {
      S.UpdateMisses(w, id, op, now);
    }
  }

  /** Of a case on file one dispute, the first of its list with the case reference, moves to the stage
      delivered, whatever that is and was; a reversal also decides the intent. */
  lemma KnownCaseDelivered(w: W.World, a: W.Act) returns (at: string, k: nat)
    requires a.Deliver? && Genuine(a) && !Repeated(w, a) && IsDispute(a.body)
    requires KnownStage(a.body.stage) && a.body.caseRef != "" && OnFile(w, a.body)
    ensures at in w.chargebacks && k < |w.chargebacks[at]| && w.chargebacks[at][k].caseRef == a.body.caseRef
    ensures forall j :: 0 <= j < k ==> w.chargebacks[at][j].caseRef != a.body.caseRef
    ensures at == a.pick || at == a.body.paymentId
    ensures var b := a.body; var stage := StageOf(b.stage); var list := w.chargebacks[at];
      var v := w.(chargebacks := w.chargebacks[at := list[k := list[k].(stage := stage, updatedAt := a.now)]],
                  webhooks := Stamped(w, a));
      W.RunAll(w, [a]) == if stage.Reversal? then Following(v, b.paymentId, ReverseChargeback(b.amount), a.now) else v
    ensures S.DeliverStatus(w, a) == 200
  {
    hide Genuine, Repeated, Stamped, W.RunAll, Apply;
    var b, stage, u := a.body, StageOf(a.body.stage), Received(w, a);
    var op := ReverseChargeback(b.amount);
    at, k := FirstOfCase(w, b, a.pick);
    RestageAt(w.chargebacks[at], b.caseRef, stage, a.now, k);
    var cbs := W.UpdateChargeback(u.chargebacks, b.caseRef, stage, a.pick, b.paymentId, a.now);
    ReceivedKeepsRest(w, a);
    S.StagingRuns(u, RailOf(a), b, stage, a.pick, a.now);
    FollowingRuns(u.(chargebacks := cbs), b.paymentId, op, a.now);
    var todo := [W.Dispute(RailOf(a), b, stage, a.pick, a.now)];
    StampedAfter(w, a, todo, W.RunAll(u, todo));
    if b.paymentId in w.intents {
      S.WebhookUpdatesFailExactly(w.intents[b.paymentId], op, a.now);
    }
  }

  /** The dispute that is found: in the list visited first, if it has the case, else in that of the payment. */
  lemma FirstOfCase(w: W.World, b: W.WebhookBody, pick: string) returns (at: string, k: nat)
    requires OnFile(w, b)
    ensures at == if W.HasCase(W.ListFor(w.chargebacks, pick), b.caseRef) then pick else b.paymentId
    ensures at in w.chargebacks && k < |w.chargebacks[at]| && w.chargebacks[at][k].caseRef == b.caseRef
    ensures forall j :: 0 <= j < k ==> w.chargebacks[at][j].caseRef != b.caseRef
  {
    at := if W.HasCase(W.ListFor(w.chargebacks, pick), b.caseRef) then pick else b.paymentId;
    k := FirstIndex(W.ListFor(w.chargebacks, at), b.caseRef);
  }

  lemma {:induction false} FirstIndex(cs: seq<W.Chargeback>, caseRef: string) returns (k: nat)
    requires exists c :: c in cs && c.caseRef == caseRef
    ensures k < |cs| && cs[k].caseRef == caseRef && forall j :: 0 <= j < k ==> cs[j].caseRef != caseRef
    decreases |cs|
  {
    if cs[0].caseRef == caseRef {
      k := 0;
    } else {
      var c :| c in cs && c.caseRef == caseRef;
      assert c in cs[1..];
      var r := FirstIndex(cs[1..], caseRef);
      k := r + 1;
    }
  }
}
