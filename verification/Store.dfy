/** The stores as objects. Intents are records that the handlers change in place; MemStore shares them
    with its callers' callbacks, Postgres hands out a copy and writes it back on success
    (internal/domain/intent.go, internal/store/store.go, internal/store/postgres/postgres.go). */
module Store {
  import opened Domain
  import opened Engine
  import W = World

  /** A stored intent. */
  class Payment {
    const id: string
    const rail: Rail
    const amount: Int64
    const currency: string
    const payerRef: string
    const idempotencyKey: string
    const threeDS: bool
    var status: Status
    var captured: Int64
    var refunded: Int64
    var settled: Int64
    var externalId: string
    var history: seq<Event>

    constructor (i: Intent)
      ensures Value() == i
    {
      id, rail, amount, currency, payerRef := i.id, i.rail, i.amount, i.currency, i.payerRef;
      idempotencyKey, threeDS := i.idempotencyKey, i.threeDS;
      status, captured, refunded, settled := i.status, i.captured, i.refunded, i.settled;
      externalId, history := i.externalId, i.history;
    }

    function Value(): Intent
      reads this
    {
      Intent(id, rail, amount, currency, payerRef, status, captured, refunded, settled, externalId,
             idempotencyKey, threeDS, history)
    }

    method AppendEvent(typ: EventType, detail: string, now: Time)
      modifies this`history
      ensures Value() == Domain.AppendEvent(old(Value()), typ, detail, now)
    {
      history := history + [Event(typ, detail, now)];
    }

    method Transition(next: Status, detail: string, now: Time) returns (err: Option<Error>)
      modifies this`history, this`status
      ensures Transitioned(Value(), err) == Domain.Transition(old(Value()), next, detail, now)
    {
      if IsTerminal(status) {
        return Some(ErrTerminalState);
      }
      if !CanTransition(status, next) {
        return Some(ErrInvalidTransition);
      }
      status := next;
      AppendEvent(Entered(next), detail, now);
      return None;
    }
  }

  class MemStore {
    var intents: map<string, Payment>
    var captures: map<string, seq<Row>>
    var refunds: map<string, seq<Row>>
    var settlements: map<string, seq<Row>>
    var chargebacks: map<string, seq<W.Chargeback>>
    var webhooks: map<string, W.WebhookRecord>

    constructor ()
      ensures Valid() && intents == map[] && Contents([], []) == W.EMPTY
    {
      intents, captures, refunds, settlements := map[], map[], map[], map[];
      chargebacks, webhooks := map[], map[];
    }

    /** No two keys share a record. */
    ghost predicate Valid()
      reads this
    {
      forall p, q :: p in intents && q in intents && p != q ==> intents[p] != intents[q]
    }

    ghost function Values(): map<string, Intent>
      reads this, intents.Values
    {
      map id | id in intents :: intents[id].Value()
    }

    /** The contents together with an audit log and a log of calls. */
    ghost function Contents(audit: seq<AuditEvent>, ext: seq<ExtCall>): W.World
      reads this, intents.Values
    {
      W.World(Values(), captures, refunds, settlements, chargebacks, webhooks, audit, ext)
    }

    method CreateIntent(p: Payment)
      requires Valid() && p !in intents.Values
      modifies this`intents
      ensures Valid() && intents == old(intents)[p.id := p]
      ensures Values() == old(Values())[p.id := p.Value()]
    {
      intents := intents[p.id := p];
    }

    /** The clone shares nothing with the store. */
    method GetIntent(id: string) returns (c: Payment?)
      ensures c == null <==> id !in intents
      ensures c != null ==> fresh(c) && c.Value() == Values()[id]
    {
      c := null;
      if id in intents {
        c := new Payment(intents[id].Value());
      }
    }

    method AddRow(row: Row)
      modifies this`captures, this`refunds, this`settlements
      ensures captures
           == if row.kind.CaptureRow? then W.Push(old(captures), row.intentId, row) else old(captures)
      ensures refunds
           == if row.kind.RefundRow? then W.Push(old(refunds), row.intentId, row) else old(refunds)
      ensures settlements
           == if row.kind.SettlementRow? then W.Push(old(settlements), row.intentId, row) else old(settlements)
    {
      match row.kind
      case CaptureRow => captures := W.Push(captures, row.intentId, row);
      case RefundRow => refunds := W.Push(refunds, row.intentId, row);
      case SettlementRow => settlements := W.Push(settlements, row.intentId, row);
    }

    method AddChargeback(c: W.Chargeback)
      modifies this`chargebacks
      ensures chargebacks == W.Push(old(chargebacks), c.intentId, c)
    {
      chargebacks := W.Push(chargebacks, c.intentId, c);
    }

    /** The lists are visited in an unspecified order, each from its start, and the first chargeback
        with the case reference gets the stage. */
    method UpdateChargeback(caseRef: string, stage: W.Stage, now: Time) returns (at: Option<string>)
      modifies this`chargebacks
      ensures at.None? ==> chargebacks == old(chargebacks)
      ensures at.None? ==> forall id <- chargebacks :: !W.HasCase(chargebacks[id], caseRef)
      ensures at.Some? ==> at.value in old(chargebacks) && W.HasCase(old(chargebacks)[at.value], caseRef)
      ensures at.Some? ==>
        chargebacks == old(chargebacks)[at.value := W.Restage(old(chargebacks)[at.value], caseRef, stage, now)]
    {
      var left := chargebacks.Keys;
      while left != {}
        invariant chargebacks == old(chargebacks) && left <= chargebacks.Keys
        invariant forall id <- chargebacks :: id !in left ==> !W.HasCase(chargebacks[id], caseRef)
        decreases |left|
      {
        var id :| id in left;
        var list := chargebacks[id];
        for k := 0 to |list|
          invariant chargebacks == old(chargebacks)
          invariant forall j :: 0 <= j < k ==> list[j].caseRef != caseRef
        {
          if list[k].caseRef == caseRef {
            RestageAt(list, caseRef, stage, now, k);
            chargebacks := chargebacks[id := list[k := list[k].(stage := stage, updatedAt := now)]];
            return Some(id);
          }
        }
        left := left - {id};
      }
      return None;
    }

    method RecordWebhook(rail: Rail, eventId: string, now: Time) returns (duplicate: bool)
      modifies this`webhooks
      ensures duplicate <==> W.WebhookKey(rail, eventId) in old(webhooks)
      ensures webhooks == if duplicate then old(webhooks)
        else old(webhooks)[W.WebhookKey(rail, eventId) := W.WebhookRecord(rail, eventId, now, None)]
    {
      var key := W.WebhookKey(rail, eventId);
      if key in webhooks {
        return true;
      }
      webhooks := webhooks[key := W.WebhookRecord(rail, eventId, now, None)];
      return false;
    }

    method MarkWebhookProcessed(rail: Rail, eventId: string, now: Time)
      modifies this`webhooks
      ensures forall audit, ext ::
        Contents(audit, ext) == W.Marked(old(Contents(audit, ext)), W.WebhookKey(rail, eventId), now)
    {
      var key := W.WebhookKey(rail, eventId);
      if key in webhooks {
        webhooks := webhooks[key := webhooks[key].(processedAt := Some(now))];
      }
    }
  }

  /** The intents table. */
  class Postgres {
    var rows: map<string, Intent>

    constructor ()
      ensures rows == map[]
    {
      rows := map[];
    }
  }

  /** Restage changes the first entry with the case reference, and nothing else. */
  lemma {:induction false} RestageAt(cs: seq<W.Chargeback>, caseRef: string, stage: W.Stage, now: Time, k: nat)
    requires k < |cs| && cs[k].caseRef == caseRef && forall j :: 0 <= j < k ==> cs[j].caseRef != caseRef
    ensures W.Restage(cs, caseRef, stage, now) == cs[k := cs[k].(stage := stage, updatedAt := now)]
    decreases |cs|
  {
    if k > 0 {
      RestageAt(cs[1..], caseRef, stage, now, k - 1);
    }
  }
}
