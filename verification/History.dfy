/** The lifecycle history as a log: reading it from the start yields the current status, the audit
    events that must have been emitted, and the number of captures. */
module History {
  import opened Domain
  import opened Engine

  datatype Edge = Edge(from: Status, to: Status)

  /** Everything that reading a history determines. `visible`: the last status other than refunding.
      `ok`: every status change left a non-terminal status along an edge of the table, also when
      refunding is skipped. `edges`: the audit trail. */
  datatype Digest = Digest(
    ok: bool,
    status: Status,
    visible: Status,
    edges: seq<Edge>,
    changes: nat,
    captures: nat,
    challenges: nat,
    breaks: nat)

  const EMPTY: Digest := Digest(true, StatusIntent, StatusIntent, [], 0, 0, 0, 0)

  predicate IsPartial(e: Event) {
    e.typ == Entered(StatusCaptured) && e.detail == "partial capture"
  }

  function Absorb(d: Digest, e: Event): Digest {
    match e.typ
    case EventCreated => d
    case EventWebhook => d
    case EventReconciliation =>
      d.(breaks := d.breaks + 1, edges := d.edges + [Edge(d.visible, d.visible)])
    case Entered(next) =>
      if IsPartial(e) then
        d.(captures := d.captures + 1, edges := d.edges + [Edge(d.visible, d.visible)])
      else
        Digest(
          && d.ok
          && !IsTerminal(d.status) && CanTransition(d.status, next)
          && (next.StatusRefunding? || (!IsTerminal(d.visible) && CanTransition(d.visible, next))),
          next,
          if next.StatusRefunding? then d.visible else next,
          if next.StatusRefunding? then d.edges else d.edges + [Edge(d.visible, next)],
          d.changes + 1,
          if next.StatusCaptured? then d.captures + 1 else d.captures,
          if next.Status3DSPending? then d.challenges + 1 else d.challenges,
          d.breaks)
  }

  function Read(h: seq<Event>): Digest {
    if h == [] then EMPTY else Absorb(Read(h[..|h| - 1]), h[|h| - 1])
  }

  lemma ReadSnoc(h: seq<Event>, e: Event)
    ensures Read(h + [e]) == Absorb(Read(h), e)
  {
    assert (h + [e])[..|h|] == h;
  }

  lemma ReadSnocTwo(h: seq<Event>, e: Event, f: Event)
    ensures Read(h + [e] + [f]) == Absorb(Absorb(Read(h), e), f)
  {
    ReadSnoc(h, e);
    ReadSnoc(h + [e], f);
  }

  // --- the invariant ---------------------------------------------------------

  /** How many status changes an intent may still make. */
  function Rank(s: Status): nat {
    match s
    case StatusIntent => 5
    case Status3DSPending => 4
    case StatusAuthorized => 3
    case StatusCaptured => 2
    case StatusRefunding => 1
    case StatusChargedBack => 1
    case _ => 0
  }

  predicate HistoryOk(i: Intent) {
    var d := Read(i.history);
    && d.ok
    && d.status == d.visible == i.status
    && !i.status.StatusIntent? && !i.status.StatusRefunding?
    && (!i.status.StatusSettled? ==> i.settled == 0)
    && d.changes + Rank(i.status) <= 5
    && d.challenges == (if i.threeDS then 1 else 0)
    && (i.status.Status3DSPending? ==> i.threeDS)
    && d.breaks == (if i.status.StatusSettled? && i.settled != i.captured then 1 else 0)
  }

  function Edges(a: seq<AuditEvent>): seq<Edge> {
    if a == [] then [] else [Edge(a[0].from, a[0].to)] + Edges(a[1..])
  }

  function CountKind(rows: seq<Row>, k: Kind): nat {
    if rows == [] then 0 else (if rows[0].kind == k then 1 else 0) + CountKind(rows[1..], k)
  }

  lemma CountOne(rows: seq<Row>, k: Kind)
    requires |rows| == 1
    ensures CountKind(rows, k) == if rows[0].kind == k then 1 else 0
  {
    assert rows[1..] == [];
  }

  lemma EdgesOne(a: AuditEvent)
    ensures Edges([a]) == [Edge(a.from, a.to)]
  {
    assert [a][1..] == [];
  }

  lemma EdgesTwo(a: AuditEvent, b: AuditEvent)
    ensures Edges([a] + [b]) == [Edge(a.from, a.to)] + [Edge(b.from, b.to)]
  {
    assert ([a] + [b])[1..] == [b];
    EdgesOne(b);
  }

  /** The parts of an intent that no request changes. */
  predicate SameIdentity(i: Intent, j: Intent) {
    && i.id == j.id && i.rail == j.rail && i.amount == j.amount && i.threeDS == j.threeDS
    && i.currency == j.currency && i.payerRef == j.payerRef && i.idempotencyKey == j.idempotencyKey
  }

  /** From i to j, the history grew and reading it yields these further edges and captures. */
  predicate Grew(i: Intent, j: Intent, edges: seq<Edge>, captures: nat) {
    && i.history <= j.history
    && Read(j.history).edges == Read(i.history).edges + edges
    && Read(j.history).captures == Read(i.history).captures + captures
  }

  // --- the ways a history grows ----------------------------------------------

  lemma KeptHistory(i: Intent, j: Intent)
    requires HistoryOk(i) && SameIdentity(i, j)
    requires j.history == i.history && j.status == i.status
    requires j.settled == i.settled && (i.status.StatusSettled? ==> j.captured == i.captured)
    ensures HistoryOk(j) && Grew(i, j, [], 0)
  {
  }

  lemma NotedHistory(i: Intent, j: Intent, e: Event)
    requires HistoryOk(i) && j == i.(history := i.history + [e]) && e.typ.EventWebhook?
    ensures HistoryOk(j) && Grew(i, j, [], 0)
  {
    ReadSnoc(i.history, e);
  }

  lemma PartialHistory(i: Intent, j: Intent, e: Event)
    requires HistoryOk(i) && SameIdentity(i, j) && j.status == i.status && !i.status.StatusSettled?
    requires IsPartial(e) && j.history == i.history + [e] && j.settled == i.settled
    ensures HistoryOk(j) && Grew(i, j, [Edge(i.status, i.status)], 1)
  {
    ReadSnoc(i.history, e);
  }

  predicate Permitted(s: Status, next: Status) {
    !IsTerminal(s) && CanTransition(s, next) && Rank(next) < Rank(s)
    && !next.Status3DSPending? && !next.StatusRefunding?
  }

  lemma EnteredHistory(i: Intent, j: Intent, e: Event)
    requires HistoryOk(i) && SameIdentity(i, j) && j.history == i.history + [e]
    requires e.typ == Entered(j.status) && !IsPartial(e) && Permitted(i.status, j.status)
    requires if j.status.StatusSettled? then j.settled == j.captured else j.settled == 0
    ensures HistoryOk(j)
    ensures Grew(i, j, [Edge(i.status, j.status)], if j.status.StatusCaptured? then 1 else 0)
  {
    ReadSnoc(i.history, e);
  }

  lemma RefundedHistory(i: Intent, j: Intent, e: Event, f: Event)
    requires HistoryOk(i) && SameIdentity(i, j) && j.history == i.history + [e] + [f]
    requires i.status.StatusCaptured? && j.status.StatusRefunded? && j.settled == 0
    requires e.typ == Entered(StatusRefunding) && f.typ == Entered(StatusRefunded)
    ensures HistoryOk(j) && Grew(i, j, [Edge(StatusCaptured, StatusRefunded)], 0)
  {
    ReadSnocTwo(i.history, e, f);
  }

  lemma BreakHistory(i: Intent, j: Intent, e: Event, f: Event)
    requires HistoryOk(i) && SameIdentity(i, j) && j.history == i.history + [e] + [f]
    requires i.status.StatusCaptured? && j.status.StatusSettled? && j.settled != j.captured
    requires e.typ == Entered(StatusSettled) && f.typ == EventReconciliation
    ensures HistoryOk(j)
    ensures Grew(i, j, [Edge(StatusCaptured, StatusSettled)] + [Edge(StatusSettled, StatusSettled)], 0)
  {
    ReadSnocTwo(i.history, e, f);
  }

  // --- every request ---------------------------------------------------------

  /** A request keeps the history in order, and what it adds to it is exactly what it emits to the
      audit log and what it decides as capture rows. */
  predicate Accounts(i: Intent, o: Outcome) {
    && HistoryOk(o.intent)
    && SameIdentity(i, o.intent)
    && Grew(i, o.intent, Edges(o.audit), CountKind(o.rows, CaptureRow))
  }

  lemma ApplyKeepsHistory(i: Intent, op: Op, now: Time)
    requires HistoryOk(i)
    ensures Accounts(i, Apply(i, op, now))
  {
    match op
    case Capture(req, reply) => CaptureKeepsHistory(i, req, reply, now);
    case Void(reply) => VoidKeepsHistory(i, reply, now);
    case Refund(req, reply) => RefundKeepsHistory(i, req, reply, now);
    case Challenge(window, resume, verify, authorize) =>
      ChallengeKeepsHistory(i, window, resume, verify, authorize, now);
    case Settle(rail, amount, ref) => SettleKeepsHistory(i, rail, amount, ref, now);
    case OpenChargeback(rail) => OpenKeepsHistory(i, rail, now);
    case ReverseChargeback(amount) => ReverseKeepsHistory(i, amount, now);
    case Note(rail, what) =>
      NotedHistory(i, Apply(i, op, now).intent, Event(EventWebhook, RailName(rail) + ":" + what, now));
  }

  lemma CaptureKeepsHistory(i: Intent, req: Option<Int64>, reply: Reply, now: Time)
    requires HistoryOk(i)
    ensures Accounts(i, ApplyCapture(i, req, reply, now))
  {
    hide Read, Absorb;
    var o := ApplyCapture(i, req, reply, now);
    if CaptureAllowed(i, req) && reply.Ok? {
      EdgesOne(o.audit[0]);
      CountOne(o.rows, CaptureRow);
      if o.intent.status.StatusCaptured? {
        EnteredHistory(i, o.intent, Event(Entered(StatusCaptured), "captured", now));
      } else {
        PartialHistory(i, o.intent, Event(Entered(StatusCaptured), "partial capture", now));
      }
    } else {
      KeptHistory(i, o.intent);
    }
  }

  lemma VoidKeepsHistory(i: Intent, reply: Reply, now: Time)
    requires HistoryOk(i)
    ensures Accounts(i, ApplyVoid(i, reply, now))
  {
    hide Read, Absorb;
    var o := ApplyVoid(i, reply, now);
    if i.status.StatusAuthorized? && reply.Ok? {
      EdgesOne(o.audit[0]);
      EnteredHistory(i, o.intent, Event(Entered(StatusVoided), "voided", now));
    } else {
      KeptHistory(i, o.intent);
    }
  }

  lemma RefundKeepsHistory(i: Intent, req: Option<Int64>, reply: Reply, now: Time)
    requires HistoryOk(i)
    ensures Accounts(i, ApplyRefund(i, req, reply, now))
  {
    hide Read, Absorb;
    var o := ApplyRefund(i, req, reply, now);
    if RefundAllowed(i, req) && reply.Ok? {
      CountOne(o.rows, CaptureRow);
    }
    if RefundAllowed(i, req) && reply.Ok? && i.status.StatusCaptured? {
      EdgesOne(o.audit[0]);
      RefundedHistory(i, o.intent, Event(Entered(StatusRefunding), "refund initiated", now),
                      Event(Entered(StatusRefunded), "refunded", now));
    } else {
      KeptHistory(i, o.intent);
    }
  }

  lemma ChallengeKeepsHistory(i: Intent, window: int, resume: ResumeReply, verify: Reply,
                              authorize: AuthReply, now: Time)
    requires HistoryOk(i)
    ensures Accounts(i, ApplyChallenge(i, window, resume, verify, authorize, now))
  {
    hide Read, Absorb;
    var o := ApplyChallenge(i, window, resume, verify, authorize, now);
    if i.status.Status3DSPending? {
      EdgesOne(o.audit[0]);
      EnteredHistory(i, o.intent, o.intent.history[|i.history|]);
    } else {
      KeptHistory(i, o.intent);
    }
  }

  lemma SettleKeepsHistory(i: Intent, rail: Rail, amount: Int64, ref: string, now: Time)
    requires HistoryOk(i)
    ensures Accounts(i, ApplySettle(i, rail, amount, ref, now))
  {
    hide Read, Absorb;
    var o := ApplySettle(i, rail, amount, ref, now);
    var settled := Event(Entered(StatusSettled), "settled via webhook", now);
    if !i.status.StatusCaptured? {
      NotedHistory(i, o.intent, Event(EventWebhook, RailName(rail) + ":settlement (ignored)", now));
    } else if o.intent.settled == o.intent.captured {
      CountOne(o.rows, CaptureRow);
      EdgesOne(o.audit[0]);
      EnteredHistory(i, o.intent, settled);
    } else {
      CountOne(o.rows, CaptureRow);
      EdgesTwo(o.audit[0], o.audit[1]);
      BreakHistory(i, o.intent, settled,
                   Event(EventReconciliation, "settled amount does not match captured amount", now));
    }
  }

  lemma OpenKeepsHistory(i: Intent, rail: Rail, now: Time)
    requires HistoryOk(i)
    ensures Accounts(i, ApplyOpenChargeback(i, rail, now))
  {
    hide Read, Absorb;
    var o := ApplyOpenChargeback(i, rail, now);
    if i.status.StatusCaptured? {
      EdgesOne(o.audit[0]);
      EnteredHistory(i, o.intent, Event(Entered(StatusChargedBack), "chargeback opened", now));
    } else if i.status.StatusSettled? {
      KeptHistory(i, o.intent);
    } else {
      NotedHistory(i, o.intent, Event(EventWebhook, RailName(rail) + ":chargeback (ignored)", now));
    }
  }

  lemma ReverseKeepsHistory(i: Intent, amount: Int64, now: Time)
    requires HistoryOk(i)
    ensures Accounts(i, ApplyReverse(i, amount, now))
  {
    hide Read, Absorb;
    var o := ApplyReverse(i, amount, now);
    if i.status.StatusChargedBack? {
      EdgesOne(o.audit[0]);
      EnteredHistory(i, o.intent, o.intent.history[|i.history|]);
    } else {
      KeptHistory(i, o.intent);
    }
  }

  // --- creation --------------------------------------------------------------

  lemma CreateKeepsHistory(req: CreateReq, id: string, env: CreateEnv, now: Time)
    requires ValidCreate(req)
    ensures var c := Create(req, id, env, now);
      && HistoryOk(c.intent)
      && c.intent.id == id
      && Read(c.intent.history).edges == Edges(c.early + c.late)
      && Read(c.intent.history).captures == CountKind(c.rows, CaptureRow)
  {
    hide Read, Absorb;
    var i := Draft(req, id, now);
    var c := Create(req, id, env, now);
    FreshHistory(i);
    if !req.threeDS && CreateFailure(i, env).None? && IsInstant(i.rail) {
      InstantHistory(i, env.submit.ref, SubmittedAmount(i, env.submit.settleAmount), now);
    } else {
      FirstHistory(i, c.intent, c.intent.history[1]);
      EdgesOne(c.late[0]);
      assert c.early + c.late == [c.late[0]];
    }
  }

  lemma FreshHistory(i: Intent)
    requires |i.history| == 1 && i.history[0].typ.EventCreated?
    ensures Read(i.history) == EMPTY
  {
    assert i.history[..0] == [];
  }

  lemma FirstHistory(i: Intent, j: Intent, e: Event)
    requires Read(i.history) == EMPTY && j.history == i.history + [e] && e.typ == Entered(j.status)
    requires j.status.Status3DSPending? || j.status.StatusFailed? || j.status.StatusAuthorized?
    requires j.threeDS == j.status.Status3DSPending? && j.settled == 0
    ensures HistoryOk(j)
    ensures Read(j.history).edges == [Edge(StatusIntent, j.status)] && Read(j.history).captures == 0
  {
    ReadSnoc(i.history, e);
  }

  lemma InstantHistory(i: Intent, ref: string, amount: Int64, now: Time)
    requires Read(i.history) == EMPTY && i.status.StatusIntent? && !i.threeDS && i.settled == 0
    ensures var c := CreateInstant(i, ref, amount, now);
      && HistoryOk(c.intent)
      && Read(c.intent.history).edges == Edges(c.early + c.late)
      && Read(c.intent.history).captures == CountKind(c.rows, CaptureRow)
  {
    hide Read;
    var c := CreateInstant(i, ref, amount, now);
    var e := Event(Entered(StatusAuthorized), "instant rail authorized via submit", now);
    var f := Event(Entered(StatusCaptured), "instant rail captured via submit", now);
    assert c.intent.history == i.history + [e] + [f];
    ReadSnocTwo(i.history, e, f);
    EdgesTwo(c.early[0], c.late[0]);
    assert c.early + c.late == [c.early[0]] + [c.late[0]];
    CountOne(c.rows, CaptureRow);
  }
}
