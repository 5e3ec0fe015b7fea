/** What each request does to one intent (internal/api/handlers.go): the bodies of the UpdateIntent
    callbacks and of the create handler, as functions. Answers of the rail, the 3DS provider and the
    fraud service, and the current time, are inputs. */
module Engine {
  import opened Domain
  import Numeric

  // --- what a request leaves behind ------------------------------------------

  datatype Kind = CaptureRow | RefundRow | SettlementRow

  /** A row of the captures, refunds or settlements table. */
  datatype Row = Row(kind: Kind, intentId: string, amount: Int64, ref: string, at: Time)

  datatype AuditEvent = AuditEvent(intentId: string, from: Status, to: Status, detail: string, at: Time)

  /** Calls to the outside world, with the answer received; the check of the challenge window is
      recorded along with them. */
  datatype ExtCall =
    | FraudScore(id: string, allowed: bool)
    | WindowCheck(id: string, onTime: bool)
    | MpiResume(id: string, ok: bool)
    | RailVerify(id: string, ok: bool)
    | RailAuthorize(id: string, ok: bool)
    | RailSubmit(id: string, ok: bool, amount: Int64)
    | RailCapture(id: string, ok: bool, amount: Int64)
    | RailRefund(id: string, ok: bool, amount: Int64)
    | RailVoid(id: string, ok: bool)

  /** Result of a callback: the intent as the callback left it (also when it failed), the error, the
      row decided on, the audit events emitted and the calls made. */
  datatype Outcome = Outcome(
    intent: Intent,
    err: Option<Error>,
    rows: seq<Row>,
    audit: seq<AuditEvent>,
    ext: seq<ExtCall>)

  function Reject(i: Intent, e: Error): Outcome {
    Outcome(i, Some(e), [], [], [])
  }

  // --- requests on an existing intent ----------------------------------------

  datatype Reply = Ok | Err(msg: string)
  datatype AuthReply = AuthOk(ref: string) | AuthErr(msg: string)

  /** The 3DS provider's answer. Its own timeout is the same error as an expired challenge window. */
  datatype ResumeReply = ResumeOk | ResumeTimeout | ResumeErr(msg: string)

  function ResumeText(r: ResumeReply): string
    requires !r.ResumeOk?
  {
    if r.ResumeTimeout? then "3ds challenge timed out" else r.msg
  }

  function ResumeError(r: ResumeReply): Error
    requires !r.ResumeOk?
  {
    if r.ResumeTimeout? then ErrTimeout else ErrText(r.msg)
  }

  datatype Op =
    | Capture(req: Option<Int64>, reply: Reply)
    | Void(reply: Reply)
    | Refund(req: Option<Int64>, reply: Reply)
    | Challenge(window: int, resume: ResumeReply, verify: Reply, authorize: AuthReply)
    | Settle(rail: Rail, settledAmount: Int64, railRef: string)
    | OpenChargeback(rail: Rail)
    | ReverseChargeback(disputed: Int64)
    | Note(rail: Rail, what: string)

  function Apply(i: Intent, op: Op, now: Time): Outcome {
    match op
    case Capture(req, reply) => ApplyCapture(i, req, reply, now)
    case Void(reply) => ApplyVoid(i, reply, now)
    case Refund(req, reply) => ApplyRefund(i, req, reply, now)
    case Challenge(window, resume, verify, authorize) =>
      ApplyChallenge(i, window, resume, verify, authorize, now)
    case Settle(rail, amount, ref) => ApplySettle(i, rail, amount, ref, now)
    case OpenChargeback(rail) => ApplyOpenChargeback(i, rail, now)
    case ReverseChargeback(amount) => ApplyReverse(i, amount, now)
    case Note(rail, what) =>
      Outcome(AppendEvent(i, EventWebhook, RailName(rail) + ":" + what, now), None, [], [], [])
  }

  /** The amount a capture request asks for: the whole intent when none is given. */
  function CaptureAmount(i: Intent, req: Option<Int64>): Int64 {
    if req.Some? then req.value else i.amount
  }

  /** The guards of a capture, in 64-bit arithmetic. */
  predicate CaptureAllowed(i: Intent, req: Option<Int64>) {
    && i.rail.Card?
    && i.status.StatusAuthorized?
    && (req.Some? ==> 0 < req.value <= Sub64(i.amount, i.captured))
    && Add64(i.captured, CaptureAmount(i, req)) <= i.amount
  }

  function CaptureError(i: Intent, req: Option<Int64>): Error {
    if !i.rail.Card? then ErrText("capture only supported for card rail")
    else if !i.status.StatusAuthorized? then ErrText("intent not in authorized state")
    else if req.Some? && req.value <= 0 then ErrText("capture amount must be positive")
    else ErrText("capture amount exceeds authorized amount")
  }

  function ApplyCapture(i: Intent, req: Option<Int64>, reply: Reply, now: Time): Outcome {
    if !CaptureAllowed(i, req) then Reject(i, CaptureError(i, req))
    else
      var amount := CaptureAmount(i, req);
      match reply
      case Err(m) => Outcome(i, Some(ErrText(m)), [], [], [RailCapture(i.id, false, amount)])
      case Ok =>
        var c := i.(captured := Add64(i.captured, amount));
        var row := Row(CaptureRow, i.id, amount, i.externalId, now);
        var ext := [RailCapture(i.id, true, amount)];
        if c.captured >= c.amount then
          var t := Transition(c, StatusCaptured, "captured", now);
          if t.err.Some? then Outcome(t.intent, t.err, [row], [], ext)
          else Outcome(t.intent, None, [row],
                       [AuditEvent(i.id, i.status, StatusCaptured, "capture", now)], ext)
        else
          Outcome(AppendEvent(c, Entered(StatusCaptured), "partial capture", now), None, [row],
                  [AuditEvent(i.id, i.status, i.status, "partial capture", now)], ext)
  }

  function ApplyVoid(i: Intent, reply: Reply, now: Time): Outcome {
    if !i.status.StatusAuthorized? then Reject(i, ErrInvalidTransition)
    else
      match reply
      case Err(m) => Outcome(i, Some(ErrText(m)), [], [], [RailVoid(i.id, false)])
      case Ok =>
        var t := Transition(i, StatusVoided, "voided", now);
        if t.err.Some? then Outcome(t.intent, t.err, [], [], [RailVoid(i.id, true)])
        else Outcome(t.intent, None, [], [AuditEvent(i.id, i.status, StatusVoided, "void", now)],
                     [RailVoid(i.id, true)])
  }

  function RefundAmount(i: Intent, req: Option<Int64>): Int64 {
    if req.Some? then req.value else i.captured
  }

  predicate RefundAllowed(i: Intent, req: Option<Int64>) {
    && (i.status.StatusCaptured? || i.status.StatusSettled?)
    && (req.Some? ==> 0 < req.value)
    && Add64(i.refunded, RefundAmount(i, req)) <= i.captured
  }

  function RefundError(i: Intent, req: Option<Int64>): Error {
    if !i.status.StatusCaptured? && !i.status.StatusSettled? then ErrInvalidTransition
    else if req.Some? && req.value <= 0 then ErrText("refund amount must be positive")
    else ErrText("refund amount exceeds captured amount")
  }

  /** The counter and the row are decided before the transition is tried, so a refund of a settled
      intent fails with both in place. */
  function ApplyRefund(i: Intent, req: Option<Int64>, reply: Reply, now: Time): Outcome {
    if !RefundAllowed(i, req) then Reject(i, RefundError(i, req))
    else
      var amount := RefundAmount(i, req);
      match reply
      case Err(m) => Outcome(i, Some(ErrText(m)), [], [], [RailRefund(i.id, false, amount)])
      case Ok =>
        var c := i.(refunded := Add64(i.refunded, amount));
        var row := Row(RefundRow, i.id, amount, i.externalId, now);
        var ext := [RailRefund(i.id, true, amount)];
        var t := Transition(c, StatusRefunding, "refund initiated", now);
        if t.err.Some? then Outcome(t.intent, t.err, [row], [], ext)
        else
          var u := Transition(t.intent, StatusRefunded, "refunded", now);
          if u.err.Some? then Outcome(u.intent, u.err, [row], [], ext)
          else Outcome(u.intent, None, [row],
                       [AuditEvent(i.id, i.status, StatusRefunded, "refund", now)], ext)
  }

  // --- 3DS -------------------------------------------------------------------

  /** The most recent 3ds_pending event. */
  function LastPending(h: seq<Event>): Option<Event> {
    if h == [] then None
    else if h[|h| - 1].typ == Entered(Status3DSPending) then Some(h[|h| - 1])
    else LastPending(h[..|h| - 1])
  }

  predicate Expired(h: seq<Event>, window: int, now: Time) {
    window > 0 && LastPending(h).Some? && Since(now, LastPending(h).value.at) > window
  }

  /** is3DSExpired: the backward scan of the history. */
  method Is3DSExpired(h: seq<Event>, window: int, now: Time) returns (expired: bool)
    ensures expired == Expired(h, window, now)
  {
    if window <= 0 {
      return false;
    }
    var idx := |h| - 1;
    assert h[..|h|] == h;
    while idx >= 0
      invariant -1 <= idx < |h|
      invariant LastPending(h) == LastPending(h[..idx + 1])
    {
      assert h[..idx + 1][..idx] == h[..idx];
      if h[idx].typ == Entered(Status3DSPending) {
        return Since(now, h[idx].at) > window;
      }
      idx := idx - 1;
    }
    return false;
  }

  function ExternalId(ref: string, id: string): string {
    if ref != "" then ref else "ext-" + id
  }

  /** Why a request fails: details for the history and the audit log, the error, the calls made. */
  datatype Failure = Failure(detail: string, auditDetail: string, err: Error, ext: seq<ExtCall>)

  function ChallengeFailure(i: Intent, window: int, resume: ResumeReply, verify: Reply,
                            authorize: AuthReply, now: Time): (f: Option<Failure>)
    ensures f.None? ==> authorize.AuthOk?
  {
    if Expired(i.history, window, now) then
      Some(Failure("3ds challenge timed out", "3ds timeout", ErrTimeout, [WindowCheck(i.id, false)]))
    else if !resume.ResumeOk? then
      Some(Failure("3ds verification failed: " + ResumeText(resume), ResumeText(resume), ResumeError(resume),
                   [WindowCheck(i.id, true), MpiResume(i.id, false)]))
    else if verify.Err? then
      Some(Failure("3ds verification failed: " + verify.msg, verify.msg, ErrText(verify.msg),
                   [WindowCheck(i.id, true), MpiResume(i.id, true), RailVerify(i.id, false)]))
    else if authorize.AuthErr? then
      Some(Failure("authorize failed after 3ds: " + authorize.msg, authorize.msg, ErrText(authorize.msg),
                   [WindowCheck(i.id, true), MpiResume(i.id, true), RailVerify(i.id, true),
                    RailAuthorize(i.id, false)]))
    else None
  }

  /** A failed challenge moves the intent to failed and then reports the error. */
  function ApplyChallenge(i: Intent, window: int, resume: ResumeReply, verify: Reply,
                          authorize: AuthReply, now: Time): Outcome
  {
    if !i.status.Status3DSPending? then Reject(i, ErrInvalidTransition)
    else
      var f := ChallengeFailure(i, window, resume, verify, authorize, now);
      if f.Some? then
        Outcome(Transition(i, StatusFailed, f.value.detail, now).intent, Some(f.value.err), [],
                [AuditEvent(i.id, i.status, StatusFailed, f.value.auditDetail, now)], f.value.ext)
      else
        var ext := [WindowCheck(i.id, true), MpiResume(i.id, true), RailVerify(i.id, true),
                    RailAuthorize(i.id, true)];
        var a := i.(externalId := ExternalId(authorize.ref, i.id));
        var t := Transition(a, StatusAuthorized, "3ds verified, authorized", now);
        if t.err.Some? then Outcome(t.intent, t.err, [], [], ext)
        else Outcome(t.intent, None, [],
                     [AuditEvent(i.id, i.status, StatusAuthorized, "3ds verified", now)], ext)
  }

  // --- webhooks --------------------------------------------------------------

  function ApplySettle(i: Intent, rail: Rail, amount: Int64, ref: string, now: Time): Outcome {
    if !i.status.StatusCaptured? then
      Outcome(AppendEvent(i, EventWebhook, RailName(rail) + ":settlement (ignored)", now),
              None, [], [], [])
    else
      var c := i.(settled := Add64(i.settled, amount));
      var row := Row(SettlementRow, i.id, amount, ref, now);
      var t := Transition(c, StatusSettled, "settled via webhook", now);
      if t.err.Some? then Outcome(t.intent, t.err, [row], [], [])
      else
        var audit := [AuditEvent(i.id, i.status, StatusSettled, "settlement", now)];
        if c.settled == c.captured then Outcome(t.intent, None, [row], audit, [])
        else
          Outcome(AppendEvent(t.intent, EventReconciliation,
                              "settled amount does not match captured amount", now),
                  None, [row],
                  audit + [AuditEvent(i.id, StatusSettled, StatusSettled, BreakDetail(c), now)], [])
  }

  function BreakDetail(i: Intent): string {
    "reconciliation break: captured=" + Numeric.Decimal(i.captured)
    + " settled=" + Numeric.Decimal(i.settled)
  }

  function ApplyOpenChargeback(i: Intent, rail: Rail, now: Time): Outcome {
    if !i.status.StatusCaptured? && !i.status.StatusSettled? then
      Outcome(AppendEvent(i, EventWebhook, RailName(rail) + ":chargeback (ignored)", now),
              None, [], [], [])
    else
      var t := Transition(i, StatusChargedBack, "chargeback opened", now);
      if t.err.Some? then Outcome(t.intent, t.err, [], [], [])
      else Outcome(t.intent, None, [],
                   [AuditEvent(i.id, i.status, StatusChargedBack, "chargeback opened", now)], [])
  }

  function ApplyReverse(i: Intent, amount: Int64, now: Time): Outcome {
    if !i.status.StatusChargedBack? then Outcome(i, None, [], [], [])
    else
      var outcome := if amount == 0 then StatusChargebackWon else StatusChargebackLost;
      var detail := if amount == 0 then "chargeback won" else "chargeback lost";
      var t := Transition(i, outcome, detail, now);
      if t.err.Some? then Outcome(t.intent, t.err, [], [], [])
      else Outcome(t.intent, None, [], [AuditEvent(i.id, i.status, outcome, detail, now)], [])
  }

  // --- creation --------------------------------------------------------------

  datatype CreateReq = CreateReq(
    idempotencyKey: string,
    rail: string,
    amount: Int64,
    currency: string,
    payerRef: string,
    threeDS: bool)

  datatype FraudReply = FraudAllow | FraudBlock(reason: string) | FraudErr(msg: string)
  datatype SubmitReply = SubmitOk(ref: string, settleAmount: Option<Int64>) | SubmitErr(msg: string)
  datatype CreateEnv = CreateEnv(fraud: FraudReply, submit: SubmitReply, authorize: AuthReply)

  /** What the create handler does: the intent it stores, the audit events it emits before storing,
      then (after the store) the rows it appends and the remaining audit events. */
  datatype Creation = Creation(
    intent: Intent,
    early: seq<AuditEvent>,
    rows: seq<Row>,
    late: seq<AuditEvent>,
    ext: seq<ExtCall>)

  predicate ValidCreate(req: CreateReq) {
    && req.idempotencyKey != ""
    && ParseRail(req.rail).Some?
    && req.amount > 0
    && req.currency != ""
    && req.payerRef != ""
    && (req.threeDS ==> ParseRail(req.rail) == Some(Card))
  }

  function Draft(req: CreateReq, id: string, now: Time): Intent
    requires ValidCreate(req)
  {
    Intent(id, ParseRail(req.rail).value, req.amount, req.currency, req.payerRef, StatusIntent,
           0, 0, 0, "", req.idempotencyKey, req.threeDS, [Event(EventCreated, "", now)])
  }

  /** Why the create handler ends in failed, if it does. */
  function CreateFailure(i: Intent, env: CreateEnv): (f: Option<Failure>)
    ensures f.None? ==> if IsInstant(i.rail) then env.submit.SubmitOk? else env.authorize.AuthOk?
  {
    match env.fraud
    case FraudErr(m) =>
      Some(Failure("fraud check failed: " + m, m, ErrText("fraud check failed"), [FraudScore(i.id, false)]))
    case FraudBlock(r) =>
      Some(Failure("blocked by fraud: " + r, "fraud blocked",
                   ErrText("intent blocked by fraud detection"), [FraudScore(i.id, false)]))
    case FraudAllow =>
      if IsInstant(i.rail) && env.submit.SubmitErr? then
        Some(Failure("submit failed: " + env.submit.msg, env.submit.msg, ErrText("submit failed"),
                     [FraudScore(i.id, true), RailSubmit(i.id, false, 0)]))
      else if !IsInstant(i.rail) && env.authorize.AuthErr? then
        Some(Failure("authorize failed: " + env.authorize.msg, env.authorize.msg,
                     ErrText("authorize failed"), [FraudScore(i.id, true), RailAuthorize(i.id, false)]))
      else None
  }

  /** 3DS intents wait for their challenge and skip the fraud gate; the others are scored first. */
  function Create(req: CreateReq, id: string, env: CreateEnv, now: Time): Creation
    requires ValidCreate(req)
  {
    var i := Draft(req, id, now);
    var f := CreateFailure(i, env);
    if req.threeDS then
      Creation(Transition(i, Status3DSPending, "3ds challenge required", now).intent, [], [],
               [AuditEvent(id, StatusIntent, Status3DSPending, "3ds required", now)], [])
    else if f.Some? then
      Creation(Transition(i, StatusFailed, f.value.detail, now).intent, [], [],
               [AuditEvent(id, StatusIntent, StatusFailed, f.value.auditDetail, now)], f.value.ext)
    else if IsInstant(i.rail) then
      CreateInstant(i, env.submit.ref, SubmittedAmount(i, env.submit.settleAmount), now)
    else
      var a := i.(externalId := ExternalId(env.authorize.ref, id));
      Creation(Transition(a, StatusAuthorized, "authorized by rail", now).intent, [], [],
               [AuditEvent(id, StatusIntent, StatusAuthorized, "authorized", now)],
               [FraudScore(id, true), RailAuthorize(id, true)])
  }

  /** The amount an instant rail captured: what it reports, or the whole amount. */
  function SubmittedAmount(i: Intent, settleAmount: Option<Int64>): Int64 {
    if settleAmount.Some? then settleAmount.value else i.amount
  }

  function CreateInstant(i: Intent, ref: string, amount: Int64, now: Time): Creation {
    var a := i.(externalId := ExternalId(ref, i.id), captured := amount);
    var t := Transition(a, StatusAuthorized, "instant rail authorized via submit", now).intent;
    var u := Transition(t, StatusCaptured, "instant rail captured via submit", now).intent;
    Creation(u, [AuditEvent(i.id, StatusIntent, StatusAuthorized, "instant authorize", now)],
             [Row(CaptureRow, i.id, amount, u.externalId, now)],
             [AuditEvent(i.id, StatusAuthorized, StatusCaptured, "instant submit", now)],
             [FraudScore(i.id, true), RailSubmit(i.id, true, amount)])
  }
}
