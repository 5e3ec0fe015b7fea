/** What each request on an intent comes to, told from the request and the answers it received alone:
    which requests are accepted, what they change, what they add to rows, audit log and calls, and the
    error of the others. Amounts here are true integers. */
module Decisions {
  import opened Domain
  import opened Engine
  import opened Ledger
  import opened History
  import Numeric

  /** The value a counter takes for a true sum. */
  function Stored64(n: int): int {
    if n > MAX64 then n - TWO64 else if n < MIN64 then n + TWO64 else n
  }

  /** The request changes nothing and decides nothing. */
  predicate Refused(i: Intent, o: Outcome, err: Error) {
    o.intent == i && o.err == Some(err) && o.rows == [] && o.audit == []
  }

  /** The intent enters a status, which its history records. */
  function Entering(i: Intent, next: Status, detail: string, now: Time): Intent {
    i.(status := next, history := i.history + [Event(Entered(next), detail, now)])
  }

  // --- captures --------------------------------------------------------------

  /** An authorized card payment is captured up to its amount; without an amount in the request, at once
      and whole. The last case is the sum that wraps past the guard. */
  predicate CaptureDue(i: Intent, req: Option<Int64>) {
    && i.rail.Card?
    && i.status.StatusAuthorized?
    && match req
       case Some(v) => 0 < v && i.captured + v <= i.amount
       case None => i.captured == 0 || i.captured + i.amount > MAX64
  }

  function CaptureRefusal(i: Intent, req: Option<Int64>): string {
    if !i.rail.Card? then "capture only supported for card rail"
    else if !i.status.StatusAuthorized? then "intent not in authorized state"
    else if req.Some? && req.value <= 0 then "capture amount must be positive"
    else "capture amount exceeds authorized amount"
  }

  lemma CaptureSucceedsExactly(i: Intent, req: Option<Int64>, reply: Reply, now: Time)
    requires LedgerOk(i)
    ensures var o := Apply(i, Capture(req, reply), now);
      && (o.err.None? <==> CaptureDue(i, req) && reply.Ok?)
      && (o.ext != [] <==> CaptureDue(i, req))
      && (!CaptureDue(i, req) ==> Refused(i, o, ErrText(CaptureRefusal(i, req))))
      && (CaptureDue(i, req) && reply.Err? ==> Refused(i, o, ErrText(reply.msg)))
  {
  }

  /** The captured amount grows by what was asked for, the whole amount if nothing was; the intent is
      captured when that reaches its amount, and stays authorized before. */
  lemma CaptureMovesAmount(i: Intent, req: Option<Int64>, now: Time)
    requires LedgerOk(i) && CaptureDue(i, req)
    ensures var o := Apply(i, Capture(req, Ok), now);
      var a := if req.Some? then req.value else i.amount;
      var j := i.(captured := Stored64(i.captured + a));
      && (i.captured + a <= MAX64 ==> j.captured == i.captured + a)
      && o.intent == (if j.captured >= i.amount then Entering(j, StatusCaptured, "captured", now)
           else j.(history := i.history + [Event(Entered(StatusCaptured), "partial capture", now)]))
      && o.rows == [Row(CaptureRow, i.id, a, i.externalId, now)]
      && o.ext == [RailCapture(i.id, true, a)]
      && o.audit == [if j.captured >= i.amount then AuditEvent(i.id, StatusAuthorized, StatusCaptured, "capture", now)
           else AuditEvent(i.id, StatusAuthorized, StatusAuthorized, "partial capture", now)]
  {
  }

  // --- voids -----------------------------------------------------------------

  lemma VoidExactly(i: Intent, reply: Reply, now: Time)
    ensures var o := Apply(i, Void(reply), now);
      if !i.status.StatusAuthorized? then Refused(i, o, ErrInvalidTransition) && o.ext == []
      else if reply.Err? then Refused(i, o, ErrText(reply.msg)) && o.ext == [RailVoid(i.id, false)]
      else o == Outcome(Entering(i, StatusVoided, "voided", now), None, [],
                        [AuditEvent(i.id, StatusAuthorized, StatusVoided, "void", now)], [RailVoid(i.id, true)])
  {
  }

  // --- refunds ---------------------------------------------------------------

  /** What a captured or settled payment has left is refunded; without an amount in the request, all that
      was captured, if nothing was refunded yet. The last case is the sum that wraps past the guard. */
  predicate RefundDue(i: Intent, req: Option<Int64>) {
    var a := if req.Some? then req.value else i.captured;
    && (i.status.StatusCaptured? || i.status.StatusSettled?)
    && 0 < a
    && (a <= i.captured - i.refunded || i.refunded + a > MAX64)
  }

  lemma RefundSucceedsExactly(i: Intent, req: Option<Int64>, reply: Reply, now: Time)
    requires LedgerOk(i)
    ensures var o := Apply(i, Refund(req, reply), now);
      && (o.err.None? <==> RefundDue(i, req) && reply.Ok? && i.status.StatusCaptured?)
      && (o.ext != [] <==> RefundDue(i, req))
      && (RefundDue(i, req) && reply.Err? ==> Refused(i, o, ErrText(reply.msg)))
      && (RefundDue(i, req) && reply.Ok? && i.status.StatusSettled? ==> o.err == Some(ErrTerminalState))
  {
  }

  lemma RefundRefused(i: Intent, req: Option<Int64>, reply: Reply, now: Time)
    requires LedgerOk(i) && !RefundDue(i, req)
    ensures Refused(i, Apply(i, Refund(req, reply), now),
                    if !i.status.StatusCaptured? && !i.status.StatusSettled? then ErrInvalidTransition
                    else if req.Some? && req.value <= 0 then ErrText("refund amount must be positive")
                    else ErrText("refund amount exceeds captured amount"))
  {
  }

  /** The refunded amount grows by what was asked for, all that was captured if nothing was. A captured
      intent is refunded; a settled one keeps its status. */
  lemma RefundMovesAmount(i: Intent, req: Option<Int64>, now: Time)
    requires LedgerOk(i) && RefundDue(i, req)
    ensures var o := Apply(i, Refund(req, Ok), now);
      var a := if req.Some? then req.value else i.captured;
      var j := i.(refunded := Stored64(i.refunded + a));
      && (i.refunded + a <= MAX64 ==> j.refunded == i.refunded + a)
      && o.rows == [Row(RefundRow, i.id, a, i.externalId, now)]
      && o.ext == [RailRefund(i.id, true, a)]
      && (if i.status.StatusSettled? then o.intent == j && o.audit == []
          else
            && o.intent == Entering(Entering(j, StatusRefunding, "refund initiated", now),
                                    StatusRefunded, "refunded", now)
            && o.audit == [AuditEvent(i.id, StatusCaptured, StatusRefunded, "refund", now)])
  {
  }

  /** A refund without an amount returns everything that was captured. */
  lemma DefaultRefundReturnsAll(i: Intent, now: Time)
    requires LedgerOk(i) && i.status.StatusCaptured?
    ensures var o := Apply(i, Refund(None, Ok), now);
      && o.err.None? && o.intent.status.StatusRefunded? && o.intent.refunded == i.captured
      && o.rows == [Row(RefundRow, i.id, i.captured, i.externalId, now)]
  {
    hide Apply;
    RefundSucceedsExactly(i, None, Ok, now);
    RefundMovesAmount(i, None, now);
  }

  /** A refund of a captured payment, of all or of part, is its only one. */
  lemma OneRefundOnly(i: Intent, req: Option<Int64>, now: Time, again: Option<Int64>, reply: Reply, later: Time)
    requires LedgerOk(i) && i.status.StatusCaptured? && RefundDue(i, req)
    ensures var j := Apply(i, Refund(req, Ok), now).intent;
      var o := Apply(j, Refund(again, reply), later);
      j.status.StatusRefunded? && Refused(j, o, ErrInvalidTransition) && o.ext == []
  {
    hide Apply;
    RefundMovesAmount(i, req, now);
    ApplyKeepsLedger(i, Refund(req, Ok), now);
    var j := Apply(i, Refund(req, Ok), now).intent;
    RefundRefused(j, again, reply, later);
    RefundSucceedsExactly(j, again, reply, later);
  }

  /** From any point of its captures, one request captures the rest of a card payment, and another returns
      the whole amount. */
  lemma CapturesFinish(i: Intent, now: Time, later: Time)
    requires LedgerOk(i) && i.rail.Card? && i.status.StatusAuthorized?
    ensures var req := if i.captured == 0 then None else Some(i.amount - i.captured);
      var o := Apply(i, Capture(req, Ok), now);
      var p := Apply(o.intent, Refund(None, Ok), later);
      && o.err.None? && o.intent.status.StatusCaptured? && o.intent.captured == i.amount
      && p.err.None? && p.intent.status.StatusRefunded? && p.intent.refunded == i.amount
  {
    hide Apply;
    var req := if i.captured == 0 then None else Some(i.amount - i.captured);
    CaptureSucceedsExactly(i, req, Ok, now);
    CaptureMovesAmount(i, req, now);
    ApplyKeepsLedger(i, Capture(req, Ok), now);
    DefaultRefundReturnsAll(Apply(i, Capture(req, Ok), now).intent, later);
  }

  // --- 3DS challenges --------------------------------------------------------

  /** Both the 3DS provider and the rail confirm the challenge, and the rail authorizes. */
  predicate ChallengePassed(resume: ResumeReply, verify: Reply, authorize: AuthReply) {
    resume.ResumeOk? && verify.Ok? && authorize.AuthOk?
  }

  /** The error of the first answer that is not a yes. */
  function FirstRefusal(resume: ResumeReply, verify: Reply, authorize: AuthReply): Error
    requires !ChallengePassed(resume, verify, authorize)
  {
    match resume
    case ResumeTimeout => ErrTimeout
    case ResumeErr(m) => ErrText(m)
    case ResumeOk =>
      if verify.Err? then ErrText(verify.msg) else ErrText(authorize.msg)
  }

  /** A pending challenge in its window authorizes the intent if all three answers are yes, and otherwise
      fails it with the error of the first no; after its window it fails the intent. */
  lemma ChallengeAuthorizesExactly(i: Intent, window: int, resume: ResumeReply, verify: Reply,
                                   authorize: AuthReply, now: Time)
    ensures var o := Apply(i, Challenge(window, resume, verify, authorize), now);
      var late := Expired(i.history, window, now);
      && o.rows == []
      && (!i.status.Status3DSPending? ==> Refused(i, o, ErrInvalidTransition) && o.ext == [])
      && (i.status.Status3DSPending? ==>
            && (o.err.None? <==> !late && ChallengePassed(resume, verify, authorize))
            && (o.intent.status.StatusAuthorized? <==> o.err.None?)
            && (o.intent.status.StatusFailed? <==> o.err.Some?)
            && (late ==> o.err == Some(ErrTimeout))
            && (!late && o.err.Some? ==> o.err == Some(FirstRefusal(resume, verify, authorize))))
  {
  }

  lemma ChallengePasses(i: Intent, window: int, resume: ResumeReply, verify: Reply, authorize: AuthReply, now: Time)
    requires i.status.Status3DSPending? && !Expired(i.history, window, now)
    requires ChallengePassed(resume, verify, authorize)
    ensures Apply(i, Challenge(window, resume, verify, authorize), now)
      == Outcome(Entering(i.(externalId := if authorize.ref == "" then "ext-" + i.id else authorize.ref),
                          StatusAuthorized, "3ds verified, authorized", now),
                 None, [], [AuditEvent(i.id, Status3DSPending, StatusAuthorized, "3ds verified", now)],
                 [WindowCheck(i.id, true), MpiResume(i.id, true), RailVerify(i.id, true), RailAuthorize(i.id, true)])
  {
  }

  /** A challenge that does not pass makes the calls up to the first no, and says why. */
  lemma ChallengeFails(i: Intent, window: int, resume: ResumeReply, verify: Reply, authorize: AuthReply, now: Time)
    requires i.status.Status3DSPending?
    requires Expired(i.history, window, now) || !ChallengePassed(resume, verify, authorize)
    ensures var o := Apply(i, Challenge(window, resume, verify, authorize), now);
      var (detail, reason, calls) :=
        if Expired(i.history, window, now) then ("3ds challenge timed out", "3ds timeout", [WindowCheck(i.id, false)])
        else if resume.ResumeTimeout? then
          ("3ds verification failed: " + "3ds challenge timed out", "3ds challenge timed out",
           [WindowCheck(i.id, true), MpiResume(i.id, false)])
        else if resume.ResumeErr? then
          ("3ds verification failed: " + resume.msg, resume.msg, [WindowCheck(i.id, true), MpiResume(i.id, false)])
        else if verify.Err? then
          ("3ds verification failed: " + verify.msg, verify.msg,
           [WindowCheck(i.id, true), MpiResume(i.id, true), RailVerify(i.id, false)])
        else
          ("authorize failed after 3ds: " + authorize.msg, authorize.msg,
           [WindowCheck(i.id, true), MpiResume(i.id, true), RailVerify(i.id, true), RailAuthorize(i.id, false)]);
      && o.intent == Entering(i, StatusFailed, detail, now)
      && o.audit == [AuditEvent(i.id, Status3DSPending, StatusFailed, reason, now)]
      && o.ext == calls
  {
  }

  // --- updates by webhooks ---------------------------------------------------

  /** A captured intent is settled with the amount reported, whatever that is, and a break is recorded
      exactly if it differs from what was captured; an intent in another status only notes the event. */
  lemma SettleExactly(i: Intent, rail: Rail, amount: Int64, ref: string, now: Time)
    requires i.status.StatusCaptured? ==> i.settled == 0
    ensures var o := Apply(i, Settle(rail, amount, ref), now);
      && o.err.None? && o.ext == []
      && (!i.status.StatusCaptured? ==>
            && o.intent == i.(history := i.history + [Event(EventWebhook, RailName(rail) + ":settlement (ignored)", now)])
            && o.rows == [] && o.audit == [])
      && (i.status.StatusCaptured? ==>
            var j := Entering(i.(settled := amount), StatusSettled, "settled via webhook", now);
            var broken := Event(EventReconciliation, "settled amount does not match captured amount", now);
            && o.rows == [Row(SettlementRow, i.id, amount, ref, now)]
            && o.intent == (if amount == i.captured then j else j.(history := j.history + [broken]))
            && o.audit == [AuditEvent(i.id, StatusCaptured, StatusSettled, "settlement", now)]
                 + (if amount == i.captured then []
                    else [AuditEvent(i.id, StatusSettled, StatusSettled,
                                     "reconciliation break: captured=" + Numeric.Decimal(i.captured)
                                     + " settled=" + Numeric.Decimal(amount), now)]))
  {
    hide Numeric.Decimal;
    assert Add64(0, amount) == amount;
  }

  lemma OpenChargebackExactly(i: Intent, rail: Rail, now: Time)
    ensures var o := Apply(i, OpenChargeback(rail), now);
      && o.rows == [] && o.ext == []
      && match i.status
         case StatusCaptured =>
           && o.err.None? && o.intent == Entering(i, StatusChargedBack, "chargeback opened", now)
           && o.audit == [AuditEvent(i.id, StatusCaptured, StatusChargedBack, "chargeback opened", now)]
         case StatusSettled => Refused(i, o, ErrTerminalState)
         case _ =>
           && o.err.None? && o.audit == []
           && o.intent == i.(history := i.history + [Event(EventWebhook, RailName(rail) + ":chargeback (ignored)", now)])
  {
  }

  /** The reversal decides a charged-back intent, for the merchant if nothing is kept back, and passes any
      other by. */
  lemma ReverseExactly(i: Intent, amount: Int64, now: Time)
    ensures Apply(i, ReverseChargeback(amount), now)
      == if !i.status.StatusChargedBack? then Outcome(i, None, [], [], [])
         else if amount == 0 then
           Outcome(Entering(i, StatusChargebackWon, "chargeback won", now), None, [],
                   [AuditEvent(i.id, StatusChargedBack, StatusChargebackWon, "chargeback won", now)], [])
         else
           Outcome(Entering(i, StatusChargebackLost, "chargeback lost", now), None, [],
                   [AuditEvent(i.id, StatusChargedBack, StatusChargebackLost, "chargeback lost", now)], [])
  {
  }

  // --- the calls that are logged ---------------------------------------------

  /** The call got the answer that came with the request, and was due: every call before it got a yes. */
  predicate Answered(op: Op, c: ExtCall) {
    match c
    case RailCapture(_, ok, _) => op.Capture? && ok == op.reply.Ok?
    case RailVoid(_, ok) => op.Void? && ok == op.reply.Ok?
    case RailRefund(_, ok, _) => op.Refund? && ok == op.reply.Ok?
    case WindowCheck(_, _) => op.Challenge?
    case MpiResume(_, ok) => op.Challenge? && ok == op.resume.ResumeOk?
    case RailVerify(_, ok) => op.Challenge? && op.resume.ResumeOk? && ok == op.verify.Ok?
    case RailAuthorize(_, ok) =>
      op.Challenge? && op.resume.ResumeOk? && op.verify.Ok? && ok == op.authorize.AuthOk?
    case _ => false
  }

  predicate CreateAnswered(req: CreateReq, env: CreateEnv, c: ExtCall) {
    match c
    case FraudScore(_, allowed) => allowed == env.fraud.FraudAllow?
    case RailSubmit(_, ok, amount) =>
      && env.fraud.FraudAllow? && ok == env.submit.SubmitOk?
      && (ok ==> amount == if env.submit.settleAmount.Some? then env.submit.settleAmount.value else req.amount)
    case RailAuthorize(_, ok) => env.fraud.FraudAllow? && ok == env.authorize.AuthOk?
    case _ => false
  }

  /** What is logged as answered is what was answered. */
  lemma CallsRecordReplies(i: Intent, op: Op, now: Time)
    ensures forall c <- Apply(i, op, now).ext :: c.id == i.id && Answered(op, c)
    ensures forall c <- Apply(i, op, now).ext ::
      c.WindowCheck? ==> op.Challenge? && c.onTime == !Expired(i.history, op.window, now)
  {
    if op.Challenge? {
      ChallengeRecordsReplies(i, op, now);
    } else if op.Capture? || op.Void? || op.Refund? {
      EndpointRecordsReply(i, op, now);
    } else {
      WebhooksCallNobody(i, op, now);
    }
  }

  lemma ChallengeRecordsReplies(i: Intent, op: Op, now: Time)
    requires op.Challenge?
    ensures forall c <- Apply(i, op, now).ext :: c.id == i.id && Answered(op, c)
    ensures forall c <- Apply(i, op, now).ext :: c.WindowCheck? ==> c.onTime == !Expired(i.history, op.window, now)
  {
    hide Apply;
    ChallengeAuthorizesExactly(i, op.window, op.resume, op.verify, op.authorize, now);
    if i.status.Status3DSPending? {
      if Expired(i.history, op.window, now) || !ChallengePassed(op.resume, op.verify, op.authorize) {
        ChallengeFails(i, op.window, op.resume, op.verify, op.authorize, now);
      } else {
        ChallengePasses(i, op.window, op.resume, op.verify, op.authorize, now);
      }
    }
  }

  lemma EndpointRecordsReply(i: Intent, op: Op, now: Time)
    requires op.Capture? || op.Void? || op.Refund?
    ensures forall c <- Apply(i, op, now).ext :: c.id == i.id && Answered(op, c) && !c.WindowCheck?
  {
    hide Transition, CaptureAllowed, RefundAllowed;
  }

  lemma WebhooksCallNobody(i: Intent, op: Op, now: Time)
    requires op.Settle? || op.OpenChargeback? || op.ReverseChargeback? || op.Note?
    ensures Apply(i, op, now).ext == []
  {
    hide BreakDetail;
  }

  lemma CreateCallsRecordReplies(req: CreateReq, id: string, env: CreateEnv, now: Time)
    requires ValidCreate(req)
    ensures forall c <- Create(req, id, env, now).ext :: c.id == id && CreateAnswered(req, env, c)
  {
    hide Create;
    var i := CreatesExactly(req, id, env, now);
  }

  // --- creation --------------------------------------------------------------

  /** The requests that are accepted at all. */
  lemma ValidExactly(req: CreateReq)
    ensures ValidCreate(req)
       <==> && req.rail in {"card", "ach", "sepa", "pix", "upi"}
            && req.amount > 0
            && req.idempotencyKey != "" && req.currency != "" && req.payerRef != ""
            && (req.threeDS ==> req.rail == "card")
  {
  }

  /** The intent before anything was decided about it. */
  predicate Blank(i: Intent, req: CreateReq, id: string, now: Time) {
    && i.id == id && RailName(i.rail) == req.rail && i.amount == req.amount && i.currency == req.currency
    && i.payerRef == req.payerRef && i.idempotencyKey == req.idempotencyKey && i.threeDS == req.threeDS
    && i.status.StatusIntent? && i.captured == 0 && i.refunded == 0 && i.settled == 0 && i.externalId == ""
    && i.history == [Event(EventCreated, "", now)]
  }

  /** A creation that ends at once in a status, with these calls. */
  function EndsIn(i: Intent, next: Status, detail: string, reason: string, now: Time, ext: seq<ExtCall>): Creation {
    Creation(Entering(i, next, detail, now), [], [], [AuditEvent(i.id, StatusIntent, next, reason, now)], ext)
  }

  /** What a creation comes to: a 3DS intent waits, and any other is failed unless the fraud service allows
      it and the rail submits or authorizes it. */
  lemma CreatesExactly(req: CreateReq, id: string, env: CreateEnv, now: Time) returns (i: Intent)
    requires ValidCreate(req)
    ensures Blank(i, req, id, now)
    ensures Create(req, id, env, now)
      == if req.threeDS then EndsIn(i, Status3DSPending, "3ds challenge required", "3ds required", now, [])
         else match env.fraud
           case FraudErr(m) => EndsIn(i, StatusFailed, "fraud check failed: " + m, m, now, [FraudScore(id, false)])
           case FraudBlock(r) =>
             EndsIn(i, StatusFailed, "blocked by fraud: " + r, "fraud blocked", now, [FraudScore(id, false)])
           case FraudAllow =>
             if req.rail == "pix" || req.rail == "upi" then Submitted(i, env.submit, now)
             else Authorized(i, env.authorize, now)
  {
    i := Draft(req, id, now);
  }

  /** ACH, SEPA and cards without 3DS. */
  function Authorized(i: Intent, reply: AuthReply, now: Time): Creation {
    match reply
    case AuthErr(m) =>
      EndsIn(i, StatusFailed, "authorize failed: " + m, m, now, [FraudScore(i.id, true), RailAuthorize(i.id, false)])
    case AuthOk(ref) =>
      EndsIn(i.(externalId := if ref == "" then "ext-" + i.id else ref), StatusAuthorized, "authorized by rail",
             "authorized", now, [FraudScore(i.id, true), RailAuthorize(i.id, true)])
  }

  /** PIX and UPI: what the rail reports is captured at once, the whole amount if it reports nothing. */
  function Submitted(i: Intent, reply: SubmitReply, now: Time): Creation {
    match reply
    case SubmitErr(m) =>
      EndsIn(i, StatusFailed, "submit failed: " + m, m, now, [FraudScore(i.id, true), RailSubmit(i.id, false, 0)])
    case SubmitOk(ref, reported) =>
      var a := if reported.Some? then reported.value else i.amount;
      var x := if ref == "" then "ext-" + i.id else ref;
      var j := Entering(i.(externalId := x, captured := a), StatusAuthorized, "instant rail authorized via submit", now);
      Creation(Entering(j, StatusCaptured, "instant rail captured via submit", now),
               [AuditEvent(i.id, StatusIntent, StatusAuthorized, "instant authorize", now)],
               [Row(CaptureRow, i.id, a, x, now)],
               [AuditEvent(i.id, StatusAuthorized, StatusCaptured, "instant submit", now)],
               [FraudScore(i.id, true), RailSubmit(i.id, true, a)])
  }

  // --- transitions -----------------------------------------------------------

  /** The lifecycle: every change of status that an intent can make. */
  const LIFECYCLE: set<(Status, Status)> :=
    {(StatusIntent, StatusAuthorized), (StatusIntent, Status3DSPending), (StatusIntent, StatusFailed),
     (StatusAuthorized, StatusCaptured), (StatusAuthorized, Status3DSPending), (StatusAuthorized, StatusVoided),
     (StatusAuthorized, StatusFailed),
     (Status3DSPending, StatusAuthorized), (Status3DSPending, StatusFailed),
     (StatusCaptured, StatusSettled), (StatusCaptured, StatusRefunding), (StatusCaptured, StatusRefunded),
     (StatusCaptured, StatusChargedBack),
     (StatusRefunding, StatusRefunded), (StatusRefunding, StatusFailed),
     (StatusChargedBack, StatusChargebackWon), (StatusChargedBack, StatusChargebackLost)}

  /** A transition follows the lifecycle, or changes nothing: then its error says whether any transition
      was possible from there at all. */
  lemma TransitionsFollowLifecycle(i: Intent, next: Status, detail: string, now: Time)
    ensures var t := Transition(i, next, detail, now);
      if (i.status, next) in LIFECYCLE then t == Transitioned(Entering(i, next, detail, now), None)
      else
        && t.intent == i
        && t.err == Some(if exists s :: (i.status, s) in LIFECYCLE then ErrInvalidTransition else ErrTerminalState)
  {
    if !IsTerminal(i.status) {
      var s := match i.status
        case StatusIntent => StatusFailed
        case StatusAuthorized => StatusFailed
        case Status3DSPending => StatusFailed
        case StatusCaptured => StatusSettled
        case StatusRefunding => StatusFailed
        case _ => StatusChargebackWon;
      assert (i.status, s) in LIFECYCLE;
    }
  }
}
