/** What a client of the HTTP interface is answered, and what its request leaves in the store, told from the
    request and the store it found. */
module Answers {
  import opened Domain
  import opened Engine
  import opened Ledger
  import D = Decisions
  import S = Service
  import W = World

  /** The status that a payment endpoint answers. */
  function Status(w: W.World, id: string, op: Op, now: Time): int {
    S.StatusOf(S.UpdateError(w.intents, id, op, now))
  }

  ghost predicate SoundAt(w: W.World, id: string) {
    id in w.intents ==> LedgerOk(w.intents[id])
  }

  lemma CaptureStatus(w: W.World, id: string, req: Option<Int64>, reply: Reply, now: Time)
    requires SoundAt(w, id)
    ensures Status(w, id, Capture(req, reply), now)
      == if id !in w.intents then 404 else if D.CaptureDue(w.intents[id], req) && reply.Ok? then 200 else 502
  {
    hide Apply;
    if id in w.intents {
      D.CaptureSucceedsExactly(w.intents[id], req, reply, now);
    }
  }

  lemma VoidStatus(w: W.World, id: string, reply: Reply, now: Time)
    ensures Status(w, id, Void(reply), now)
      == if id !in w.intents then 404 else if !w.intents[id].status.StatusAuthorized? then 409
         else if reply.Ok? then 200 else 502
  {
    hide Apply;
    if id in w.intents {
      D.VoidExactly(w.intents[id], reply, now);
    }
  }

  /** The refund of a settled payment is answered as a conflict although the rail carried it out. */
  lemma RefundStatus(w: W.World, id: string, req: Option<Int64>, reply: Reply, now: Time)
    requires SoundAt(w, id)
    ensures Status(w, id, Refund(req, reply), now)
      == if id !in w.intents then 404
         else
           var i := w.intents[id];
           if !i.status.StatusCaptured? && !i.status.StatusSettled? then 409
           else if !D.RefundDue(i, req) || reply.Err? then 502
           else if i.status.StatusSettled? then 409 else 200
  {
    hide Apply;
    if id in w.intents {
      D.RefundSucceedsExactly(w.intents[id], req, reply, now);
      if !D.RefundDue(w.intents[id], req) {
        D.RefundRefused(w.intents[id], req, reply, now);
      }
    }
  }

  lemma ChallengeStatus(w: W.World, id: string, window: int, resume: ResumeReply, verify: Reply,
                        authorize: AuthReply, now: Time)
    ensures Status(w, id, Challenge(window, resume, verify, authorize), now)
      == if id !in w.intents then 404
         else
           var i := w.intents[id];
           if !i.status.Status3DSPending? || Expired(i.history, window, now) || resume.ResumeTimeout? then 409
           else if D.ChallengePassed(resume, verify, authorize) then 200 else 502
  {
    hide Apply;
    if id in w.intents {
      D.ChallengeAuthorizesExactly(w.intents[id], window, resume, verify, authorize, now);
    }
  }

  /** What a creation is answered: which requests are bad, which are blocked, and which fail at a service. */
  lemma CreationStatus(req: CreateReq, env: CreateEnv)
    ensures var bad := req.rail !in {"card", "ach", "sepa", "pix", "upi"} || req.amount <= 0
              || req.idempotencyKey == "" || req.currency == "" || req.payerRef == ""
              || (req.threeDS && req.rail != "card");
      var taken := if req.rail == "pix" || req.rail == "upi" then env.submit.SubmitOk? else env.authorize.AuthOk?;
      S.CreateStatus(req, env)
      == if bad then 400
         else if req.threeDS || (env.fraud.FraudAllow? && taken) then 201
         else if env.fraud.FraudBlock? then 403
         else 502
  {
    hide ValidCreate;
    D.ValidExactly(req);
    if ValidCreate(req) {
      InstantNames(req);
    }
  }

  lemma InstantNames(req: CreateReq)
    requires ValidCreate(req)
    ensures ParseRail(req.rail).Some?
    ensures IsInstant(ParseRail(req.rail).value) <==> req.rail == "pix" || req.rail == "upi"
  {
  }

  // --- what stays in the store -----------------------------------------------

  /** An endpoint changes the intent, appends the row decided on, if any, and adds to the logs; nothing else
      in the store differs. */
  lemma EndpointLeaves(w: W.World, id: string, op: Op, now: Time)
    requires id in w.intents
    ensures var o := Apply(w.intents[id], op, now);
      var v := w.(intents := w.intents[id := o.intent], audit := w.audit + o.audit, ext := w.ext + o.ext);
      && |o.rows| <= 1
      && W.RunAll(w, [W.Update(id, op, now)]) == if o.rows == [] then v else W.AddRow(v, o.rows[0])
  {
    hide Apply;
    S.UpdateRuns(w, id, op, now);
  }

  /** A creation stores the intent and its capture, if any. */
  lemma CreationLeaves(w: W.World, req: CreateReq, id: string, env: CreateEnv, now: Time)
    requires ValidCreate(req) && id !in w.intents
    ensures var c := Create(req, id, env, now);
      var v := w.(intents := w.intents[id := c.intent], audit := w.audit + c.early, ext := w.ext + c.ext);
      && |c.rows| <= 1
      && W.RunAll(w, [W.Post(req, id, env, now)])
         == var u := if c.rows == [] then v else W.AddRow(v, c.rows[0]); u.(audit := u.audit + c.late)
  {
    hide Create;
    S.PostRuns(w, req, id, env, now);
    S.CreatedId(req, id, env, now);
  }
}
