/** Nothing is authorized or submitted at a rail without the fraud service having allowed it or, for
    3DS intents, without a timely challenge that the 3DS provider and the rail both accepted. */
module Gate {
  import opened Domain
  import opened Engine
  import opened History
  import D = Decisions
  import opened Runs
  import W = World

  // --- the challenge window --------------------------------------------------

  predicate IsPending(e: Event) {
    e.typ == Entered(Status3DSPending)
  }

  lemma {:induction false} NoneWithoutChallenge(h: seq<Event>)
    requires Read(h).challenges == 0
    ensures forall e <- h :: !IsPending(e)
    ensures LastPending(h).None?
    decreases |h|
  {
    if h != [] {
      NoneWithoutChallenge(h[..|h| - 1]);
    }
  }

  /** A history with one 3ds_pending event: the backward scan finds it. */
  lemma {:induction false} ScanFindsEntry(h: seq<Event>) returns (k: nat)
    requires Read(h).challenges == 1
    ensures k < |h| && IsPending(h[k]) && LastPending(h) == Some(h[k])
    ensures forall j :: 0 <= j < |h| && IsPending(h[j]) ==> j == k
    decreases |h|
  {
    var init, e := h[..|h| - 1], h[|h| - 1];
    if IsPending(e) {
      NoneWithoutChallenge(init);
      k := |h| - 1;
    } else {
      k := ScanFindsEntry(init);
    }
  }

  /** In every run, an intent waiting for its challenge entered that status once, and its challenge
      has expired exactly when more than the window has passed since. */
  lemma ExpiryCountsFromEntry(ms: seq<W.Move>, id: string, window: int, now: Time) returns (k: nat)
    requires var w := W.Run(W.START, ms).world;
      id in w.intents && w.intents[id].status.Status3DSPending?
    ensures var h := W.Run(W.START, ms).world.intents[id].history;
      && k < |h| && IsPending(h[k])
      && (forall j :: 0 <= j < |h| && IsPending(h[j]) ==> j == k)
      && (Expired(h, window, now) <==> window > 0 && Since(now, h[k].at) > window)
  {
    RunKeyed(W.START, ms);
    k := ScanFindsEntry(W.Run(W.START, ms).world.intents[id].history);
  }

  // --- evidence --------------------------------------------------------------

  predicate IsGated(c: ExtCall) {
    c.RailAuthorize? || c.RailSubmit?
  }

  ghost predicate Allowed(log: seq<ExtCall>, id: string) {
    FraudScore(id, true) in log
  }

  ghost predicate Challenged(log: seq<ExtCall>, id: string) {
    exists a, b, c ::
      0 <= a < b < c < |log|
      && log[a] == WindowCheck(id, true) && log[b] == MpiResume(id, true) && log[c] == RailVerify(id, true)
  }

  ghost predicate Cleared(log: seq<ExtCall>, id: string, threeDS: bool) {
    if threeDS then Challenged(log, id) else Allowed(log, id)
  }

  /** Every authorization of an intent in the log comes after its clearance. */
  ghost predicate Gated(log: seq<ExtCall>, id: string, threeDS: bool) {
    forall k :: 0 <= k < |log| && IsGated(log[k]) && log[k].id == id ==> Cleared(log[..k], id, threeDS)
  }

  lemma ClearedSuffix(log: seq<ExtCall>, more: seq<ExtCall>, id: string, threeDS: bool)
    requires Cleared(more, id, threeDS)
    ensures Cleared(log + more, id, threeDS)
  {
    var all := log + more;
    if threeDS {
      var a, b, c :|
        0 <= a < b < c < |more| && more[a] == WindowCheck(id, true)
        && more[b] == MpiResume(id, true) && more[c] == RailVerify(id, true);
      var n := |log|;
      assert all[n + a] == WindowCheck(id, true) && all[n + b] == MpiResume(id, true)
          && all[n + c] == RailVerify(id, true);
    } else {
      assert FraudScore(id, true) in all;
    }
  }

  lemma GatedConcat(log: seq<ExtCall>, more: seq<ExtCall>, id: string, threeDS: bool)
    requires Gated(log, id, threeDS) && Gated(more, id, threeDS)
    ensures Gated(log + more, id, threeDS)
  {
    var all := log + more;
    forall k | 0 <= k < |all| && IsGated(all[k]) && all[k].id == id
      ensures Cleared(all[..k], id, threeDS)
    {
      if k < |log| {
        assert all[..k] == log[..k];
      } else {
        assert all[..k] == log + more[..k - |log|];
        ClearedSuffix(log, more[..k - |log|], id, threeDS);
      }
    }
  }

  // --- one request -----------------------------------------------------------

  lemma NoGatedCalls(log: seq<ExtCall>, id: string, threeDS: bool)
    requires forall c <- log :: !IsGated(c) || c.id != id
    ensures Gated(log, id, threeDS)
  {
  }

  lemma ApplyGated(i: Intent, op: Op, now: Time)
    requires HistoryOk(i)
    ensures Gated(Apply(i, op, now).ext, i.id, i.threeDS)
  {
    if op.Challenge? {
      ChallengeGated(i, op, now);
    } else {
      NoGatedCalls(Apply(i, op, now).ext, i.id, i.threeDS);
    }
  }

  lemma ChallengeGated(i: Intent, op: Op, now: Time)
    requires HistoryOk(i) && op.Challenge?
    ensures Gated(Apply(i, op, now).ext, i.id, i.threeDS)
  {
    var ext := Apply(i, op, now).ext;
    if i.status.Status3DSPending? && |ext| == 4 {
      assert ext[0] == WindowCheck(i.id, true) && ext[1] == MpiResume(i.id, true)
          && ext[2] == RailVerify(i.id, true) && ext[3].RailAuthorize?;
      var before := ext[..3];
      assert before[0] == ext[0] && before[1] == ext[1] && before[2] == ext[2];
      assert Challenged(before, i.id);
    }
  }

  lemma CreateGated(req: CreateReq, id: string, env: CreateEnv, now: Time)
    requires ValidCreate(req)
    ensures var c := Create(req, id, env, now); Gated(c.ext, id, req.threeDS) && c.intent.threeDS == req.threeDS
  {
    var ext := Create(req, id, env, now).ext;
    if |ext| == 2 {
      assert ext[..1][0] == FraudScore(id, true);
    }
  }

  // --- every run -------------------------------------------------------------

  ghost predicate AllGated(w: W.World) {
    && (forall id <- w.intents :: Gated(w.ext, id, w.intents[id].threeDS))
    && (forall c <- w.ext :: c.id in w.intents)
  }

  lemma ExecGated(w: W.World, a: W.Act)
    requires Keyed(w) && AllGated(w)
    ensures AllGated(W.Exec(w, a).world)
  {
    if a.Post? {
      if ValidCreate(a.req) && a.id !in w.intents {
        var c := Create(a.req, a.id, a.env, a.now);
        CreateGated(a.req, a.id, a.env, a.now);
        W.CreateCalls(a.req, a.id, a.env, a.now);
        AddCalls(w, a.id, c.intent, w.audit + c.early, c.ext);
      }
    } else if a.Update? {
      if a.id in w.intents {
        var o := Apply(w.intents[a.id], a.op, a.now);
        ApplyGated(w.intents[a.id], a.op, a.now);
        ApplyKeepsHistory(w.intents[a.id], a.op, a.now);
        W.ApplyCalls(w.intents[a.id], a.op, a.now);
        AddCalls(w, a.id, o.intent, w.audit + o.audit, o.ext);
      }
    } else {
      ExecOther(w, a);
    }
  }

  lemma AddCalls(w: W.World, id: string, i: Intent, audit: seq<AuditEvent>, ext: seq<ExtCall>)
    requires AllGated(w) && W.CallsOf(ext, id) && Gated(ext, id, i.threeDS)
    requires id in w.intents ==> w.intents[id].threeDS == i.threeDS
    ensures AllGated(w.(intents := w.intents[id := i], audit := audit, ext := w.ext + ext))
  {
    var v := w.(intents := w.intents[id := i], audit := audit, ext := w.ext + ext);
    forall other | other in v.intents ensures Gated(v.ext, other, v.intents[other].threeDS) {
      var threeDS := v.intents[other].threeDS;
      if other !in w.intents {
        NoGatedCalls(w.ext, other, threeDS);
      }
      if other != id {
        NoGatedCalls(ext, other, threeDS);
      }
      GatedConcat(w.ext, ext, other, threeDS);
    }
  }

  /** In every interleaving, each authorization or submission at a rail is preceded by a fraud
      allowance for that intent or, for a 3DS intent, by its timely and twice verified challenge. */
  lemma {:induction false} RunGated(ms: seq<W.Move>)
    ensures AllGated(W.Run(W.START, ms).world)
    decreases |ms|
  {
    if ms != [] {
      var init, m := ms[..|ms| - 1], ms[|ms| - 1];
      RunGated(init);
      RunKeyed(W.START, init);
      var s := W.Run(W.START, init);
      if m.Advance? && m.task < |s.tasks| && s.tasks[m.task] != [] {
        ExecGated(s.world, s.tasks[m.task][0]);
      }
    }
  }

  // --- every logged answer was given -----------------------------------------

  /** The actions that a run executes, in order. */
  function Performed(ms: seq<W.Move>): seq<W.Act> {
    if ms == [] then []
    else
      var init, m := ms[..|ms| - 1], ms[|ms| - 1];
      var s := W.Run(W.START, init);
      Performed(init) + (if m.Advance? && m.task < |s.tasks| && s.tasks[m.task] != [] then [s.tasks[m.task][0]] else [])
  }

  /** The call was made by this action, and got the answer that came with it. */
  predicate Got(a: W.Act, c: ExtCall) {
    || (a.Post? && a.id == c.id && D.CreateAnswered(a.req, a.env, c))
    || (a.Update? && a.id == c.id && D.Answered(a.op, c))
  }

  ghost predicate Gotten(log: seq<ExtCall>, acts: seq<W.Act>) {
    forall c <- log :: exists a :: a in acts && Got(a, c)
  }

  lemma ExecGets(w: W.World, a: W.Act)
    requires Keyed(w)
    ensures w.ext <= W.Exec(w, a).world.ext
    ensures forall c <- W.Exec(w, a).world.ext[|w.ext|..] :: Got(a, c)
  {
    hide Create, Apply, W.ExecDeliver, D.Answered, D.CreateAnswered;
    match a
    case Post(req, id, env, now) =>
      if ValidCreate(req) && id !in w.intents {
        D.CreateCallsRecordReplies(req, id, env, now);
      }
    case Update(id, op, now) =>
      if id in w.intents {
        D.CallsRecordReplies(w.intents[id], op, now);
      }
    case _ => ExecOther(w, a);
  }

  lemma GottenConcat(log: seq<ExtCall>, more: seq<ExtCall>, acts: seq<W.Act>, a: W.Act)
    requires Gotten(log, acts) && forall c <- more :: Got(a, c)
    ensures Gotten(log + more, acts + [a])
  {
    forall c | c in log + more ensures exists b :: b in acts + [a] && Got(b, c) {
      if c in log {
        var b :| b in acts && Got(b, c);
        assert b in acts + [a];
      } else {
        assert a in acts + [a];
      }
    }
  }

  /** In every interleaving, each answer in the log is one that a rail, the 3DS provider or the fraud service
      gave to a request of the run: no refusal is ever taken for an approval. */
  lemma {:induction false} RunRecordsReplies(ms: seq<W.Move>)
    ensures Gotten(W.Run(W.START, ms).world.ext, Performed(ms))
    decreases |ms|
  {
    if ms != [] {
      hide W.Exec, Gotten, Got;
      var init, m := ms[..|ms| - 1], ms[|ms| - 1];
      RunRecordsReplies(init);
      RunKeyed(W.START, init);
      var s := W.Run(W.START, init);
      if m.Advance? && m.task < |s.tasks| && s.tasks[m.task] != [] {
        var a := s.tasks[m.task][0];
        ExecGets(s.world, a);
        var ext := W.Exec(s.world, a).world.ext;
        assert ext == s.world.ext + ext[|s.world.ext|..];
        GottenConcat(s.world.ext, ext[|s.world.ext|..], Performed(init), a);
      }
    }
  }

  // --- who is scored for fraud -----------------------------------------------

  ghost predicate Scored(log: seq<ExtCall>, id: string) {
    exists c :: c in log && c.FraudScore? && c.id == id
  }

  lemma ScoredConcat(log: seq<ExtCall>, more: seq<ExtCall>, id: string)
    ensures Scored(log + more, id) <==> Scored(log, id) || Scored(more, id)
  {
    assert forall c :: c in log + more <==> c in log || c in more;
  }

  /** Scored are exactly the stored intents without 3DS. */
  ghost predicate ScoredRight(w: W.World) {
    forall id :: Scored(w.ext, id) <==> id in w.intents && !w.intents[id].threeDS
  }

  lemma ApplyScoresNothing(i: Intent, op: Op, now: Time)
    ensures forall id :: !Scored(Apply(i, op, now).ext, id)
    ensures Apply(i, op, now).intent.threeDS == i.threeDS
  {
    hide ApplyChallenge, BreakDetail;
    if op.Challenge? {
      ChallengeScoresNothing(i, op, now);
    }
  }

  lemma ChallengeScoresNothing(i: Intent, op: Op, now: Time)
    requires op.Challenge?
    ensures forall c <- Apply(i, op, now).ext :: !c.FraudScore?
    ensures Apply(i, op, now).intent.threeDS == i.threeDS
  {
    W.ChallengeExt(i, op.window, op.resume, op.verify, op.authorize, now);
  }

  lemma CreateScores(req: CreateReq, id: string, env: CreateEnv, now: Time)
    requires ValidCreate(req)
    ensures var c := Create(req, id, env, now);
      && c.intent.threeDS == req.threeDS
      && (Scored(c.ext, id) <==> !req.threeDS)
      && forall other :: other != id ==> !Scored(c.ext, other)
  {
    W.CreateCalls(req, id, env, now);
    var c := Create(req, id, env, now);
    if !req.threeDS {
      FirstCall(req, id, env, now);
      assert c.ext[0] in c.ext;
    }
  }

  lemma FirstCall(req: CreateReq, id: string, env: CreateEnv, now: Time)
    requires ValidCreate(req) && !req.threeDS
    ensures var c := Create(req, id, env, now);
      c.ext != [] && c.ext[0].FraudScore? && c.ext[0].id == id
  {
  }

  lemma ExecScores(w: W.World, a: W.Act)
    requires ScoredRight(w)
    ensures ScoredRight(W.Exec(w, a).world)
  {
    hide Create, Apply, Scored, W.ExecDeliver, W.ExecDispute, W.UpdateChargeback, W.AddRow;
    var v := W.Exec(w, a).world;
    match a
    case Post(req, pid, env, now) =>
      if ValidCreate(req) && pid !in w.intents {
        CreateScores(req, pid, env, now);
        forall id ensures Scored(v.ext, id) <==> id in v.intents && !v.intents[id].threeDS {
          ScoredConcat(w.ext, Create(req, pid, env, now).ext, id);
        }
      }
    case Update(pid, op, now) =>
      if pid in w.intents {
        ApplyScoresNothing(w.intents[pid], op, now);
        forall id ensures Scored(v.ext, id) <==> id in v.intents && !v.intents[id].threeDS {
          ScoredConcat(w.ext, Apply(w.intents[pid], op, now).ext, id);
        }
      }
    case _ => ExecOther(w, a);
  }

  /** In every interleaving an intent has been scored for fraud if and only if it is stored and does not
      require 3DS: 3DS intents never are. */
  lemma {:induction false} ScoredUnless3DS(ms: seq<W.Move>)
    ensures ScoredRight(W.Run(W.START, ms).world)
    decreases |ms|
  {
    if ms != [] {
      hide W.Exec, ScoredRight;
      var init, m := ms[..|ms| - 1], ms[|ms| - 1];
      ScoredUnless3DS(init);
      var s := W.Run(W.START, init);
      if m.Advance? && m.task < |s.tasks| && s.tasks[m.task] != [] {
        ExecScores(s.world, s.tasks[m.task][0]);
      }
    }
  }
}
