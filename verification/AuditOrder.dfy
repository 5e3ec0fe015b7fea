/** Exactly when an interleaving keeps the audit events of an intent in order: unless a request with an
    event of its own overtakes the last event of the creation. */
module AuditOrder {
  import opened Domain
  import opened Engine
  import opened Audit
  import opened History
  import opened Runs
  import W = World

  // --- events that are still to be emitted -----------------------------------

  /** A creation that has stored the intent still has its event to emit. */
  ghost predicate Announcing(tasks: seq<seq<W.Act>>, id: string) {
    exists t, a: W.Act :: 0 <= t < |tasks| && a in tasks[t] && a.Emit? && a.event.intentId == id
  }

  /** Those events, as edges. */
  function Flat(tasks: seq<seq<W.Act>>, id: string): seq<Edge> {
    if tasks == [] then [] else Flat(tasks[..|tasks| - 1], id) + Queued(tasks[|tasks| - 1], id)
  }

  lemma {:induction false} FlatUpdate(tasks: seq<seq<W.Act>>, t: nat, acts: seq<W.Act>, id: string)
    returns (x: seq<Edge>, y: seq<Edge>)
    requires t < |tasks|
    ensures Flat(tasks, id) == x + Queued(tasks[t], id) + y
    ensures Flat(tasks[t := acts], id) == x + Queued(acts, id) + y
    decreases |tasks|
  {
    var n := |tasks| - 1;
    if t == n {
      assert tasks[t := acts][..n] == tasks[..n];
      x, y := Flat(tasks[..n], id), [];
    } else {
      assert tasks[t := acts][..n] == tasks[..n][t := acts];
      var z;
      x, z := FlatUpdate(tasks[..n], t, acts, id);
      y := z + Queued(tasks[n], id);
    }
  }

  lemma {:induction false} QueuedFinds(acts: seq<W.Act>, id: string)
    ensures Queued(acts, id) != [] <==> exists a: W.Act :: a in acts && a.Emit? && a.event.intentId == id
    decreases |acts|
  {
    if acts != [] {
      QueuedFinds(acts[1..], id);
      assert acts == [acts[0]] + acts[1..];
    }
  }

  lemma {:induction false} FlatFinds(tasks: seq<seq<W.Act>>, id: string)
    ensures Flat(tasks, id) != [] <==> Announcing(tasks, id)
    decreases |tasks|
  {
    if tasks != [] {
      var init, last := tasks[..|tasks| - 1], tasks[|tasks| - 1];
      FlatFinds(init, id);
      QueuedFinds(last, id);
      if Announcing(init, id) {
        var t, a: W.Act :| 0 <= t < |init| && a in init[t] && a.Emit? && a.event.intentId == id;
        assert a in tasks[t];
      }
      if Announcing(tasks, id) && !Announcing(init, id) {
        var t, a: W.Act :| 0 <= t < |tasks| && a in tasks[t] && a.Emit? && a.event.intentId == id;
        assert t < |init| ==> a in init[t];
      }
    }
  }

  // --- overtaking ------------------------------------------------------------

  /** The step updates the intent, with an event, while the creation still has its event to emit. */
  ghost predicate Overtakes(s: W.System, m: W.Move, id: string) {
    && m.Advance? && m.task < |s.tasks| && s.tasks[m.task] != []
    && var a := s.tasks[m.task][0];
    && a.Update? && a.id == id && id in s.world.intents
    && Apply(s.world.intents[id], a.op, a.now).audit != []
    && Announcing(s.tasks, id)
  }

  ghost predicate Overtaken(ms: seq<W.Move>, id: string) {
    exists n :: 0 <= n < |ms| && Overtakes(W.Run(W.START, ms[..n]), ms[n], id)
  }

  /** A link that no later event repairs. */
  predicate Broken(edges: seq<Edge>) {
    || (edges != [] && !edges[0].from.StatusIntent?)
    || exists k :: 0 < k < |edges| && edges[k].from != edges[k - 1].to
  }

  lemma {:induction false} ChainLinks(edges: seq<Edge>, last: Status)
    requires Chain(edges, last)
    ensures !Broken(edges)
    decreases |edges|
  {
    if edges != [] {
      var init := edges[..|edges| - 1];
      ChainLinks(init, edges[|edges| - 1].from);
      forall k | 0 < k < |edges| ensures edges[k].from == edges[k - 1].to {
        if k < |init| {
          assert init[k].from == init[k - 1].to;
        }
      }
    }
  }

  lemma StaysBroken(edges: seq<Edge>, more: seq<Edge>)
    requires Broken(edges)
    ensures Broken(edges + more)
  {
    var all := edges + more;
    if edges != [] && !edges[0].from.StatusIntent? {
      assert all[0] == edges[0];
    } else {
      var k :| 0 < k < |edges| && edges[k].from != edges[k - 1].to;
      assert all[k].from != all[k - 1].to;
    }
  }

  /** What was emitted and the one event still to be emitted are what the history spells out. */
  ghost predicate OnTrack(s: W.System, id: string) {
    && Trail(s.world.audit, id) + Flat(s.tasks, id) == Spelled(s.world, id)
    && |Flat(s.tasks, id)| <= 1
    && forall e <- Flat(s.tasks, id) :: e.from != e.to
  }

  // --- one step --------------------------------------------------------------

  lemma AuditGrows(w: W.World, a: W.Act)
    ensures w.audit <= W.Exec(w, a).world.audit
  {
    hide Create, Apply;
    if !a.Post? && !a.Update? {
      ExecOther(w, a);
    }
  }

  lemma TrailGrows(w: W.World, a: W.Act, id: string) returns (more: seq<Edge>)
    ensures Trail(W.Exec(w, a).world.audit, id) == Trail(w.audit, id) + more
  {
    hide W.Exec;
    AuditGrows(w, a);
    var log := W.Exec(w, a).world.audit;
    assert log == w.audit + log[|w.audit|..];
    TrailConcat(w.audit, log[|w.audit|..], id);
    more := Trail(log[|w.audit|..], id);
  }

  /** An update's first event starts at the status it found. */
  lemma ApplyStartsAtStatus(i: Intent, op: Op, now: Time)
    ensures var audit := Apply(i, op, now).audit;
      audit != [] ==> audit[0].from == i.status
  {
  }

  lemma CreateLate(req: CreateReq, id: string, env: CreateEnv, now: Time)
    requires ValidCreate(req)
    ensures var c := Create(req, id, env, now);
      |c.late| == 1 && c.late[0].from != c.late[0].to
  {
  }

  /** A creation leaves at most one event, and it changes the status. */
  lemma PostLeavesOne(w: W.World, a: W.Act, id: string)
    requires a.Post?
    ensures var q := Queued(W.Exec(w, a).rest, id);
      |q| <= 1 && forall e <- q :: e.from != e.to
  {
    hide Create;
    if ValidCreate(a.req) && a.id !in w.intents {
      var c := Create(a.req, a.id, a.env, a.now);
      CreateLate(a.req, a.id, a.env, a.now);
      QueuedConcat(W.Appends(c.rows), W.Emits(c.late), id);
      QueuedNothing(W.Appends(c.rows), id);
      QueuedEmits(c.late, id);
      assert c.late[..0] == [];
    }
  }

  lemma UpdateLeavesNone(w: W.World, a: W.Act, id: string)
    requires a.Update?
    ensures Queued(W.Exec(w, a).rest, id) == []
  {
    hide Apply;
    QueuedNothing(W.Exec(w, a).rest, id);
  }

  /** What a step adds to the trail and leaves to be emitted, told by kind of action. */
  lemma StepOnTrack(s: W.System, m: W.Move, id: string)
    requires Keyed(s.world) && OnTrack(s, id)
    ensures Overtakes(s, m, id) ==> Broken(Trail(W.Step(s, m).world.audit, id))
    ensures !Overtakes(s, m, id) ==> OnTrack(W.Step(s, m), id)
  {
    hide W.Exec, Queued, Trail;
    match m
    case Arrive(a) =>
      if W.IsRequest(a) {
        QueuedNothing([a], id);
        assert (s.tasks + [[a]])[..|s.tasks|] == s.tasks;
      }
    case Advance(t) =>
      if t < |s.tasks| && s.tasks[t] != [] {
        var a, more := s.tasks[t][0], s.tasks[t][1..];
        var e := W.Exec(s.world, a);
        var x, y := FlatUpdate(s.tasks, t, e.rest + more, id);
        assert s.tasks[t] == [a] + more;
        QueuedConcat([a], more, id);
        QueuedConcat(e.rest, more, id);
        FlatFinds(s.tasks, id);
        if Tail(a) {
          TailOnTrack(s, a, x, Queued(more, id), y, id);
        } else {
          QueuedNothing([a], id);
          WorkOnTrack(s, m, x, Queued(more, id), y, id);
        }
      }
  }

  lemma TailOnTrack(s: W.System, a: W.Act, x: seq<Edge>, q: seq<Edge>, y: seq<Edge>, id: string)
    requires OnTrack(s, id) && Tail(a) && Flat(s.tasks, id) == x + (Queued([a], id) + q) + y
    ensures var e := W.Exec(s.world, a); var flat := x + (Queued(e.rest, id) + q) + y;
      && Trail(e.world.audit, id) + flat == Spelled(e.world, id)
      && |flat| <= 1 && (forall d <- flat :: d.from != d.to)
  {
    hide W.Exec, Flat;
    TailInStep(s.world, a, id);
    QueuedNothing([], id);
  }

  lemma WorkOnTrack(s: W.System, m: W.Move, x: seq<Edge>, q: seq<Edge>, y: seq<Edge>, id: string)
    requires Keyed(s.world) && OnTrack(s, id)
    requires m.Advance? && m.task < |s.tasks| && s.tasks[m.task] != [] && !Tail(s.tasks[m.task][0])
    requires Flat(s.tasks, id) == x + q + y
    requires Flat(s.tasks, id) != [] <==> Announcing(s.tasks, id)
    ensures var e := W.Exec(s.world, s.tasks[m.task][0]); var flat := x + (Queued(e.rest, id) + q) + y;
      if Overtakes(s, m, id) then Broken(Trail(e.world.audit, id))
      else
        && Trail(e.world.audit, id) + flat == Spelled(e.world, id)
        && |flat| <= 1 && (forall d <- flat :: d.from != d.to)
  {
    hide W.Exec, Flat, Queued, Trail, Announcing, Apply, Create, Read;
    var a := s.tasks[m.task][0];
    var e := W.Exec(s.world, a);
    var grown := TrailGrows(s.world, a, id);
    WorkInStep(s.world, a, id);
    var added := Added(s.world, a, id);
    var left := Queued(e.rest, id);
    assert grown + left == added by {
      var trail := Trail(s.world.audit, id);
      assert trail + (grown + left) == trail + added;
      assert (trail + (grown + left))[|trail|..] == (trail + added)[|trail|..];
    }
    if added != [] {
      if a.Post? {
        PostLeavesOne(s.world, a, id);
      } else {
        UpdateLeavesNone(s.world, a, id);
        assert grown == added;
        if x + q + y != [] {
          var i := s.world.intents[id];
          EdgesNonEmpty(Apply(i, a.op, a.now).audit);
          ApplyStartsAtStatus(i, a.op, a.now);
          OvertakingBreaks(s, x + q + y, added, id);
        }
      }
    } else if Overtakes(s, m, id) {
      EdgesNonEmpty(Apply(s.world.intents[id], a.op, a.now).audit);
    }
  }

  lemma EdgesNonEmpty(log: seq<AuditEvent>)
    ensures log == [] <==> Edges(log) == []
    ensures log != [] ==> Edges(log)[0] == Edge(log[0].from, log[0].to)
  {
  }

  /** The event still missing led to the current status, so one that starts there cannot take its place. */
  lemma LinkBreaks(trail: seq<Edge>, missing: Edge, status: Status, added: seq<Edge>)
    requires Chain(trail + [missing], status) && missing.from != missing.to
    requires added != [] && added[0].from == status
    ensures Broken(trail + added)
  {
    var spelled, all := trail + [missing], trail + added;
    assert spelled[..|spelled| - 1] == trail;
    if trail == [] {
      assert all[0] == added[0];
    } else {
      assert all[|trail|] == added[0] && all[|trail| - 1] == trail[|trail| - 1];
    }
  }

  lemma OvertakingBreaks(s: W.System, flat: seq<Edge>, added: seq<Edge>, id: string)
    requires Keyed(s.world) && id in s.world.intents && flat == Flat(s.tasks, id) && OnTrack(s, id)
    requires flat != [] && added != [] && added[0].from == s.world.intents[id].status
    ensures Broken(Trail(s.world.audit, id) + added)
  {
    hide Flat, Trail, Broken, Chain, Read;
    HistorySpellsChain(s.world.intents[id].history);
    assert flat == [flat[0]];
    LinkBreaks(Trail(s.world.audit, id), flat[0], s.world.intents[id].status, added);
  }

  lemma StepStaysBroken(s: W.System, m: W.Move, id: string)
    requires Broken(Trail(s.world.audit, id))
    ensures Broken(Trail(W.Step(s, m).world.audit, id))
  {
    hide W.Exec, Trail, Broken;
    if m.Advance? && m.task < |s.tasks| && s.tasks[m.task] != [] {
      var more := TrailGrows(s.world, s.tasks[m.task][0], id);
      StaysBroken(Trail(s.world.audit, id), more);
    }
  }

  // --- every interleaving ----------------------------------------------------

  lemma OvertakenSnoc(ms: seq<W.Move>, id: string)
    requires ms != []
    ensures var init := ms[..|ms| - 1];
      Overtaken(ms, id) <==> Overtaken(init, id) || Overtakes(W.Run(W.START, init), ms[|ms| - 1], id)
  {
    hide W.Run, Overtakes;
    var init := ms[..|ms| - 1];
    assert forall n :: 0 <= n < |init| ==> init[..n] == ms[..n];
    if Overtaken(init, id) {
      var n :| 0 <= n < |init| && Overtakes(W.Run(W.START, init[..n]), init[n], id);
      assert Overtakes(W.Run(W.START, ms[..n]), ms[n], id);
    }
    if Overtaken(ms, id) {
      var n :| 0 <= n < |ms| && Overtakes(W.Run(W.START, ms[..n]), ms[n], id);
      assert n < |init| ==> Overtakes(W.Run(W.START, init[..n]), init[n], id);
    }
  }

  lemma {:induction false} RunOnTrack(ms: seq<W.Move>, id: string)
    ensures var s := W.Run(W.START, ms);
      if Overtaken(ms, id) then Broken(Trail(s.world.audit, id)) else OnTrack(s, id)
    decreases |ms|
  {
    if ms != [] {
      hide W.Step, OnTrack, Broken, Overtaken, Overtakes, Keyed;
      var init, m := ms[..|ms| - 1], ms[|ms| - 1];
      RunOnTrack(init, id);
      InitKeyed(init);
      OvertakenSnoc(ms, id);
      if Overtaken(init, id) {
        StepStaysBroken(W.Run(W.START, init), m, id);
      } else {
        StepOnTrack(W.Run(W.START, init), m, id);
      }
    }
  }

  lemma InitKeyed(ms: seq<W.Move>)
    ensures Keyed(W.Run(W.START, ms).world)
  {
    RunKeyed(W.START, ms);
  }

  /** For every schedule, once the creation of an intent has emitted its last event: the audit events of
      the intent form a chain of permitted edges from `intent` to the current status if and only if no
      request with an event of its own acted on the intent before that event. And then they are the
      events that the history spells out. */
  lemma ChainExactly(ms: seq<W.Move>, id: string)
    requires id in W.Run(W.START, ms).world.intents && !Announcing(W.Run(W.START, ms).tasks, id)
    ensures var w := W.Run(W.START, ms).world;
      && (Chain(Trail(w.audit, id), w.intents[id].status) <==> !Overtaken(ms, id))
      && (!Overtaken(ms, id) ==>
            && Trail(w.audit, id) == Read(w.intents[id].history).edges
            && Targets(Trail(w.audit, id)) == Statuses(w.intents[id].history))
  {
    hide Overtaken, W.Run, Broken;
    var s := W.Run(W.START, ms);
    RunOnTrack(ms, id);
    InitKeyed(ms);
    FlatFinds(s.tasks, id);
    HistorySpellsChain(s.world.intents[id].history);
    assert Trail(s.world.audit, id) + [] == Trail(s.world.audit, id);
    if Overtaken(ms, id) && Chain(Trail(s.world.audit, id), s.world.intents[id].status) {
      ChainLinks(Trail(s.world.audit, id), s.world.intents[id].status);
    }
  }

  // --- a schedule that overtakes ---------------------------------------------

  const REQUEST: CreateReq := CreateReq("k", "pix", 5, "BRL", "p", false)
  const ANSWERS: CreateEnv := CreateEnv(FraudAllow, SubmitOk("r", None), AuthErr(""))
  const POST: W.Act := W.Post(REQUEST, "i", ANSWERS, 0)
  const SETTLEMENT: W.WebhookBody := W.WebhookBody("i", "settlement", "", 0, 5, "", "", "", "")
  const DELIVERY: W.Act := W.Deliver("pix", SETTLEMENT, true, 0, "", 1)
  const SETTLE: W.Act := W.Update("i", Settle(PIX, 5, ""), 1)

  /** The intent as the creation stores it. */
  lemma Posted()
    ensures ValidCreate(REQUEST)
    ensures var c := Create(REQUEST, "i", ANSWERS, 0);
      && c.intent.id == "i" && c.intent.status.StatusCaptured? && c.intent.captured == 5 && c.intent.settled == 0
      && c.early == [AuditEvent("i", StatusIntent, StatusAuthorized, "instant authorize", 0)]
      && |c.rows| == 1
      && c.late == [AuditEvent("i", StatusAuthorized, StatusCaptured, "instant submit", 0)]
  {
    assert ParseRail("pix") == Some(PIX);
  }

  lemma Settled(i: Intent)
    requires i.id == "i" && i.status.StatusCaptured? && i.captured == 5 && i.settled == 0
    ensures var o := Apply(i, Settle(PIX, 5, ""), 1);
      o.audit == [AuditEvent("i", StatusCaptured, StatusSettled, "settlement", 1)] && |o.rows| == 1
  {
  }

  lemma Delivered(w: W.World)
    ensures W.Exec(w, DELIVERY) == W.Executed(w, [SETTLE])
  {
    assert ParseRail("pix") == Some(PIX);
  }

  /** The creation, up to the row and the event that it still has to deal with. */
  lemma PostStarts() returns (w: W.World, row: Row, late: AuditEvent)
    ensures W.Exec(W.EMPTY, POST) == W.Executed(w, [W.Append(row), W.Emit(late)])
    ensures late.intentId == "i" && late.from.StatusAuthorized? && late.to.StatusCaptured?
    ensures "i" in w.intents && w.intents["i"].id == "i" && w.intents["i"].status.StatusCaptured?
    ensures w.intents["i"].captured == 5 && w.intents["i"].settled == 0
  {
    Posted();
    hide Create;
    var c := Create(REQUEST, "i", ANSWERS, 0);
    var e := W.ExecPost(W.EMPTY, REQUEST, "i", ANSWERS, 0);
    w, row, late := e.world, c.rows[0], c.late[0];
    assert e.rest == [W.Append(row), W.Emit(late)];
  }

  lemma SettleRuns(w: W.World) returns (v: W.World, row: Row)
    requires "i" in w.intents && w.intents["i"].id == "i" && w.intents["i"].status.StatusCaptured?
    requires w.intents["i"].captured == 5 && w.intents["i"].settled == 0
    ensures W.Exec(w, SETTLE) == W.Executed(v, [W.Append(row)])
    ensures "i" in v.intents && v.intents["i"].status.StatusSettled?
  {
    var i := w.intents["i"];
    Settled(i);
    SettledStatus(i);
    hide Apply;
    var o := Apply(i, Settle(PIX, 5, ""), 1);
    v, row := W.ExecUpdate(w, "i", Settle(PIX, 5, ""), 1).world, o.rows[0];
    assert W.Appends(o.rows) == [W.Append(row)];
  }

  lemma SettledStatus(i: Intent)
    requires i.status.StatusCaptured?
    ensures Apply(i, Settle(PIX, 5, ""), 1).intent.status.StatusSettled?
  {
  }

  lemma Turn(s: W.System, t: nat, rest: seq<W.Act>, after: W.System)
    requires t < |s.tasks| && s.tasks[t] != []
    requires W.Exec(s.world, s.tasks[t][0]) == W.Executed(after.world, rest)
    requires |after.tasks| == |s.tasks| && after.tasks[t] == rest + s.tasks[t][1..]
    requires forall k :: 0 <= k < |s.tasks| && k != t ==> after.tasks[k] == s.tasks[k]
    ensures W.Step(s, W.Advance(t)) == after
  {
    hide W.Exec;
    assert after.tasks == s.tasks[t := after.tasks[t]];
  }

  lemma Quick(w: W.World, row: Row, e: AuditEvent)
    ensures W.Exec(w, W.Append(row)) == W.Executed(W.AddRow(w, row), [])
    ensures W.AddRow(w, row).intents == w.intents && W.AddRow(w, row).audit == w.audit
    ensures W.Exec(w, W.Emit(e)) == W.Executed(w.(audit := w.audit + [e]), [])
  {
  }

  /** The creation stores its intent, then the settlement runs from start to end, then the creation goes
      on: with nothing in flight, the last event of the trail does not lead to the current status. */
  lemma SettlementOvertakes() returns (s: W.System, ms: seq<W.Move>)
    ensures s == W.Run(W.START, ms) && W.AtRest(s) && "i" in s.world.intents
    ensures !Chain(Trail(s.world.audit, "i"), s.world.intents["i"].status)
  {
    hide W.Exec, W.AddRow;
    var w1, row, late := PostStarts();
    var w2, settled := SettleRuns(w1);
    var a := W.Arrive(POST);
    var s1 := W.System(W.EMPTY, [[POST]]);
    assert W.Step(W.START, a) == s1;
    var s2 := W.System(w1, [[W.Append(row), W.Emit(late)]]);
    Turn(s1, 0, [W.Append(row), W.Emit(late)], s2);
    var s3 := W.System(w1, [[W.Append(row), W.Emit(late)], [DELIVERY]]);
    assert W.Step(s2, W.Arrive(DELIVERY)) == s3;
    Delivered(w1);
    var s4 := W.System(w1, [[W.Append(row), W.Emit(late)], [SETTLE]]);
    Turn(s3, 1, [SETTLE], s4);
    var s5 := W.System(w2, [[W.Append(row), W.Emit(late)], [W.Append(settled)]]);
    Turn(s4, 1, [W.Append(settled)], s5);
    s := FinishBoth(s5, row, late, settled);
    ms := [a, W.Advance(0), W.Arrive(DELIVERY), W.Advance(1), W.Advance(1), W.Advance(1), W.Advance(0), W.Advance(0)];
    assert ms[..1] == [] + [a] && ms[..2] == ms[..1] + [ms[1]] && ms[..3] == ms[..2] + [ms[2]]
        && ms[..4] == ms[..3] + [ms[3]] && ms[..5] == ms[..4] + [ms[4]] && ms[..6] == ms[..5] + [ms[5]]
        && ms[..7] == ms[..6] + [ms[6]] && ms == ms[..7] + [ms[7]];
    RunSnoc(W.START, [], a);
    RunSnoc(W.START, ms[..1], ms[1]);
    RunSnoc(W.START, ms[..2], ms[2]);
    RunSnoc(W.START, ms[..3], ms[3]);
    RunSnoc(W.START, ms[..4], ms[4]);
    RunSnoc(W.START, ms[..5], ms[5]);
    RunSnoc(W.START, ms[..6], ms[6]);
    RunSnoc(W.START, ms[..7], ms[7]);
  }

  lemma FinishBoth(s: W.System, row: Row, late: AuditEvent, settled: Row) returns (r: W.System)
    requires s.tasks == [[W.Append(row), W.Emit(late)], [W.Append(settled)]]
    requires "i" in s.world.intents && s.world.intents["i"].status.StatusSettled?
    requires late.intentId == "i" && late.from.StatusAuthorized? && late.to.StatusCaptured?
    ensures r == W.Step(W.Step(W.Step(s, W.Advance(1)), W.Advance(0)), W.Advance(0))
    ensures W.AtRest(r) && "i" in r.world.intents
    ensures !Chain(Trail(r.world.audit, "i"), r.world.intents["i"].status)
  {
    hide W.Exec, W.AddRow;
    Quick(s.world, settled, late);
    var w1 := W.AddRow(s.world, settled);
    var s1 := W.System(w1, [[W.Append(row), W.Emit(late)], []]);
    Turn(s, 1, [], s1);
    Quick(w1, row, late);
    var w2 := W.AddRow(w1, row);
    var s2 := W.System(w2, [[W.Emit(late)], []]);
    Turn(s1, 0, [], s2);
    Quick(w2, row, late);
    r := W.System(w2.(audit := w2.audit + [late]), [[], []]);
    Turn(s2, 0, [], r);
    TrailConcat(w2.audit, [late], "i");
    TrailOwn([late], "i");
    EdgesOne(late);
    var t := Trail(r.world.audit, "i");
    assert t[|t| - 1].to.StatusCaptured?;
  }
}
