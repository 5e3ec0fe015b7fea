/** The audit log. One request at a time, the events of an intent form the chain that its history
    spells out; in any interleaving every one of them is emitted exactly once, though not in order. */
module Audit {
  import opened Domain
  import opened Engine
  import opened History
  import opened Runs
  import opened Tally
  import W = World

  /** The audit events of one intent, in order. */
  function Trail(log: seq<AuditEvent>, id: string): seq<Edge> {
    if log == [] then []
    else
      var e := log[|log| - 1];
      Trail(log[..|log| - 1], id) + (if e.intentId == id then [Edge(e.from, e.to)] else [])
  }

  lemma {:induction false} TrailConcat(a: seq<AuditEvent>, b: seq<AuditEvent>, id: string)
    ensures Trail(a + b, id) == Trail(a, id) + Trail(b, id)
    decreases |b|
  {
    if b == [] {
      assert a + b == a;
    } else {
      var init := b[..|b| - 1];
      assert (a + b)[..|a + b| - 1] == a + init;
      TrailConcat(a, init, id);
    }
  }

  predicate EventsOf(log: seq<AuditEvent>, id: string) {
    forall e <- log :: e.intentId == id
  }

  lemma {:induction false} TrailOwn(log: seq<AuditEvent>, id: string)
    requires EventsOf(log, id)
    ensures Trail(log, id) == Edges(log)
    decreases |log|
  {
    if log != [] {
      var init, e := log[..|log| - 1], log[|log| - 1];
      TrailOwn(init, id);
      assert log == init + [e];
      EdgesConcat(init, [e]);
      EdgesOne(e);
    }
  }

  lemma {:induction false} EdgesConcat(a: seq<AuditEvent>, b: seq<AuditEvent>)
    ensures Edges(a + b) == Edges(a) + Edges(b)
    decreases |a|
  {
    if a == [] {
      assert a + b == b;
    } else {
      assert (a + b)[1..] == a[1..] + b;
      EdgesConcat(a[1..], b);
    }
  }

  lemma {:induction false} TrailForeign(log: seq<AuditEvent>, owner: string, id: string)
    requires EventsOf(log, owner) && id != owner
    ensures Trail(log, id) == []
    decreases |log|
  {
    if log != [] {
      TrailForeign(log[..|log| - 1], owner, id);
    }
  }

  /** The audit trail that an intent's history spells out; none before it is stored. */
  function Spelled(w: W.World, id: string): seq<Edge> {
    if id in w.intents then Read(w.intents[id].history).edges else []
  }

  // --- what a trail spelled out by a history looks like ----------------------

  predicate Chain(edges: seq<Edge>, last: Status) {
    if edges == [] then last.StatusIntent?
    else
      var e := edges[|edges| - 1];
      && e.to == last
      && (e.from != e.to ==> !IsTerminal(e.from) && CanTransition(e.from, e.to))
      && Chain(edges[..|edges| - 1], e.from)
  }

  /** The statuses of a history, refunding removed. */
  function Statuses(h: seq<Event>): seq<Status> {
    if h == [] then []
    else
      var e := h[|h| - 1];
      Statuses(h[..|h| - 1])
      + (if e.typ.Entered? && !IsPartial(e) && !e.typ.status.StatusRefunding? then [e.typ.status] else [])
  }

  /** The targets of the edges that change the status. */
  function Targets(edges: seq<Edge>): seq<Status> {
    if edges == [] then []
    else
      var e := edges[|edges| - 1];
      Targets(edges[..|edges| - 1]) + (if e.from != e.to then [e.to] else [])
  }

  /** A readable history spells out a chain of permitted edges that starts at `intent`, ends in the
      current status and, without its self-loops, lists the statuses of the history. */
  lemma {:induction false} HistorySpellsChain(h: seq<Event>)
    requires Read(h).ok
    ensures Chain(Read(h).edges, Read(h).visible)
    ensures Targets(Read(h).edges) == Statuses(h)
    decreases |h|
  {
    if h != [] {
      var init, e := h[..|h| - 1], h[|h| - 1];
      HistorySpellsChain(init);
      AbsorbSpells(Read(init), e);
    }
  }

  lemma ChainSnoc(edges: seq<Edge>, e: Edge)
    requires Chain(edges, e.from) && (e.from != e.to ==> !IsTerminal(e.from) && CanTransition(e.from, e.to))
    ensures Chain(edges + [e], e.to)
    ensures Targets(edges + [e]) == Targets(edges) + (if e.from != e.to then [e.to] else [])
  {
    assert (edges + [e])[..|edges|] == edges;
  }

  lemma AbsorbSpells(d: Digest, e: Event)
    requires d.ok ==> Chain(d.edges, d.visible)
    requires Absorb(d, e).ok
    ensures d.ok && Chain(Absorb(d, e).edges, Absorb(d, e).visible)
    ensures Targets(Absorb(d, e).edges)
         == Targets(d.edges)
            + (if e.typ.Entered? && !IsPartial(e) && !e.typ.status.StatusRefunding? then [e.typ.status] else [])
  {
    hide Chain, Targets;
    match e.typ
    case Entered(next) =>
      if IsPartial(e) {
        ChainSnoc(d.edges, Edge(d.visible, d.visible));
      } else if !next.StatusRefunding? {
        ChainSnoc(d.edges, Edge(d.visible, next));
      }
    case EventReconciliation => ChainSnoc(d.edges, Edge(d.visible, d.visible));
    case _ =>
  }

  // --- one request after another ---------------------------------------------

  /** The events still to be emitted for an intent, in order. */
  function Queued(acts: seq<W.Act>, id: string): seq<Edge> {
    if acts == [] then []
    else
      (if acts[0].Emit? && acts[0].event.intentId == id
       then [Edge(acts[0].event.from, acts[0].event.to)] else [])
      + Queued(acts[1..], id)
  }

  lemma {:induction false} QueuedNothing(acts: seq<W.Act>, id: string)
    requires forall a <- acts :: !a.Emit?
    ensures Queued(acts, id) == []
    decreases |acts|
  {
    if acts != [] {
      QueuedNothing(acts[1..], id);
    }
  }

  lemma {:induction false} QueuedConcat(a: seq<W.Act>, b: seq<W.Act>, id: string)
    ensures Queued(a + b, id) == Queued(a, id) + Queued(b, id)
    decreases |a|
  {
    if a == [] {
      assert a + b == b;
    } else {
      assert (a + b)[1..] == a[1..] + b;
      QueuedConcat(a[1..], b, id);
    }
  }

  predicate Tail(a: W.Act) {
    a.Append? || a.Emit?
  }

  /** Only appends come before an event that is still to be emitted. */
  predicate Fronted(acts: seq<W.Act>) {
    forall j, k :: 0 <= j < k < |acts| && acts[k].Emit? ==> Tail(acts[j])
  }

  /** What has been and what will be emitted is what the history spells out. */
  ghost predicate InStep(w: W.World, acts: seq<W.Act>) {
    forall id :: Trail(w.audit, id) + Queued(acts, id) == Spelled(w, id)
  }

  /** Requests one after another, to completion. */
  lemma {:induction false} SequentialInStep(w: W.World, acts: seq<W.Act>)
    requires Keyed(w) && Fronted(acts) && InStep(w, acts)
    ensures Keyed(W.RunAll(w, acts)) && InStep(W.RunAll(w, acts), [])
    decreases W.Weight(acts)
  {
    if acts != [] {
      var e := W.Exec(w, acts[0]);
      ExecKeyed(w, acts[0]);
      W.ExecShrinks(w, acts[0]);
      W.WeightConcat(e.rest, acts[1..]);
      assert acts == [acts[0]] + acts[1..];
      W.WeightConcat([acts[0]], acts[1..]);
      ExecFronted(w, acts);
      forall id ensures Trail(e.world.audit, id) + Queued(e.rest + acts[1..], id) == Spelled(e.world, id) {
        ExecInStep(w, acts, id);
      }
      SequentialInStep(e.world, e.rest + acts[1..]);
    }
  }

  lemma ExecFronted(w: W.World, acts: seq<W.Act>)
    requires acts != [] && Fronted(acts)
    ensures Fronted(W.Exec(w, acts[0]).rest + acts[1..])
  {
    var rest := W.Exec(w, acts[0]).rest;
    if Tail(acts[0]) {
      assert rest + acts[1..] == acts[1..];
    } else {
      assert forall a <- acts[1..] :: !a.Emit?;
      RestFronted(w, acts[0]);
    }
  }

  lemma RestFronted(w: W.World, a: W.Act)
    ensures Fronted(W.Exec(w, a).rest)
  {
    if !a.Post? && !a.Update? {
      ExecOther(w, a);
    }
  }

  lemma ExecInStep(w: W.World, acts: seq<W.Act>, id: string)
    requires Keyed(w) && acts != [] && Fronted(acts)
    requires Trail(w.audit, id) + Queued(acts, id) == Spelled(w, id)
    ensures var e := W.Exec(w, acts[0]);
      Trail(e.world.audit, id) + Queued(e.rest + acts[1..], id) == Spelled(e.world, id)
  {
    var a, more := acts[0], acts[1..];
    assert acts == [a] + more;
    if Tail(a) {
      TailInStep(w, a, id);
    } else {
      assert forall b <- more :: !b.Emit?;
      QueuedNothing(more, id);
      QueuedNothing([a], id);
      QueuedConcat([a], more, id);
      assert Trail(w.audit, id) == Spelled(w, id);
      WorkInStep(w, a, id);
    }
    var e := W.Exec(w, a);
    Join(Trail(w.audit, id), Trail(e.world.audit, id), Spelled(e.world, id), a, e.rest, more, id);
  }

  lemma Join(before: seq<Edge>, after: seq<Edge>, spelled: seq<Edge>,
             a: W.Act, rest: seq<W.Act>, more: seq<W.Act>, id: string)
    requires Tail(a) ==> rest == [] && after == before + Queued([a], id) && spelled == before + Queued([a] + more, id)
    requires !Tail(a) ==> Queued(more, id) == [] && after + Queued(rest, id) == spelled
    ensures after + Queued(rest + more, id) == spelled
  {
    QueuedConcat([a], more, id);
    QueuedConcat(rest, more, id);
    if Tail(a) {
      assert rest + more == more;
    }
  }

  lemma TailInStep(w: W.World, a: W.Act, id: string)
    requires Tail(a)
    ensures var e := W.Exec(w, a);
      && e.rest == []
      && Trail(e.world.audit, id) == Trail(w.audit, id) + Queued([a], id)
      && Spelled(e.world, id) == Spelled(w, id)
  {
    ExecOther(w, a);
    if a.Emit? {
      TrailConcat(w.audit, [a.event], id);
      assert [a.event][..0] == [];
    }
  }

  /** What an action adds to the trail that the history of an intent spells out. */
  function Added(w: W.World, a: W.Act, id: string): seq<Edge> {
    if a.Post? && a.id == id && id !in w.intents && ValidCreate(a.req) then
      Read(Create(a.req, id, a.env, a.now).intent.history).edges
    else if a.Update? && a.id == id && id in w.intents then
      Edges(Apply(w.intents[id], a.op, a.now).audit)
    else []
  }

  lemma WorkInStep(w: W.World, a: W.Act, id: string)
    requires Keyed(w) && !Tail(a)
    ensures var e := W.Exec(w, a);
      && Trail(e.world.audit, id) + Queued(e.rest, id) == Trail(w.audit, id) + Added(w, a, id)
      && Spelled(e.world, id) == Spelled(w, id) + Added(w, a, id)
  {
    if a.Post? {
      PostInStep(w, a, id);
    } else if a.Update? {
      UpdateInStep(w, a, id);
    } else {
      ExecOther(w, a);
      QueuedNothing(W.Exec(w, a).rest, id);
    }
  }

  lemma {:induction false} QueuedEmits(log: seq<AuditEvent>, id: string)
    ensures Queued(W.Emits(log), id) == Trail(log, id)
    decreases |log|
  {
    if log != [] {
      var init, e := log[..|log| - 1], log[|log| - 1];
      QueuedEmits(init, id);
      assert W.Emits(log) == W.Emits(init) + [W.Emit(e)];
      QueuedConcat(W.Emits(init), [W.Emit(e)], id);
    } else {
      assert W.Emits(log) == [];
    }
  }

  lemma PostInStep(w: W.World, a: W.Act, id: string)
    requires a.Post?
    ensures var e := W.Exec(w, a);
      && Trail(e.world.audit, id) + Queued(e.rest, id) == Trail(w.audit, id) + Added(w, a, id)
      && Spelled(e.world, id) == Spelled(w, id) + Added(w, a, id)
  {
    if ValidCreate(a.req) && a.id !in w.intents {
      PostSpells(a.req, a.id, a.env, a.now, id);
      StoredInStep(w, Create(a.req, a.id, a.env, a.now), a.id, id);
    }
  }

  lemma StoredInStep(w: W.World, c: Creation, pid: string, id: string)
    requires pid !in w.intents
    requires Trail(c.early, id) + Trail(c.late, id) == if id == pid then Read(c.intent.history).edges else []
    ensures var v := w.(intents := w.intents[pid := c.intent], audit := w.audit + c.early, ext := w.ext + c.ext);
      var added := if id == pid then Read(c.intent.history).edges else [];
      && Trail(v.audit, id) + Queued(W.Appends(c.rows) + W.Emits(c.late), id) == Trail(w.audit, id) + added
      && Spelled(v, id) == Spelled(w, id) + added
  {
    hide Trail, Queued, Read;
    TrailConcat(w.audit, c.early, id);
    QueuedConcat(W.Appends(c.rows), W.Emits(c.late), id);
    QueuedNothing(W.Appends(c.rows), id);
    QueuedEmits(c.late, id);
    Associative(Trail(w.audit, id), Trail(c.early, id), Trail(c.late, id));
  }

  lemma Associative<T>(a: seq<T>, b: seq<T>, c: seq<T>)
    ensures (a + b) + c == a + (b + c)
  {
  }

  lemma PostSpells(req: CreateReq, pid: string, env: CreateEnv, now: Time, id: string)
    requires ValidCreate(req)
    ensures var c := Create(req, pid, env, now);
      Trail(c.early, id) + Trail(c.late, id) == if id == pid then Read(c.intent.history).edges else []
  {
    var c := Create(req, pid, env, now);
    W.CreateRows(req, pid, env, now);
    CreateKeepsHistory(req, pid, env, now);
    TrailConcat(c.early, c.late, id);
    if id == pid {
      TrailOwn(c.early + c.late, id);
    } else {
      TrailForeign(c.early + c.late, pid, id);
    }
  }

  lemma UpdateInStep(w: W.World, a: W.Act, id: string)
    requires Keyed(w) && a.Update?
    ensures var e := W.Exec(w, a);
      && Trail(e.world.audit, id) + Queued(e.rest, id) == Trail(w.audit, id) + Added(w, a, id)
      && Spelled(e.world, id) == Spelled(w, id) + Added(w, a, id)
  {
    hide Apply, Read, Trail;
    if a.id in w.intents {
      var o := Apply(w.intents[a.id], a.op, a.now);
      ApplyKeepsHistory(w.intents[a.id], a.op, a.now);
      W.ApplyEvents(w.intents[a.id], a.op, a.now);
      TrailConcat(w.audit, o.audit, id);
      QueuedNothing(W.Appends(o.rows), id);
      if id == a.id {
        TrailOwn(o.audit, id);
      } else {
        TrailForeign(o.audit, a.id, id);
      }
    }
  }

  /** After any sequence of requests, the audit events of each intent are exactly those its history
      spells out: a chain of permitted edges from `intent` to the current status. */
  lemma AuditChain(requests: seq<W.Act>, id: string)
    requires forall a <- requests :: W.IsRequest(a)
    ensures var w := W.RunAll(W.EMPTY, requests);
      id in w.intents ==>
        && Trail(w.audit, id) == Read(w.intents[id].history).edges
        && Chain(Trail(w.audit, id), w.intents[id].status)
        && Targets(Trail(w.audit, id)) == Statuses(w.intents[id].history)
  {
    forall other ensures Trail(W.EMPTY.audit, other) + Queued(requests, other) == Spelled(W.EMPTY, other) {
      QueuedNothing(requests, other);
    }
    assert forall k :: 0 <= k < |requests| ==> W.IsRequest(requests[k]);
    SequentialInStep(W.EMPTY, requests);
    var w := W.RunAll(W.EMPTY, requests);
    assert InStep(w, []);
    assert Trail(w.audit, id) + Queued([], id) == Spelled(w, id);
    if id in w.intents {
      HistorySpellsChain(w.intents[id].history);
    }
  }

  // --- any interleaving ------------------------------------------------------

  function Is(x: Edge): Edge -> int {
    (e: Edge) => if e == x then 1 else 0
  }

  /** Events still to be emitted for an intent along an edge. */
  function Emitting(id: string, x: Edge): W.Act -> int {
    (a: W.Act) => if a.Emit? && a.event.intentId == id && Edge(a.event.from, a.event.to) == x then 1 else 0
  }

  lemma {:induction false} QueuedCounts(acts: seq<W.Act>, id: string, x: Edge)
    ensures Sum(acts, Emitting(id, x)) == Sum(Queued(acts, id), Is(x))
    decreases |acts|
  {
    if acts != [] {
      var a := acts[0];
      QueuedCounts(acts[1..], id, x);
      SumHeadTail(acts, Emitting(id, x));
      if a.Emit? && a.event.intentId == id {
        var e := Edge(a.event.from, a.event.to);
        SumConcat([e], Queued(acts[1..], id), Is(x));
        SumOne(e, Is(x));
      } else {
        assert Queued(acts, id) == Queued(acts[1..], id);
      }
    }
  }

  /** Events spelled out but neither emitted nor about to be, along one edge. */
  function Missing(w: W.World, id: string, x: Edge): int {
    Sum(Spelled(w, id), Is(x)) - Sum(Trail(w.audit, id), Is(x))
  }

  lemma ExecMisses(w: W.World, a: W.Act, id: string, x: Edge)
    requires Keyed(w)
    ensures var e := W.Exec(w, a);
      Missing(e.world, id, x) - Sum(e.rest, Emitting(id, x)) == Missing(w, id, x) - Emitting(id, x)(a)
  {
    var e := W.Exec(w, a);
    QueuedCounts(e.rest, id, x);
    if Tail(a) {
      TailInStep(w, a, id);
      SumConcat(Trail(w.audit, id), Queued([a], id), Is(x));
      QueuedCounts([a], id, x);
      SumOne(a, Emitting(id, x));
    } else {
      WorkInStep(w, a, id);
      SumConcat(Trail(e.world.audit, id), Queued(e.rest, id), Is(x));
      SumConcat(Trail(w.audit, id), Added(w, a, id), Is(x));
      SumConcat(Spelled(w, id), Added(w, a, id), Is(x));
    }
  }

  lemma StepMisses(s: W.System, m: W.Move, id: string, x: Edge)
    requires Keyed(s.world)
    ensures var t := W.Step(s, m);
      Missing(t.world, id, x) - Total(t.tasks, Emitting(id, x))
      == Missing(s.world, id, x) - Total(s.tasks, Emitting(id, x))
  {
    match m
    case Arrive(a) =>
      if W.IsRequest(a) {
        TotalSnoc(s.tasks, [a], Emitting(id, x));
        SumOne(a, Emitting(id, x));
      }
    case Advance(t) =>
      if t < |s.tasks| && s.tasks[t] != [] {
        var acts := s.tasks[t];
        var e := W.Exec(s.world, acts[0]);
        ExecMisses(s.world, acts[0], id, x);
        SumHeadTail(acts, Emitting(id, x));
        SumConcat(e.rest, acts[1..], Emitting(id, x));
        TotalUpdate(s.tasks, t, e.rest + acts[1..], Emitting(id, x));
      }
  }

  /** Every edge that a history spells out is emitted exactly once, now or by a request in flight. */
  lemma {:induction false} AuditComplete(ms: seq<W.Move>, id: string, x: Edge)
    ensures var s := W.Run(W.START, ms);
      Sum(Spelled(s.world, id), Is(x))
      == Sum(Trail(s.world.audit, id), Is(x)) + Total(s.tasks, Emitting(id, x))
    decreases |ms|
  {
    if ms != [] {
      var init := ms[..|ms| - 1];
      AuditComplete(init, id, x);
      RunKeyed(W.START, init);
      StepMisses(W.Run(W.START, init), ms[|ms| - 1], id, x);
    }
  }
}
