/** The webhook worker (internal/webhook/worker.go): a bounded queue drained by any number of
    goroutines, with a gauge and an in-flight counter that are updated in steps of their own. */
module Worker {
  import opened Tally

  type Item = string

  /** Where a worker goroutine stands: waiting in its select, or holding an item that it took from the
      queue, took off the gauge, counted as in flight, marked as processed. */
  datatype Pc = Waiting | Took(item: Item) | OffGauge(item: Item) | Handling(item: Item)
              | Marked(item: Item) | Exited

  /** `rising` counts the enqueuers that have sent but not yet incremented the gauge. The logs
      record what was accepted, taken, marked as processed, and finished. */
  datatype State = State(
    queue: seq<Item>,
    workers: seq<Pc>,
    rising: nat,
    gauge: int,
    inflight: int,
    stopping: bool,
    accepted: seq<Item>,
    taken: seq<Item>,
    processed: seq<Item>,
    finished: seq<Item>)

  const START: State := State([], [], 0, 0, 0, false, [], [], [], [])

  datatype Act = Spawn | Enqueue(item: Item) | Raise | Stop | Work(worker: nat) | Exit(worker: nat)

  function Step(cap: nat, s: State, a: Act): State {
    match a
    case Spawn => s.(workers := s.workers + [Waiting])
    case Enqueue(item) =>
      if |s.queue| < cap
      then s.(queue := s.queue + [item], accepted := s.accepted + [item], rising := s.rising + 1)
      else s
    case Raise => if s.rising > 0 then s.(rising := s.rising - 1, gauge := s.gauge + 1) else s
    case Stop => s.(stopping := true)
    case Work(w) => if w < |s.workers| then StepWork(s, w) else s
    case Exit(w) =>
      if w < |s.workers| && s.workers[w].Waiting? && s.stopping
      then s.(workers := s.workers[w := Exited]) else s
  }

  /** The next step of a worker. When it is stopping and there is an item too, the select may go
      either way: here, or by Exit. */
  function StepWork(s: State, w: nat): State
    requires w < |s.workers|
  {
    match s.workers[w]
    case Waiting =>
      if s.queue == [] then s
      else s.(queue := s.queue[1..], taken := s.taken + [s.queue[0]], workers := s.workers[w := Took(s.queue[0])])
    case Took(x) => s.(gauge := s.gauge - 1, workers := s.workers[w := OffGauge(x)])
    case OffGauge(x) => s.(inflight := s.inflight + 1, workers := s.workers[w := Handling(x)])
    case Handling(x) => s.(processed := s.processed + [x], workers := s.workers[w := Marked(x)])
    case Marked(x) =>
      s.(inflight := s.inflight - 1, finished := s.finished + [x], workers := s.workers[w := Waiting])
    case Exited => s
  }

  function Run(cap: nat, acts: seq<Act>): State {
    if acts == [] then START else Step(cap, Run(cap, acts[..|acts| - 1]), acts[|acts| - 1])
  }

  // --- what the workers hold -------------------------------------------------

  function Holding(x: Item): Pc -> int {
    (p: Pc) => if !p.Waiting? && !p.Exited? && p.item == x then 1 else 0
  }

  function Marking(x: Item): Pc -> int {
    (p: Pc) => if p.Marked? && p.item == x then 1 else 0
  }

  /** 1 for a worker that holds an item still on the gauge, and for one counted as in flight. */
  const OnGauge: Pc -> int := (p: Pc) => if p.Took? then 1 else 0
  const InFlight: Pc -> int := (p: Pc) => if p.Handling? || p.Marked? then 1 else 0

  lemma {:induction false} SumUpdate(workers: seq<Pc>, w: nat, p: Pc, f: Pc -> int)
    requires w < |workers|
    ensures Sum(workers[w := p], f) == Sum(workers, f) - f(workers[w]) + f(p)
    decreases |workers|
  {
    var init := workers[..|workers| - 1];
    if w < |init| {
      SumUpdate(init, w, p, f);
      assert workers[w := p][..|init|] == init[w := p];
    } else {
      assert workers[w := p][..|init|] == init;
    }
  }

  // --- conservation ----------------------------------------------------------

  /** Every time x was taken from the queue, a worker holds it or it was finished. */
  predicate Accounted(s: State, x: Item) {
    multiset(s.taken)[x] == Sum(s.workers, Holding(x)) + multiset(s.finished)[x]
  }

  /** Every time x was marked as processed, a worker is about to finish it or it was finished. */
  predicate Processed(s: State, x: Item) {
    multiset(s.processed)[x] == Sum(s.workers, Marking(x)) + multiset(s.finished)[x]
  }

  predicate Gauged(s: State) {
    s.gauge == |s.queue| + Sum(s.workers, OnGauge) - s.rising && s.inflight == Sum(s.workers, InFlight)
  }

  ghost predicate Conserves(cap: nat, s: State) {
    && |s.queue| <= cap
    && s.accepted == s.taken + s.queue
    && Gauged(s)
    && forall x :: Accounted(s, x) && Processed(s, x)
  }

  lemma CountSnoc(xs: seq<Item>, x: Item, y: Item)
    ensures multiset(xs + [x])[y] == multiset(xs)[y] + if x == y then 1 else 0
  {
    assert multiset(xs + [x]) == multiset(xs) + multiset{x};
  }

  lemma StepConserves(cap: nat, s: State, a: Act)
    requires Conserves(cap, s)
    ensures Conserves(cap, Step(cap, s, a))
  {
    var t := Step(cap, s, a);
    match a
    case Spawn => SpawnConserves(cap, s);
    case Work(w) =>
      if w < |s.workers| {
        WorkConserves(cap, s, w);
      }
    case Exit(w) =>
      if w < |s.workers| && s.workers[w].Waiting? && s.stopping {
        ExitConserves(cap, s, w);
      }
    case Enqueue(item) =>
      assert s.taken + (s.queue + [item]) == s.accepted + [item];
      Kept(s, t);
    case _ => Kept(s, t);
  }

  lemma Kept(s: State, t: State)
    requires forall x :: Accounted(s, x) && Processed(s, x)
    requires t.workers == s.workers && t.taken == s.taken && t.processed == s.processed && t.finished == s.finished
    ensures forall x :: Accounted(t, x) && Processed(t, x)
  {
    assert forall x :: Accounted(s, x) && Processed(s, x) ==> Accounted(t, x) && Processed(t, x);
  }

  lemma SpawnConserves(cap: nat, s: State)
    requires Conserves(cap, s)
    ensures Conserves(cap, Step(cap, s, Spawn))
  {
    SumSnoc(s.workers, Waiting, OnGauge);
    SumSnoc(s.workers, Waiting, InFlight);
    forall x ensures Accounted(Step(cap, s, Spawn), x) && Processed(Step(cap, s, Spawn), x) {
      assert Accounted(s, x) && Processed(s, x);
      SumSnoc(s.workers, Waiting, Holding(x));
      SumSnoc(s.workers, Waiting, Marking(x));
    }
  }

  lemma ExitConserves(cap: nat, s: State, w: nat)
    requires Conserves(cap, s) && w < |s.workers| && s.workers[w].Waiting?
    ensures Conserves(cap, s.(workers := s.workers[w := Exited]))
  {
    SumUpdate(s.workers, w, Exited, OnGauge);
    SumUpdate(s.workers, w, Exited, InFlight);
    var t := s.(workers := s.workers[w := Exited]);
    forall x ensures Accounted(t, x) && Processed(t, x) {
      assert Accounted(s, x) && Processed(s, x);
      SumUpdate(s.workers, w, Exited, Holding(x));
      SumUpdate(s.workers, w, Exited, Marking(x));
    }
  }

  lemma WorkConserves(cap: nat, s: State, w: nat)
    requires Conserves(cap, s) && w < |s.workers|
    ensures Conserves(cap, StepWork(s, w))
    ensures StepWork(s, w).accepted == s.accepted
  {
    var t := StepWork(s, w);
    assert t.taken + t.queue == s.taken + s.queue;
    WorkKeepsGauge(s, w);
    forall x ensures Accounted(t, x) && Processed(t, x) {
      WorkAccounts(s, w, x);
      WorkProcesses(s, w, x);
    }
  }

  lemma WorkKeepsGauge(s: State, w: nat)
    requires Gauged(s) && w < |s.workers|
    ensures Gauged(StepWork(s, w))
  {
    hide Sum;
    var p := StepWork(s, w).workers[w];
    SumUpdate(s.workers, w, p, OnGauge);
    SumUpdate(s.workers, w, p, InFlight);
    assert StepWork(s, w).workers == s.workers[w := p];
  }

  lemma WorkAccounts(s: State, w: nat, x: Item)
    requires Accounted(s, x) && w < |s.workers|
    ensures Accounted(StepWork(s, w), x)
  {
    hide Sum;
    var p := StepWork(s, w).workers[w];
    SumUpdate(s.workers, w, p, Holding(x));
    assert StepWork(s, w).workers == s.workers[w := p];
    match s.workers[w]
    case Waiting =>
      if s.queue != [] {
        CountSnoc(s.taken, s.queue[0], x);
      }
    case Marked(item) => CountSnoc(s.finished, item, x);
    case _ =>
  }

  lemma WorkProcesses(s: State, w: nat, x: Item)
    requires Processed(s, x) && w < |s.workers|
    ensures Processed(StepWork(s, w), x)
  {
    hide Sum;
    var p := StepWork(s, w).workers[w];
    SumUpdate(s.workers, w, p, Marking(x));
    assert StepWork(s, w).workers == s.workers[w := p];
    if s.workers[w].Handling? {
      CountSnoc(s.processed, s.workers[w].item, x);
    } else if s.workers[w].Marked? {
      CountSnoc(s.finished, s.workers[w].item, x);
    }
  }

  lemma {:induction false} RunConserves(cap: nat, acts: seq<Act>)
    ensures Conserves(cap, Run(cap, acts))
    decreases |acts|
  {
    if acts != [] {
      RunConserves(cap, acts[..|acts| - 1]);
      StepConserves(cap, Run(cap, acts[..|acts| - 1]), acts[|acts| - 1]);
    } else {
      assert forall x :: Accounted(START, x) && Processed(START, x);
    }
  }

  /** In every interleaving of any number of enqueuers and workers: accepted items are taken first in,
      first out; every acceptance of an item is still queued, held by one worker, or finished, and only
      one of these; it is marked as processed once, just before it is finished; the queue keeps its
      bound; the gauge is off by exactly the updates still to be made. */
  lemma Conserved(cap: nat, acts: seq<Act>, x: Item)
    ensures var s := Run(cap, acts);
      && |s.queue| <= cap
      && s.accepted == s.taken + s.queue
      && multiset(s.accepted)[x] == multiset(s.queue)[x] + Sum(s.workers, Holding(x)) + multiset(s.finished)[x]
      && multiset(s.processed)[x] == Sum(s.workers, Marking(x)) + multiset(s.finished)[x]
      && s.gauge == |s.queue| + Sum(s.workers, OnGauge) - s.rising
      && s.inflight == Sum(s.workers, InFlight)
  {
    RunConserves(cap, acts);
    assert Accounted(Run(cap, acts), x) && Processed(Run(cap, acts), x);
  }

  /** A webhook is dropped exactly when the queue is full, and workers exit only after Stop. */
  lemma DropsAndExits(cap: nat, acts: seq<Act>, x: Item)
    ensures var s := Run(cap, acts);
      && (Step(cap, s, Enqueue(x)) == s <==> |s.queue| == cap)
      && ((exists p :: p in s.workers && p.Exited?) ==> Stop in acts)
  {
    var s := Run(cap, acts);
    RunConserves(cap, acts);
    assert |s.queue| < cap ==> Step(cap, s, Enqueue(x)).accepted != s.accepted;
    ExitsNeedStop(cap, acts);
  }

  lemma {:induction false} ExitsNeedStop(cap: nat, acts: seq<Act>)
    ensures Run(cap, acts).stopping ==> Stop in acts
    ensures (exists p :: p in Run(cap, acts).workers && p.Exited?) ==> Run(cap, acts).stopping
    decreases |acts|
  {
    if acts != [] {
      var init, a := acts[..|acts| - 1], acts[|acts| - 1];
      ExitsNeedStop(cap, init);
      var s := Run(cap, init);
      assert acts == init + [a];
      forall p | p in Run(cap, acts).workers && p.Exited? ensures s.stopping {
        assert p in s.workers || a.Exit?;
      }
    }
  }

  // --- draining --------------------------------------------------------------

  /** Steps that a worker still has to take for its item; a queued item takes five. */
  const StepsLeft: Pc -> int := (p: Pc) =>
    match p
    case Took(_) => 4
    case OffGauge(_) => 3
    case Handling(_) => 2
    case Marked(_) => 1
    case _ => 0

  function Remaining(s: State): int {
    5 * |s.queue| + Sum(s.workers, StepsLeft)
  }

  /** Worker steps, each of which changes something. */
  predicate Busy(s: State, ws: seq<nat>)
    decreases |ws|
  {
    ws == []
    || (ws[0] < |s.workers| && StepWork(s, ws[0]) != s && Busy(StepWork(s, ws[0]), ws[1..]))
  }

  function Works(s: State, ws: seq<nat>): State
    requires Busy(s, ws)
    decreases |ws|
  {
    if ws == [] then s else Works(StepWork(s, ws[0]), ws[1..])
  }

  predicate Drained(s: State) {
    s.queue == [] && forall p <- s.workers :: p.Waiting? || p.Exited?
  }

  lemma WorkSpends(s: State, w: nat)
    requires w < |s.workers| && StepWork(s, w) != s
    ensures Remaining(StepWork(s, w)) == Remaining(s) - 1
  {
    hide Sum;
    var t := StepWork(s, w);
    SumUpdate(s.workers, w, t.workers[w], StepsLeft);
    assert t.workers == s.workers[w := t.workers[w]];
  }

  lemma {:induction false} SumPositive(workers: seq<Pc>)
    ensures Sum(workers, StepsLeft) >= 0
    ensures Sum(workers, StepsLeft) == 0 <==> forall p <- workers :: p.Waiting? || p.Exited?
    decreases |workers|
  {
    if workers != [] {
      SumPositive(workers[..|workers| - 1]);
      assert workers == workers[..|workers| - 1] + [workers[|workers| - 1]];
    }
  }

  /** However the workers are scheduled, they take at most Remaining steps, and after exactly that many
      every accepted item is finished. */
  lemma {:induction false} WorkIsBounded(cap: nat, s: State, ws: seq<nat>)
    requires Conserves(cap, s) && Busy(s, ws)
    ensures |ws| <= Remaining(s)
    ensures var t := Works(s, ws);
      && Conserves(cap, t) && t.accepted == s.accepted
      && (|ws| == Remaining(s) <==> Drained(t))
      && (Drained(t) ==> multiset(t.finished) == multiset(s.accepted))
    decreases |ws|
  {
    if ws == [] {
      SumPositive(s.workers);
      if Drained(s) {
        FinishedAll(cap, s);
      }
    } else {
      WorkSpends(s, ws[0]);
      WorkConserves(cap, s, ws[0]);
      WorkIsBounded(cap, StepWork(s, ws[0]), ws[1..]);
    }
  }

  lemma FinishedAll(cap: nat, s: State)
    requires Conserves(cap, s) && Drained(s)
    ensures multiset(s.finished) == multiset(s.accepted)
  {
    assert s.taken + [] == s.taken;
    forall x ensures multiset(s.finished)[x] == multiset(s.accepted)[x] {
      SumZero(s.workers, Holding(x));
      assert Accounted(s, x);
    }
  }

  /** The workers never get stuck: unless all of them have exited, some step is possible until
      everything is drained. */
  lemma NeverStuck(s: State)
    requires exists w :: 0 <= w < |s.workers| && !s.workers[w].Exited?
    ensures !Drained(s) <==> exists w: nat :: w < |s.workers| && StepWork(s, w) != s
  {
    var live :| 0 <= live < |s.workers| && !s.workers[live].Exited?;
    if !Drained(s) {
      if p :| p in s.workers && !p.Waiting? && !p.Exited? {
        var w :| 0 <= w < |s.workers| && s.workers[w] == p;
        assert StepWork(s, w).workers[w] != p;
      } else {
        assert s.workers[live].Waiting?;
        assert StepWork(s, live).workers[live] != Waiting;
      }
    }
  }

  // --- what Idle and Stop do not promise -------------------------------------

  predicate LooksIdle(s: State) {
    s.queue == [] && s.inflight == 0
  }

  /** Idle looks at the queue and the in-flight counter. When both are zero everything is finished
      exactly if no worker is between taking an item and counting it. */
  lemma IdleExactly(cap: nat, acts: seq<Act>)
    requires LooksIdle(Run(cap, acts))
    ensures var s := Run(cap, acts);
      multiset(s.finished) == multiset(s.accepted)
      <==> forall p <- s.workers :: !p.Took? && !p.OffGauge?
  {
    var s := Run(cap, acts);
    RunConserves(cap, acts);
    NothingUncounted(cap, s);
    assert s.taken + [] == s.taken;
  }

  lemma {:induction false} NoneInFlight(workers: seq<Pc>)
    ensures Sum(workers, InFlight) >= 0
    ensures Sum(workers, InFlight) == 0 ==> forall p <- workers :: !p.Handling? && !p.Marked?
    decreases |workers|
  {
    if workers != [] {
      NoneInFlight(workers[..|workers| - 1]);
      assert workers == workers[..|workers| - 1] + [workers[|workers| - 1]];
    }
  }

  /** So Idle can return while an item has yet to be handled. */
  lemma IdleTooEarly(cap: nat, item: Item) returns (acts: seq<Act>)
    requires cap > 0
    ensures LooksIdle(Run(cap, acts)) && Run(cap, acts).accepted == [item] && Run(cap, acts).finished == []
  {
    acts := [Spawn, Enqueue(item), Work(0)];
    assert [Spawn][..0] == [];
    assert [Spawn, Enqueue(item)][..1] == [Spawn];
    assert acts[..2] == [Spawn, Enqueue(item)];
    assert Run(cap, [Spawn]) == Step(cap, START, Spawn);
    var s := Run(cap, [Spawn, Enqueue(item)]);
    assert s == Step(cap, Run(cap, [Spawn]), Enqueue(item));
    assert s.workers == [Waiting] && s.queue == [item];
    assert Run(cap, acts) == StepWork(s, 0);
  }

  /** Once every worker has exited after Stop, what was accepted is finished except for the items left
      in the queue. */
  lemma StopLeavesQueue(cap: nat, acts: seq<Act>)
    requires forall p <- Run(cap, acts).workers :: p.Exited?
    ensures var s := Run(cap, acts);
      && multiset(s.accepted) == multiset(s.queue) + multiset(s.finished)
      && (multiset(s.accepted) == multiset(s.finished) <==> s.queue == [])
      && s.accepted == s.taken + s.queue
      && s.inflight == 0 && s.gauge == |s.queue| - s.rising
  {
    var s := Run(cap, acts);
    RunConserves(cap, acts);
    SumZero(s.workers, OnGauge);
    SumZero(s.workers, InFlight);
    forall x ensures multiset(s.accepted)[x] == multiset(s.queue)[x] + multiset(s.finished)[x] {
      SumZero(s.workers, Holding(x));
      assert Accounted(s, x);
    }
    if s.queue != [] {
      assert multiset(s.accepted)[s.queue[0]] > multiset(s.finished)[s.queue[0]];
    }
  }

  /** A schedule in which Stop leaves an accepted item behind. */
  lemma StopLeavesItem(cap: nat, item: Item) returns (acts: seq<Act>)
    requires cap > 0
    ensures var s := Run(cap, acts);
      && (forall p <- s.workers :: p.Exited?) && s.workers != []
      && s.queue == [item] == s.accepted && s.finished == []
  {
    acts := [Spawn, Enqueue(item), Stop, Exit(0)];
    assert [Spawn][..0] == [];
    assert [Spawn, Enqueue(item)][..1] == [Spawn];
    assert [Spawn, Enqueue(item), Stop][..2] == [Spawn, Enqueue(item)];
    assert acts[..3] == [Spawn, Enqueue(item), Stop];
    assert Run(cap, [Spawn]) == Step(cap, START, Spawn);
    var s := Run(cap, [Spawn, Enqueue(item)]);
    assert s == Step(cap, Run(cap, [Spawn]), Enqueue(item));
    assert s.workers == [Waiting] && s.queue == [item];
    var t := Run(cap, [Spawn, Enqueue(item), Stop]);
    assert t == Step(cap, s, Stop);
    assert Run(cap, acts) == Step(cap, t, Exit(0));
  }

  /** Nothing but the queue moves between the two states, and the queue only grows. */
  predicate Standstill(s: State, t: State) {
    && t.workers == s.workers && t.taken == s.taken && t.processed == s.processed && t.finished == s.finished
    && s.queue <= t.queue
  }

  lemma StepStandsStill(cap: nat, s: State, a: Act)
    requires (forall w :: 0 <= w < |s.workers| ==> s.workers[w].Exited?) && !a.Spawn?
    ensures Standstill(s, Step(cap, s, a))
  {
  }

  /** Unless workers are started again, what is left in the queue then is never handled. */
  lemma {:induction false} StoppedForGood(cap: nat, acts: seq<Act>, more: seq<Act>)
    requires (forall p <- Run(cap, acts).workers :: p.Exited?) && Spawn !in more
    ensures Standstill(Run(cap, acts), Run(cap, acts + more))
    decreases |more|
  {
    if more == [] {
      assert acts + more == acts;
    } else {
      hide Step;
      var init, a := more[..|more| - 1], more[|more| - 1];
      StoppedForGood(cap, acts, init);
      assert (acts + more)[..|acts + more| - 1] == acts + init;
      assert a in more;
      StepStandsStill(cap, Run(cap, acts + init), a);
    }
  }

  // --- when Stop drains ------------------------------------------------------

  /** Neither a new worker nor a new item. */
  predicate Closed(acts: seq<Act>) {
    forall a <- acts :: !a.Spawn? && !a.Enqueue?
  }

  /** However things go on from here without new workers and items: once all workers have exited, every
      accepted item is finished. */
  ghost predicate Drains(cap: nat, acts: seq<Act>) {
    forall more :: Closed(more) && AllExited(Run(cap, acts + more)) ==>
      multiset(Run(cap, acts + more).finished) == multiset(Run(cap, acts + more).accepted)
  }

  predicate AllExited(s: State) {
    forall p <- s.workers :: p.Exited?
  }

  lemma RunSnoc(cap: nat, acts: seq<Act>, a: Act)
    ensures Run(cap, acts + [a]) == Step(cap, Run(cap, acts), a)
  {
    assert (acts + [a])[..|acts|] == acts;
  }

  lemma {:induction false} EmptyStaysEmpty(cap: nat, acts: seq<Act>, more: seq<Act>)
    requires Closed(more) && Run(cap, acts).queue == []
    ensures Run(cap, acts + more).queue == []
    decreases |more|
  {
    if more == [] {
      assert acts + more == acts;
    } else {
      var init, a := more[..|more| - 1], more[|more| - 1];
      EmptyStaysEmpty(cap, acts, init);
      assert acts + more == (acts + init) + [a];
      RunSnoc(cap, acts + init, a);
    }
  }

  /** The state of a worker that exits while everything else stays as it is. */
  predicate Retired(s: State, t: State, w: nat)
    requires w < |s.workers|
  {
    t.workers == s.workers[w := Exited] && t.queue == s.queue && t.stopping
  }

  /** Once stopping, a worker can finish what it holds and exit without taking another item. */
  lemma {:induction false} Retire(cap: nat, acts: seq<Act>, w: nat) returns (more: seq<Act>)
    requires w < |Run(cap, acts).workers| && Run(cap, acts).stopping
    ensures Closed(more) && Retired(Run(cap, acts), Run(cap, acts + more), w)
    decreases StepsLeft(Run(cap, acts).workers[w])
  {
    hide Run;
    var s := Run(cap, acts);
    if s.workers[w].Exited? {
      more := [];
      assert acts + [] == acts && s.workers[w := Exited] == s.workers;
    } else if s.workers[w].Waiting? {
      more := [Exit(w)];
      RunSnoc(cap, acts, Exit(w));
    } else {
      RunSnoc(cap, acts, Work(w));
      var t := Run(cap, acts + [Work(w)]);
      var rest := Retire(cap, acts + [Work(w)], w);
      more := [Work(w)] + rest;
      assert (acts + [Work(w)]) + rest == acts + more;
      assert t.workers[w := Exited] == s.workers[w := Exited];
    }
  }

  /** So all of them can, from the n-th on down. */
  lemma {:induction false} RetireAll(cap: nat, acts: seq<Act>, n: nat) returns (more: seq<Act>)
    requires n <= |Run(cap, acts).workers| && Run(cap, acts).stopping
    requires forall w :: n <= w < |Run(cap, acts).workers| ==> Run(cap, acts).workers[w].Exited?
    ensures Closed(more) && AllExited(Run(cap, acts + more))
    ensures Run(cap, acts + more).queue == Run(cap, acts).queue
    decreases n
  {
    hide Run, Step;
    if n == 0 {
      more := [];
      assert acts + [] == acts;
    } else {
      var first := Retire(cap, acts, n - 1);
      var rest := RetireAll(cap, acts + first, n - 1);
      more := first + rest;
      assert (acts + first) + rest == acts + more;
    }
  }

  /** Stop drains, whatever the workers then do, if and only if the queue is empty when it is called:
      with an item in the queue they may all exit without taking it. */
  lemma StopDrainsExactly(cap: nat, acts: seq<Act>)
    ensures Drains(cap, acts + [Stop]) <==> Run(cap, acts).queue == []
  {
    hide Run, Step;
    var stopped := acts + [Stop];
    StopKeepsQueue(cap, acts);
    if Run(cap, acts).queue == [] {
      forall more | Closed(more) && AllExited(Run(cap, stopped + more))
        ensures multiset(Run(cap, stopped + more).finished) == multiset(Run(cap, stopped + more).accepted)
      {
        EmptyStaysEmpty(cap, stopped, more);
        StopLeavesQueue(cap, stopped + more);
      }
    } else {
      var more := RetireAll(cap, stopped, |Run(cap, stopped).workers|);
      StopLeavesQueue(cap, stopped + more);
    }
  }

  lemma StopKeepsQueue(cap: nat, acts: seq<Act>)
    ensures Run(cap, acts + [Stop]).queue == Run(cap, acts).queue && Run(cap, acts + [Stop]).stopping
  {
    RunSnoc(cap, acts, Stop);
  }

  // --- what Idle reads -------------------------------------------------------

  /** Idle reads the queue first and the in-flight counter later. If the queue was empty then and the
      counter is zero now, everything taken by now is finished if and only if no worker is between taking
      an item and counting it; and in that case everything accepted by the first reading is finished. */
  lemma IdleTwoReadings(cap: nat, acts: seq<Act>, more: seq<Act>)
    requires Run(cap, acts).queue == [] && Run(cap, acts + more).inflight == 0
    ensures var s, t := Run(cap, acts), Run(cap, acts + more);
      && (multiset(t.finished) == multiset(t.taken) <==> forall p <- t.workers :: !p.Took? && !p.OffGauge?)
      && (multiset(t.finished) == multiset(t.taken) ==> multiset(s.accepted) <= multiset(t.finished))
  {
    hide Run;
    var s, t := Run(cap, acts), Run(cap, acts + more);
    RunConserves(cap, acts);
    RunConserves(cap, acts + more);
    TakenGrows(cap, acts, more);
    assert s.taken + [] == s.taken;
    assert t.taken == s.taken + t.taken[|s.taken|..];
    NothingUncounted(cap, t);
  }

  lemma NothingUncounted(cap: nat, s: State)
    requires Conserves(cap, s) && s.inflight == 0
    ensures multiset(s.finished) == multiset(s.taken) <==> forall p <- s.workers :: !p.Took? && !p.OffGauge?
  {
    NoneInFlight(s.workers);
    if forall p <- s.workers :: !p.Took? && !p.OffGauge? {
      forall x ensures multiset(s.finished)[x] == multiset(s.taken)[x] {
        SumZero(s.workers, Holding(x));
        assert Accounted(s, x);
      }
    } else {
      var w :| 0 <= w < |s.workers| && (s.workers[w].Took? || s.workers[w].OffGauge?);
      HolderUnfinished(cap, s, w);
    }
  }

  lemma HolderUnfinished(cap: nat, s: State, w: nat)
    requires Conserves(cap, s) && w < |s.workers| && !s.workers[w].Waiting? && !s.workers[w].Exited?
    ensures multiset(s.finished)[s.workers[w].item] < multiset(s.taken)[s.workers[w].item]
  {
    var x := s.workers[w].item;
    assert Accounted(s, x);
    SumUpdate(s.workers, w, Waiting, Holding(x));
    SumNonNegative(s.workers[w := Waiting], Holding(x));
  }

  lemma {:induction false} TakenGrows(cap: nat, acts: seq<Act>, more: seq<Act>)
    ensures Run(cap, acts).taken <= Run(cap, acts + more).taken
    decreases |more|
  {
    if more == [] {
      assert acts + more == acts;
    } else {
      var init := more[..|more| - 1];
      TakenGrows(cap, acts, init);
      assert (acts + more)[..|acts + more| - 1] == acts + init;
    }
  }

  // --- when Idle can be trusted ----------------------------------------------

  /** Idle, called now, does not return before everything is finished, however things go on without new
      workers and items: it finds the queue empty at some point and the counter zero at a later one. */
  ghost predicate IdleHolds(cap: nat, acts: seq<Act>) {
    forall more, later :: Closed(more) && Closed(later) && IdleReturns(cap, acts, more, later) ==>
      var t := Run(cap, acts + more + later);
      multiset(t.finished) == multiset(t.accepted)
  }

  predicate IdleReturns(cap: nat, acts: seq<Act>, more: seq<Act>, later: seq<Act>) {
    Run(cap, acts + more).queue == [] && Run(cap, acts + more + later).inflight == 0
  }

  predicate AllCounted(s: State) {
    forall w :: 0 <= w < |s.workers| ==> !s.workers[w].Took? && !s.workers[w].OffGauge?
  }

  /** With an empty queue and nothing uncounted, it stays like that. */
  lemma {:induction false} QuietStaysQuiet(cap: nat, acts: seq<Act>, more: seq<Act>)
    requires Closed(more) && Run(cap, acts).queue == [] && AllCounted(Run(cap, acts))
    ensures Run(cap, acts + more).queue == [] && AllCounted(Run(cap, acts + more))
    decreases |more|
  {
    if more == [] {
      assert acts + more == acts;
    } else {
      hide Run, Step;
      var init, a := more[..|more| - 1], more[|more| - 1];
      QuietStaysQuiet(cap, acts, init);
      assert acts + more == (acts + init) + [a];
      RunSnoc(cap, acts + init, a);
      StepStaysQuiet(cap, Run(cap, acts + init), a);
    }
  }

  lemma StepStaysQuiet(cap: nat, s: State, a: Act)
    requires s.queue == [] && AllCounted(s) && !a.Enqueue?
    ensures Step(cap, s, a).queue == [] && AllCounted(Step(cap, s, a))
  {
  }

  predicate Idling(p: Pc) {
    p.Waiting? || p.Exited?
  }

  /** A worker can finish what it holds while everything else stays as it is. */
  lemma {:induction false} Settle(cap: nat, acts: seq<Act>, w: nat) returns (more: seq<Act>)
    requires w < |Run(cap, acts).workers|
    ensures Closed(more) && Run(cap, acts + more).queue == Run(cap, acts).queue
    ensures Run(cap, acts + more).workers
         == Run(cap, acts).workers[w := if Run(cap, acts).workers[w].Exited? then Exited else Waiting]
    decreases StepsLeft(Run(cap, acts).workers[w])
  {
    hide Run;
    var s := Run(cap, acts);
    if Idling(s.workers[w]) {
      more := [];
      assert acts + [] == acts && s.workers[w := s.workers[w]] == s.workers;
    } else {
      RunSnoc(cap, acts, Work(w));
      var t := Run(cap, acts + [Work(w)]);
      var rest := Settle(cap, acts + [Work(w)], w);
      more := [Work(w)] + rest;
      assert (acts + [Work(w)]) + rest == acts + more;
      assert t.workers[w := Waiting] == s.workers[w := Waiting];
    }
  }

  /** All workers but one can. */
  lemma {:induction false} SettleOthers(cap: nat, acts: seq<Act>, kept: nat, n: nat) returns (more: seq<Act>)
    requires n <= |Run(cap, acts).workers| && kept < |Run(cap, acts).workers|
    requires forall w :: n <= w < |Run(cap, acts).workers| && w != kept ==> Idling(Run(cap, acts).workers[w])
    ensures var s, t := Run(cap, acts), Run(cap, acts + more);
      && Closed(more) && t.queue == s.queue && |t.workers| == |s.workers|
      && t.workers[kept] == s.workers[kept]
      && forall w :: 0 <= w < |t.workers| && w != kept ==> Idling(t.workers[w])
    decreases n
  {
    hide Run, Step;
    if n == 0 {
      more := [];
      assert acts + [] == acts;
    } else {
      var first := [];
      if n - 1 != kept {
        first := Settle(cap, acts, n - 1);
      } else {
        assert acts + [] == acts;
      }
      var rest := SettleOthers(cap, acts + first, kept, n - 1);
      more := first + rest;
      assert (acts + first) + rest == acts + more;
    }
  }

  /** A worker that has not exited can take everything in the queue, and hold the last item uncounted. */
  lemma {:induction false} TakeAll(cap: nat, acts: seq<Act>, w: nat) returns (more: seq<Act>)
    requires Run(cap, acts).queue != []
    requires w < |Run(cap, acts).workers| && !Run(cap, acts).workers[w].Exited?
    ensures Closed(more) && Run(cap, acts + more).queue == []
    ensures w < |Run(cap, acts + more).workers| && Run(cap, acts + more).workers[w].Took?
    decreases |Run(cap, acts).queue|
  {
    hide Run;
    var first := Settle(cap, acts, w);
    RunSnoc(cap, acts + first, Work(w));
    var took := first + [Work(w)];
    assert (acts + first) + [Work(w)] == acts + took;
    if |Run(cap, acts).queue| == 1 {
      more := took;
    } else {
      var rest := TakeAll(cap, acts + took, w);
      more := took + rest;
      assert (acts + took) + rest == acts + more;
    }
  }

  /** With an item uncounted and the queue empty, Idle can return too early. */
  lemma UncountedFoolsIdle(cap: nat, acts: seq<Act>, more: seq<Act>, w: nat)
    requires Closed(more) && Run(cap, acts + more).queue == [] && w < |Run(cap, acts + more).workers|
    requires Run(cap, acts + more).workers[w].Took? || Run(cap, acts + more).workers[w].OffGauge?
    ensures !IdleHolds(cap, acts)
  {
    hide Run, Step;
    var before := acts + more;
    var later := SettleOthers(cap, before, w, |Run(cap, before).workers|);
    var t := Run(cap, before + later);
    RunConserves(cap, before + later);
    SumZero(t.workers, InFlight);
    HolderUnfinished(cap, t, w);
    assert t.taken + [] == t.taken;
    assert IdleReturns(cap, acts, more, later);
  }

  /** Idle can be trusted if and only if, when it is called, the queue is empty and no worker is between
      taking an item and counting it; or the queue is not empty and no worker is left, so that it never
      returns at all. */
  lemma IdleHoldsExactly(cap: nat, acts: seq<Act>)
    ensures var s := Run(cap, acts);
      IdleHolds(cap, acts) <==> if s.queue == [] then AllCounted(s) else AllExited(s)
  {
    hide Run, Step;
    var s := Run(cap, acts);
    if s.queue == [] && AllCounted(s) {
      forall more, later | Closed(more) && Closed(later) && IdleReturns(cap, acts, more, later)
        ensures multiset(Run(cap, acts + more + later).finished) == multiset(Run(cap, acts + more + later).accepted)
      {
        QuietFinishes(cap, acts, more, later);
      }
    } else if s.queue == [] {
      var w :| 0 <= w < |s.workers| && (s.workers[w].Took? || s.workers[w].OffGauge?);
      assert acts + [] == acts;
      UncountedFoolsIdle(cap, acts, [], w);
    } else if AllExited(s) {
      forall more | Closed(more) ensures Run(cap, acts + more).queue != [] {
        StoppedForGood(cap, acts, more);
      }
    } else {
      var w :| 0 <= w < |s.workers| && !s.workers[w].Exited?;
      var more := TakeAll(cap, acts, w);
      UncountedFoolsIdle(cap, acts, more, w);
    }
  }

  lemma QuietFinishes(cap: nat, acts: seq<Act>, more: seq<Act>, later: seq<Act>)
    requires Closed(more) && Closed(later) && Run(cap, acts).queue == [] && AllCounted(Run(cap, acts))
    requires Run(cap, acts + more + later).inflight == 0
    ensures var t := Run(cap, acts + more + later); multiset(t.finished) == multiset(t.accepted)
  {
    hide Run, Step;
    var t := Run(cap, acts + more + later);
    assert acts + more + later == acts + (more + later);
    QuietStaysQuiet(cap, acts, more + later);
    RunConserves(cap, acts + more + later);
    NothingUncounted(cap, t);
    assert t.taken + [] == t.taken;
  }

  // --- starting again, and the gauge -----------------------------------------

  /** Whatever happened before, also Stop, a worker that is started can take everything that was left. */
  lemma NewWorkerTakesAll(cap: nat, acts: seq<Act>) returns (more: seq<Act>)
    ensures Closed(more)
    ensures var s, t := Run(cap, acts), Run(cap, acts + [Spawn] + more);
      t.queue == [] && t.taken == t.accepted == s.accepted
  {
    var started := acts + [Spawn];
    RunSnoc(cap, acts, Spawn);
    var s, w := Run(cap, started), |Run(cap, acts).workers|;
    if s.queue == [] {
      more := [];
      assert started + [] == started;
    } else {
      hide Run, Step;
      more := TakeAll(cap, started, w);
      ClosedAcceptsNothing(cap, started, more);
    }
    RunConserves(cap, started);
    RunConserves(cap, started + more);
    var t := Run(cap, started + more);
    assert t.taken + [] == t.taken;
  }

  lemma {:induction false} ClosedAcceptsNothing(cap: nat, acts: seq<Act>, more: seq<Act>)
    requires Closed(more)
    ensures Run(cap, acts + more).accepted == Run(cap, acts).accepted
    decreases |more|
  {
    if more == [] {
      assert acts + more == acts;
    } else {
      var init := more[..|more| - 1];
      ClosedAcceptsNothing(cap, acts, init);
      assert (acts + more)[..|acts + more| - 1] == acts + init;
    }
  }

  /** Once the enqueuers have made the updates they still owe, the gauge counts what is queued and what the
      workers have not yet taken off it. */
  lemma {:induction false} GaugeCatchesUp(cap: nat, acts: seq<Act>)
    ensures var s, t := Run(cap, acts), Run(cap, acts + seq(Run(cap, acts).rising, _ => Raise));
      t.gauge == |s.queue| + Sum(s.workers, OnGauge) && t.rising == 0 && t.queue == s.queue && t.workers == s.workers
    decreases Run(cap, acts).rising
  {
    hide Run, Sum;
    var s := Run(cap, acts);
    RunConserves(cap, acts);
    if s.rising == 0 {
      assert acts + seq(0, _ => Raise) == acts;
    } else {
      RunSnoc(cap, acts, Raise);
      GaugeCatchesUp(cap, acts + [Raise]);
      assert acts + seq(s.rising, _ => Raise) == (acts + [Raise]) + seq(s.rising - 1, _ => Raise);
    }
  }
}
