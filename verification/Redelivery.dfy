/** Duplicate deliveries under interleaving: whenever a delivery turns out to be a duplicate, the run
    without that request is the same, however the first delivery of the event is still being processed. */
module Redelivery {
  import opened Domain
  import opened Webhooks
  import opened Interleaving
  import W = World

  /** A delivery of an event that is already recorded. */
  predicate Repeats(w: W.World, a: W.Act) {
    Identified(a) && W.WebhookKey(EventOf(a).0, EventOf(a).1) in w.webhooks
  }

  lemma RepeatDoesNothing(w: W.World, a: W.Act)
    requires Repeats(w, a)
    ensures W.Exec(w, a) == W.Executed(w, [])
  {
  }

  /** Whenever a request of the set takes a step, it is a delivery of a recorded event. */
  ghost predicate OnlyRepeats(ms: seq<W.Move>, repeats: set<nat>) {
    forall n :: 0 <= n < |ms| ==> RepeatsAt(W.Run(W.START, ms[..n]), ms[n], repeats)
  }

  predicate RepeatsAt(s: W.System, m: W.Move, repeats: set<nat>) {
    m.Advance? && m.task in repeats && m.task < |s.tasks| && s.tasks[m.task] != []
    ==> Repeats(s.world, s.tasks[m.task][0])
  }

  function Marks(n: nat, repeats: set<nat>): (tags: seq<string>)
    ensures |tags| == n
  {
    seq(n, k => if k in repeats then "repeat" else "first")
  }

  function Requests(ms: seq<W.Move>): nat {
    if ms == [] then 0
    else
      var m := ms[|ms| - 1];
      Requests(ms[..|ms| - 1]) + (if m.Arrive? && W.IsRequest(m.request) then 1 else 0)
  }

  /** The schedule without the requests of the set. */
  function Without(ms: seq<W.Move>, repeats: set<nat>): seq<W.Move> {
    if ms == [] then []
    else
      var init := ms[..|ms| - 1];
      Without(init, repeats) + Left(ms[|ms| - 1], Requests(init), repeats)
  }

  function Left(m: W.Move, n: nat, repeats: set<nat>): (r: seq<W.Move>)
    ensures |r| <= 1
  {
    match m
    case Arrive(a) => if W.IsRequest(a) && n !in repeats then [m] else []
    case Advance(t) =>
      if t < n && t !in repeats then [W.Advance(Position(Marks(n, repeats), "first", t))] else []
  }

  /** The same store, and the same requests in flight except for the set. */
  ghost predicate Same(s: W.System, v: W.System, n: nat, repeats: set<nat>) {
    |s.tasks| == n && v.world == s.world && v.tasks == Select(s.tasks, Marks(n, repeats), "first")
  }

  lemma StepSame(s: W.System, v: W.System, n: nat, repeats: set<nat>, m: W.Move)
    requires Same(s, v, n, repeats) && RepeatsAt(s, m, repeats)
    ensures Same(W.Step(s, m), Stepped(v, Left(m, n, repeats)),
                 n + (if m.Arrive? && W.IsRequest(m.request) then 1 else 0), repeats)
  {
    hide W.Exec, Repeats;
    match m
    case Arrive(a) =>
      if W.IsRequest(a) {
        var tag := if n in repeats then "repeat" else "first";
        assert Marks(n + 1, repeats) == Marks(n, repeats) + [tag];
        SelectSnoc(s.tasks, Marks(n, repeats), "first", [a], tag);
      }
    case Advance(t) =>
      if t < n && s.tasks[t] != [] {
        var acts := s.tasks[t];
        var e := W.Exec(s.world, acts[0]);
        SelectUpdate(s.tasks, Marks(n, repeats), "first", t, e.rest + acts[1..]);
        if t in repeats {
          RepeatDoesNothing(s.world, acts[0]);
        }
      } else if t < n {
        SelectUpdate(s.tasks, Marks(n, repeats), "first", t, []);
      }
  }

  /** In every interleaving, leaving out requests that only ever turned out to be duplicate deliveries
      changes neither the store, with its intents, rows, histories, audit log and calls, nor what any
      other request still has to do. */
  lemma {:induction false} RepeatsVanish(ms: seq<W.Move>, repeats: set<nat>)
    requires OnlyRepeats(ms, repeats)
    ensures Same(W.Run(W.START, ms), W.Run(W.START, Without(ms, repeats)), Requests(ms), repeats)
    decreases |ms|
  {
    if ms != [] {
      hide W.Step, Same, Left, RepeatsAt;
      var init, m := ms[..|ms| - 1], ms[|ms| - 1];
      PrefixOnlyRepeats(ms, repeats);
      RepeatsVanish(init, repeats);
      assert RepeatsAt(W.Run(W.START, ms[..|ms| - 1]), ms[|ms| - 1], repeats);
      StepSame(W.Run(W.START, init), W.Run(W.START, Without(init, repeats)), Requests(init), repeats, m);
      RunStepped(Without(init, repeats), Left(m, Requests(init), repeats));
    }
  }

  lemma PrefixOnlyRepeats(ms: seq<W.Move>, repeats: set<nat>)
    requires ms != [] && OnlyRepeats(ms, repeats)
    ensures OnlyRepeats(ms[..|ms| - 1], repeats)
  {
    hide W.Run, RepeatsAt;
    var init := ms[..|ms| - 1];
    forall n | 0 <= n < |init| ensures RepeatsAt(W.Run(W.START, init[..n]), init[n], repeats) {
      assert init[..n] == ms[..n] && init[n] == ms[n];
    }
  }

  // --- every delivery but the first is a repeat ------------------------------

  /** The action that the n-th decision of a schedule executes, if any. */
  function Executing(ms: seq<W.Move>, n: nat): Option<W.Act>
    requires n < |ms|
  {
    var s := W.Run(W.START, ms[..n]);
    if ms[n].Advance? && ms[n].task < |s.tasks| && s.tasks[ms[n].task] != []
    then Some(s.tasks[ms[n].task][0]) else None
  }

  lemma StepKeepsKeys(s: W.System, m: W.Move)
    ensures s.world.webhooks.Keys <= W.Step(s, m).world.webhooks.Keys
    ensures m.Advance? && m.task < |s.tasks| && s.tasks[m.task] != [] ==>
      KeysOf(s.tasks[m.task][0]) <= W.Step(s, m).world.webhooks.Keys
  {
    if m.Advance? && m.task < |s.tasks| && s.tasks[m.task] != [] {
      ExecAddsKeys(s.world, s.tasks[m.task][0]);
    }
  }

  lemma {:induction false} KeyStays(ms: seq<W.Move>, n: nat, j: nat, key: string)
    requires n <= j <= |ms| && key in W.Run(W.START, ms[..n]).world.webhooks
    ensures key in W.Run(W.START, ms[..j]).world.webhooks
    decreases j
  {
    hide W.Step;
    if n < j {
      KeyStays(ms, n, j - 1, key);
      StepKeepsKeys(W.Run(W.START, ms[..j - 1]), ms[j - 1]);
      assert ms[..j][..j - 1] == ms[..j - 1];
    }
  }

  /** In every interleaving, of all deliveries of an event only the first to be executed is not a
      repeat. */
  lemma LaterOnesRepeat(ms: seq<W.Move>, i: nat, j: nat)
    requires i < j < |ms| && Executing(ms, i).Some? && Executing(ms, j).Some?
    requires var a, b := Executing(ms, i).value, Executing(ms, j).value;
      Identified(a) && Identified(b) && EventOf(a) == EventOf(b)
    ensures Repeats(W.Run(W.START, ms[..j]).world, Executing(ms, j).value)
  {
    hide W.Step, W.Accepted;
    var a := Executing(ms, i).value;
    var key := W.WebhookKey(EventOf(a).0, EventOf(a).1);
    StepKeepsKeys(W.Run(W.START, ms[..i]), ms[i]);
    assert key in KeysOf(a);
    assert ms[..i + 1][..i] == ms[..i];
    assert key in W.Run(W.START, ms[..i + 1]).world.webhooks;
    KeyStays(ms, i + 1, j, key);
  }
}
