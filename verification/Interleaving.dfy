/** Isolation under interleaving: of any schedule, a payment sees exactly the part that concerns the
    requests naming it. */
module Interleaving {
  import opened Isolation
  import R = Runs
  import W = World

  // --- the part of a schedule that concerns a payment ------------------------

  /** The payments named by the requests that arrived, one per task. */
  function Tags(ms: seq<W.Move>): seq<string> {
    if ms == [] then []
    else
      var m := ms[|ms| - 1];
      Tags(ms[..|ms| - 1]) + (if m.Arrive? && W.IsRequest(m.request) then [NamedBy(m.request)] else [])
  }

  /** The elements whose tag is p. */
  function Select<T>(xs: seq<T>, tags: seq<string>, p: string): seq<T>
    requires |xs| == |tags|
  {
    if xs == [] then []
    else
      Select(xs[..|xs| - 1], tags[..|xs| - 1], p) + (if tags[|xs| - 1] == p then [xs[|xs| - 1]] else [])
  }

  /** Where the t-th element ends up among those. */
  function Position(tags: seq<string>, p: string, t: nat): nat
    requires t <= |tags|
  {
    if t == 0 then 0 else Position(tags, p, t - 1) + (if tags[t - 1] == p then 1 else 0)
  }

  /** The schedule of the requests naming p alone. */
  function Project(ms: seq<W.Move>, p: string): seq<W.Move> {
    if ms == [] then []
    else
      var init := ms[..|ms| - 1];
      Project(init, p) + Projected(ms[|ms| - 1], Tags(init), p)
  }

  function Projected(m: W.Move, tags: seq<string>, p: string): (r: seq<W.Move>)
    ensures |r| <= 1
  {
    match m
    case Arrive(a) => if W.IsRequest(a) && NamedBy(a) == p then [m] else []
    case Advance(t) => if t < |tags| && tags[t] == p then [W.Advance(Position(tags, p, t))] else []
  }

  lemma {:induction false} SelectUpdate<T>(xs: seq<T>, tags: seq<string>, p: string, t: nat, x: T)
    requires t < |xs| == |tags|
    ensures var k := Position(tags, p, t); var sel := Select(xs, tags, p);
      if tags[t] == p then k < |sel| && sel[k] == xs[t] && Select(xs[t := x], tags, p) == sel[k := x]
      else Select(xs[t := x], tags, p) == sel
    decreases |xs|
  {
    var n := |xs| - 1;
    if t < n {
      SelectUpdate(xs[..n], tags[..n], p, t, x);
      assert xs[t := x][..n] == xs[..n][t := x];
      PositionPrefix(tags, n, p, t);
    } else {
      assert xs[t := x][..n] == xs[..n];
      SelectLength(xs[..n], tags[..n], p);
      PositionPrefix(tags, n, p, n);
    }
  }

  lemma {:induction false} SelectLength<T>(xs: seq<T>, tags: seq<string>, p: string)
    requires |xs| == |tags|
    ensures |Select(xs, tags, p)| == Position(tags, p, |tags|)
    decreases |xs|
  {
    if xs != [] {
      SelectLength(xs[..|xs| - 1], tags[..|xs| - 1], p);
      PositionPrefix(tags, |xs| - 1, p, |xs| - 1);
    }
  }

  lemma {:induction false} PositionPrefix(tags: seq<string>, n: nat, p: string, t: nat)
    requires t <= n <= |tags|
    ensures Position(tags[..n], p, t) == Position(tags, p, t)
    decreases t
  {
    if t > 0 {
      PositionPrefix(tags, n, p, t - 1);
    }
  }

  lemma SelectSnoc<T>(xs: seq<T>, tags: seq<string>, p: string, x: T, tag: string)
    requires |xs| == |tags|
    ensures Select(xs + [x], tags + [tag], p) == Select(xs, tags, p) + (if tag == p then [x] else [])
  {
    assert (xs + [x])[..|xs|] == xs && (tags + [tag])[..|xs|] == tags;
  }

  // --- the simulation --------------------------------------------------------

  /** Every action of a task names the payment of its request, and uses only what that payment owns. */
  ghost predicate Tagged(tasks: seq<seq<W.Act>>, tags: seq<string>, o: Owners) {
    |tasks| == |tags|
    && forall t :: 0 <= t < |tasks| ==> forall a <- tasks[t] :: Names(a, o) == tags[t] && Owned(a, o)
  }

  ghost predicate Mirrors(s: W.System, v: W.System, tags: seq<string>, p: string, o: Owners) {
    && Simulates(s.world, v.world, p, o)
    && Tagged(s.tasks, tags, o)
    && v.tasks == Select(s.tasks, tags, p)
  }

  /** What an action leaves to do names the same payment. */
  lemma RestNames(w: W.World, a: W.Act, o: Owners)
    requires Tidy(w, o) && Owned(a, o)
    ensures forall b <- W.Exec(w, a).rest :: Names(b, o) == Names(a, o) && Owned(b, o)
  {
    hide W.Exec, View, Tidy;
    assert SameKeys(w, w, Names(a, o), o);
    ExecOwn(w, w, a, Names(a, o), o);
    ExecTidy(w, a, o);
  }

  lemma ArriveMirrors(s: W.System, v: W.System, tags: seq<string>, p: string, o: Owners, a: W.Act)
    requires Mirrors(s, v, tags, p, o) && W.IsRequest(a) && Owned(a, o)
    ensures NamedBy(a) == p ==> Mirrors(W.Step(s, W.Arrive(a)), W.Step(v, W.Arrive(a)), tags + [NamedBy(a)], p, o)
    ensures NamedBy(a) != p ==> Mirrors(W.Step(s, W.Arrive(a)), v, tags + [NamedBy(a)], p, o)
  {
    hide Simulates, Tagged, Names, Owned, W.Exec;
    RequestTagged(s.tasks, tags, o, a);
    SelectSnoc(s.tasks, tags, p, [a], NamedBy(a));
  }

  lemma RequestTagged(tasks: seq<seq<W.Act>>, tags: seq<string>, o: Owners, a: W.Act)
    requires Tagged(tasks, tags, o) && W.IsRequest(a) && Owned(a, o)
    ensures |tasks| == |tags| && Tagged(tasks + [[a]], tags + [NamedBy(a)], o)
  {
    hide Owned;
    assert Names(a, o) == NamedBy(a);
  }

  lemma AdvanceMirrors(s: W.System, v: W.System, tags: seq<string>, p: string, o: Owners, t: nat)
    requires Mirrors(s, v, tags, p, o) && t < |s.tasks| && s.tasks[t] != []
    ensures tags[t] == p ==>
      Mirrors(W.Step(s, W.Advance(t)), W.Step(v, W.Advance(Position(tags, p, t))), tags, p, o)
    ensures tags[t] != p ==> Mirrors(W.Step(s, W.Advance(t)), v, tags, p, o)
  {
    hide W.Exec, View, Tidy, Owned, Names;
    var a := s.tasks[t][0];
    assert a in s.tasks[t];
    var e, f := W.Exec(s.world, a), W.Exec(v.world, a);
    var after := e.rest + s.tasks[t][1..];
    SelectUpdate(s.tasks, tags, p, t, after);
    RestNames(s.world, a, o);
    AfterTagged(s.tasks, tags, o, t, after);
    ExecTidy(s.world, a, o);
    if tags[t] == p {
      ExecTidy(v.world, a, o);
      ExecOwn(s.world, v.world, a, p, o);
      assert Simulates(e.world, f.world, p, o);
    } else {
      ExecForeign(s.world, a, p, o);
      assert Simulates(e.world, v.world, p, o);
    }
  }

  lemma AfterTagged(tasks: seq<seq<W.Act>>, tags: seq<string>, o: Owners, t: nat, acts: seq<W.Act>)
    requires Tagged(tasks, tags, o) && t < |tasks|
    requires forall a <- acts :: Names(a, o) == tags[t] && Owned(a, o)
    ensures Tagged(tasks[t := acts], tags, o)
  {
  }

  // --- every schedule --------------------------------------------------------

  ghost predicate AllOwned(ms: seq<W.Move>, o: Owners) {
    forall m <- ms :: m.Arrive? && W.IsRequest(m.request) ==> Owned(m.request, o)
  }

  lemma {:induction false} RunMirrors(ms: seq<W.Move>, p: string, o: Owners)
    requires AllOwned(ms, o)
    ensures Mirrors(W.Run(W.START, ms), W.Run(W.START, Project(ms, p)), Tags(ms), p, o)
    decreases |ms|
  {
    if ms == [] {
      assert Tidy(W.EMPTY, o);
    } else {
      hide Mirrors, W.Step, Projected;
      var init, m := ms[..|ms| - 1], ms[|ms| - 1];
      RunMirrors(init, p, o);
      var s, v, tags := W.Run(W.START, init), W.Run(W.START, Project(init, p)), Tags(init);
      StepMirrors(s, v, tags, p, o, m);
      RunStepped(Project(init, p), Projected(m, tags, p));
    }
  }

  lemma RunStepped(ms: seq<W.Move>, more: seq<W.Move>)
    requires |more| <= 1
    ensures W.Run(W.START, ms + more) == Stepped(W.Run(W.START, ms), more)
  {
    hide W.Step;
    if more == [] {
      assert ms + more == ms;
    } else {
      R.RunSnoc(W.START, ms, more[0]);
      assert more == [more[0]];
    }
  }

  function Stepped(s: W.System, ms: seq<W.Move>): W.System {
    if ms == [] then s else W.Step(s, ms[0])
  }

  lemma StepMirrors(s: W.System, v: W.System, tags: seq<string>, p: string, o: Owners, m: W.Move)
    requires Mirrors(s, v, tags, p, o)
    requires m.Arrive? && W.IsRequest(m.request) ==> Owned(m.request, o)
    ensures Mirrors(W.Step(s, m), Stepped(v, Projected(m, tags, p)),
                    tags + (if m.Arrive? && W.IsRequest(m.request) then [NamedBy(m.request)] else []), p, o)
  {
    match m
    case Arrive(a) =>
      if W.IsRequest(a) {
        ArriveMirrors(s, v, tags, p, o, a);
      } else {
        assert tags + [] == tags;
      }
    case Advance(t) =>
      assert tags + [] == tags;
      if t < |tags| {
        if s.tasks[t] != [] {
          AdvanceMirrors(s, v, tags, p, o, t);
        } else {
          SelectUpdate(s.tasks, tags, p, t, []);
        }
      }
  }

  // --- the theorem -----------------------------------------------------------

  function Arrived(ms: seq<W.Move>): seq<W.Act> {
    if ms == [] then []
    else
      var m := ms[|ms| - 1];
      Arrived(ms[..|ms| - 1]) + (if m.Arrive? && W.IsRequest(m.request) then [m.request] else [])
  }

  lemma {:induction false} ArrivedIn(ms: seq<W.Move>)
    ensures forall m <- ms :: m.Arrive? && W.IsRequest(m.request) ==> m.request in Arrived(ms)
    ensures forall a <- Arrived(ms) :: W.IsRequest(a)
    decreases |ms|
  {
    if ms != [] {
      ArrivedIn(ms[..|ms| - 1]);
      assert ms == ms[..|ms| - 1] + [ms[|ms| - 1]];
    }
  }

  /** In every interleaving, if no two payments share an event or a case reference, a payment ends up
      with what the schedule of its own requests alone would have given it. */
  lemma SchedulesAreIsolated(ms: seq<W.Move>, p: string)
    requires NothingShared(Arrived(ms))
    ensures View(W.Run(W.START, ms).world, p) == View(W.Run(W.START, Project(ms, p)).world, p)
  {
    var acts := Arrived(ms);
    ghost var ofKey: string -> string := (key: string) => KeyOwner(acts, key);
    ghost var ofCase: string -> string := (caseRef: string) => CaseOwner(acts, caseRef);
    ghost var o := Owners(ofKey, ofCase);
    ArrivedIn(ms);
    forall a | a in acts ensures Owned(a, o) {
      RequestOwned(acts, a, o);
    }
    RunMirrors(ms, p, o);
  }
}
