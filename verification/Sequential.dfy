/** Requests handled one after another are one of the interleavings, so whatever every interleaving
    keeps also holds after any sequence of requests. */
module Sequential {
  import opened Domain
  import opened Webhooks
  import opened Runs
  import opened Conservation
  import opened Engine
  import opened Tally
  import W = World

  lemma {:induction false} RunConcat(s: W.System, ms: seq<W.Move>, more: seq<W.Move>)
    ensures W.Run(s, ms + more) == W.Run(W.Run(s, ms), more)
    decreases |more|
  {
    if more == [] {
      assert ms + more == ms;
    } else {
      var init, m := more[..|more| - 1], more[|more| - 1];
      assert ms + more == (ms + init) + [m];
      RunSnoc(s, ms + init, m);
      assert more == init + [m];
      RunSnoc(W.Run(s, ms), init, m);
      RunConcat(s, ms, init);
    }
  }

  /** Giving one request all the turns until it is done. */
  lemma {:induction false} Finish(s: W.System, t: nat) returns (ms: seq<W.Move>)
    requires t < |s.tasks|
    ensures W.Run(s, ms) == W.System(W.RunAll(s.world, s.tasks[t]), s.tasks[t := []])
    decreases W.Weight(s.tasks[t])
  {
    var acts := s.tasks[t];
    if acts == [] {
      ms := [];
      assert s.tasks[t := []] == s.tasks;
    } else {
      var next := W.Step(s, W.Advance(t));
      assert acts == [acts[0]] + acts[1..];
      Lighter(s.world, acts[0], acts[1..]);
      RunAllOne(s.world, acts[0], acts[1..]);
      var rest := Finish(next, t);
      ms := [W.Advance(t)] + rest;
      RunConcat(s, [W.Advance(t)], rest);
      RunSnoc(s, [], W.Advance(t));
      assert [] + [W.Advance(t)] == [W.Advance(t)];
      assert next.tasks[t := []] == s.tasks[t := []];
    }
  }

  /** Some interleaving ends, with nothing in flight, in the state that the sequence leads to. */
  lemma {:induction false} SequenceIsInterleaving(requests: seq<W.Act>) returns (ms: seq<W.Move>)
    requires forall a <- requests :: W.IsRequest(a)
    ensures W.Run(W.START, ms).world == W.RunAll(W.EMPTY, requests)
    ensures W.AtRest(W.Run(W.START, ms))
    decreases |requests|
  {
    hide W.Exec;
    if requests == [] {
      ms := [];
    } else {
      var init, a := requests[..|requests| - 1], requests[|requests| - 1];
      var before := SequenceIsInterleaving(init);
      var s := W.Run(W.START, before);
      var arrived := W.Step(s, W.Arrive(a));
      var rest := Finish(arrived, |s.tasks|);
      ms := before + [W.Arrive(a)] + rest;
      RunSnoc(W.START, before, W.Arrive(a));
      RunConcat(W.START, before + [W.Arrive(a)], rest);
      assert requests == init + [a];
      RunAllConcat(W.EMPTY, init, [a]);
      assert arrived.tasks[|s.tasks|] == [a];
    }
  }

  // --- conservation, request by request --------------------------------------

  /** An update that captures or refunds. */
  predicate MovesMoney(a: W.Act) {
    a.Update? && (a.op.Capture? || a.op.Refund?)
  }

  /** Only a request itself can capture or refund, not what it goes on to do. */
  lemma RestMovesNoMoney(w: W.World, a: W.Act)
    ensures forall b <- W.Exec(w, a).rest :: !MovesMoney(b)
  {
    hide Create, Apply;
  }

  lemma QuietActConserves(w: W.World, a: W.Act, q: Quantity, id: string)
    requires Keyed(w) && !MovesMoney(a)
    ensures Drift(w, a, q, id) == 0
  {
    hide Drift;
    ExecConserves(w, a, q, id);
  }

  /** Actions that neither capture nor refund keep the gap, up to the rows they owe. */
  lemma {:induction false} QuietRunConserves(w: W.World, acts: seq<W.Act>, q: Quantity, id: string)
    requires Keyed(w) && forall a <- acts :: !MovesMoney(a)
    ensures Gap(W.RunAll(w, acts), q, id) == Gap(w, q, id) - Sum(acts, Owes(q, id))
    decreases W.Weight(acts)
  {
    if acts != [] {
      hide W.Exec, W.RunAll, Gap, Sum, Owes, Keyed;
      var a, more := acts[0], acts[1..];
      var e := W.Exec(w, a);
      assert acts == [a] + more;
      RunAllOne(w, a, more);
      Lighter(w, a, more);
      ExecKeyed(w, a);
      QuietActConserves(w, a, q, id);
      RestMovesNoMoney(w, a);
      QuietRunConserves(e.world, e.rest + more, q, id);
      SumConcat(e.rest, more, Owes(q, id));
      SumHeadTail(acts, Owes(q, id));
    }
  }

  /** A request keeps the gap if and only if its sum does not wrap. */
  lemma RequestConserves(w: W.World, a: W.Act, q: Quantity, id: string)
    requires Keyed(w) && W.IsRequest(a)
    ensures Gap(W.RunAll(w, [a]), q, id) == Gap(w, q, id) <==> !ActWraps(w, a, q, id)
  {
    hide W.Exec, Gap, ActWraps, Sum;
    var e := W.Exec(w, a);
    assert [a] + [] == [a] && e.rest + [] == e.rest;
    RunAllOne(w, a, []);
    ExecKeyed(w, a);
    ExecConserves(w, a, q, id);
    RestMovesNoMoney(w, a);
    QuietRunConserves(e.world, e.rest, q, id);
  }

  /** No request captures from or refunds the intent a sum that does not fit. */
  predicate RequestsNeverWrap(requests: seq<W.Act>, q: Quantity, id: string) {
    || requests == []
    || (var init := requests[..|requests| - 1];
        && RequestsNeverWrap(init, q, id)
        && !ActWraps(W.RunAll(W.EMPTY, init), requests[|requests| - 1], q, id))
  }

  /** By how much the quantity exceeds its rows after the requests. */
  function GapAfter(requests: seq<W.Act>, q: Quantity, id: string): int {
    Gap(W.RunAll(W.EMPTY, requests), q, id)
  }

  /** After any sequence of requests the rails' accepted amounts, the events and settled equal the rows
      exactly, and the other counters equal them modulo 2^64. */
  lemma ConservedAfterRequests(requests: seq<W.Act>, q: Quantity, id: string)
    requires forall a <- requests :: W.IsRequest(a)
    ensures var w := W.RunAll(W.EMPTY, requests);
      && Keyed(w)
      && Gap(w, q, id) % TWO64 == 0
      && (!CanWrap(q) ==> Gap(w, q, id) == 0)
  {
    hide W.Exec;
    var ms := SequenceIsInterleaving(requests);
    RunKeyed(W.START, ms);
    ConservedModulo(ms, q, id);
    RestOwesNothing(W.Run(W.START, ms), q, id);
    if !CanWrap(q) {
      ConservedAtRest(ms, q, id);
    }
  }

  lemma LastRequestConserves(requests: seq<W.Act>, q: Quantity, id: string)
    requires requests != [] && forall a <- requests :: W.IsRequest(a)
    ensures var init := requests[..|requests| - 1];
      RequestsNeverWrap(requests, q, id)
      <==> RequestsNeverWrap(init, q, id) && GapAfter(requests, q, id) == GapAfter(init, q, id)
  {
    hide W.RunAll, Gap, ActWraps, Keyed;
    var init, a := requests[..|requests| - 1], requests[|requests| - 1];
    assert requests == init + [a];
    RunAllConcat(W.EMPTY, init, [a]);
    ConservedAfterRequests(init, q, id);
    RequestConserves(W.RunAll(W.EMPTY, init), a, q, id);
  }

  lemma NothingToConserve(q: Quantity, id: string)
    ensures RequestsNeverWrap([], q, id) && GapAfter([], q, id) == 0
  {
  }

  /** Every quantity of an intent equals its rows after each request of a sequence if and only if none of
      the requests wraps its sum. */
  lemma {:induction false} RequestsConserveExactly(requests: seq<W.Act>, q: Quantity, id: string)
    requires forall a <- requests :: W.IsRequest(a)
    ensures RequestsNeverWrap(requests, q, id)
       <==> forall n :: 0 <= n <= |requests| ==> GapAfter(requests[..n], q, id) == 0
    decreases |requests|
  {
    hide RequestsNeverWrap, GapAfter, W.IsRequest;
    NothingToConserve(q, id);
    if requests == [] {
      assert requests[..0] == [];
    } else {
      var init := requests[..|requests| - 1];
      Prefixes(requests);
      RequestsConserveExactly(init, q, id);
      LastRequestConserves(requests, q, id);
      if RequestsNeverWrap(init, q, id) {
        assert init[..|init|] == init;
      } else {
        var n :| 0 <= n <= |init| && GapAfter(init[..n], q, id) != 0;
        assert init[..n] == requests[..n];
      }
    }
  }
}
