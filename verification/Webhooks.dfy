/** Duplicate webhook deliveries change nothing, and payments do not interfere with one another. */
module Webhooks {
  import opened Domain
  import opened Engine
  import opened Runs
  import W = World

  // --- keys ------------------------------------------------------------------

  /** Joining with a NUL is injective as long as the first part has none. */
  lemma NulJoinInjective(a: string, b: string, c: string, d: string)
    requires '\0' !in a && '\0' !in c
    requires a + "\0" + b == c + "\0" + d
    ensures a == c && b == d
  {
    var s, t := a + "\0" + b, c + "\0" + d;
    assert s[|a|] == '\0' && t[|c|] == '\0';
    assert forall i :: 0 <= i < |a| ==> s[i] == a[i] && s[i] != '\0';
    assert forall i :: 0 <= i < |c| ==> t[i] == c[i] && t[i] != '\0';
    assert a == s[..|a|] && c == t[..|c|];
    assert b == s[|a| + 1..] && d == t[|c| + 1..];
  }

  /** webhookKey tells deliveries of recognised rails apart. */
  lemma WebhookKeyInjective(r: Rail, e: string, q: Rail, f: string)
    requires W.WebhookKey(r, e) == W.WebhookKey(q, f)
    ensures r == q && e == f
  {
    RailNamesHaveNoNul(r);
    RailNamesHaveNoNul(q);
    NulJoinInjective(RailName(r), e, RailName(q), f);
    RailNamesDiffer(r, q);
  }

  lemma RailNamesHaveNoNul(r: Rail)
    ensures '\0' !in RailName(r)
  {
  }

  lemma RailNamesDiffer(r: Rail, q: Rail)
    requires RailName(r) == RailName(q)
    ensures r == q
  {
    assert RailName(r)[0] == RailName(q)[0];
    assert RailName(r)[1] == RailName(q)[1];
  }

  // --- the replay window -----------------------------------------------------

  /** The signed timestamp passes when the time it denotes is within the window of now, in either
      direction; or when the clock difference does not fit a duration and saturates: always if that time
      is so far in the future, because the smallest duration has no absolute value, and in the past only
      for the largest window. */
  lemma AgeWithinExactly(timestamp: Int64, now: Time, window: Int64)
    ensures var d := now - W.Unix(timestamp);
      W.Age(timestamp, now) <= window <==> d <= MIN64 || window == MAX64 || (0 <= d + window && d <= window)
  {
  }

  /** With the clock between 1970 and 2262: a timestamp passes if and only if it is within the window, or
      the window is the largest duration, or the timestamp is at least 292 years ahead and not one of the
      last 62135596800, which wrap to a time in the past and are refused. */
  lemma ReplayWindowExactly(timestamp: Int64, now: Time, window: Int64)
    requires 0 <= now <= MAX64
    ensures var d := now - timestamp * 1_000_000_000;
      W.Age(timestamp, now) <= window
      <==> || window == MAX64
           || (0 <= d + window && d <= window)
           || (d <= MIN64 && timestamp <= MAX64 - W.UNIX_TO_INTERNAL)
  {
    AgeWithinExactly(timestamp, now, window);
    if timestamp > MAX64 - W.UNIX_TO_INTERNAL {
      assert W.Unix(timestamp) == (timestamp - TWO64) * 1_000_000_000;
    } else {
      assert W.Unix(timestamp) == timestamp * 1_000_000_000;
    }
  }

  // --- runs of requests ------------------------------------------------------

  lemma RunAllOne(w: W.World, a: W.Act, more: seq<W.Act>)
    ensures W.RunAll(w, [a] + more) == W.RunAll(W.Exec(w, a).world, W.Exec(w, a).rest + more)
  {
    assert ([a] + more)[1..] == more;
  }

  lemma {:induction false} RunAllConcat(w: W.World, acts: seq<W.Act>, more: seq<W.Act>)
    ensures W.RunAll(w, acts + more) == W.RunAll(W.RunAll(w, acts), more)
    decreases W.Weight(acts)
  {
    hide W.Exec;
    if acts == [] {
      assert acts + more == more;
    } else {
      var e := W.Exec(w, acts[0]);
      var tail := acts[1..];
      assert acts == [acts[0]] + tail;
      assert acts + more == [acts[0]] + (tail + more);
      RunAllOne(w, acts[0], tail + more);
      RunAllOne(w, acts[0], tail);
      assert e.rest + (tail + more) == (e.rest + tail) + more;
      Lighter(w, acts[0], tail);
      RunAllConcat(e.world, e.rest + tail, more);
    }
  }

  lemma Lighter(w: W.World, a: W.Act, tail: seq<W.Act>)
    ensures W.Weight(W.Exec(w, a).rest + tail) < W.Weight([a] + tail)
  {
    W.ExecShrinks(w, a);
    W.WeightConcat(W.Exec(w, a).rest, tail);
    W.WeightConcat([a], tail);
  }

  // --- duplicates ------------------------------------------------------------

  /** An accepted delivery that carries an event id. */
  predicate Identified(a: W.Act) {
    a.Deliver? && W.Accepted(a) && a.body.eventId != ""
  }

  function EventOf(a: W.Act): (Rail, string)
    requires Identified(a)
  {
    (ParseRail(a.rail).value, a.body.eventId)
  }

  /** The requests without the deliveries of events seen before. */
  function Deduplicate(acts: seq<W.Act>, seen: set<(Rail, string)>): seq<W.Act> {
    if acts == [] then []
    else if Identified(acts[0]) && EventOf(acts[0]) in seen then Deduplicate(acts[1..], seen)
    else
      [acts[0]]
      + Deduplicate(acts[1..], if Identified(acts[0]) then seen + {EventOf(acts[0])} else seen)
  }

  ghost predicate Recorded(w: W.World, seen: set<(Rail, string)>) {
    forall e <- seen :: W.WebhookKey(e.0, e.1) in w.webhooks
  }

  function KeysOf(a: W.Act): set<string> {
    if Identified(a) then {W.WebhookKey(EventOf(a).0, EventOf(a).1)} else {}
  }

  /** Only an accepted delivery adds a key, and what it goes on to do delivers nothing. */
  lemma ExecAddsKeys(w: W.World, a: W.Act)
    ensures W.Exec(w, a).world.webhooks.Keys == w.webhooks.Keys + KeysOf(a)
    ensures forall b <- W.Exec(w, a).rest :: !b.Deliver?
  {
    hide Create, Apply, W.ExecDeliver, W.UpdateChargeback, W.AddRow, W.ExecDispute;
    if a.Append? {
      W.RowKeepsRest(w, a.row);
    } else if a.Deliver? {
      DeliverAddsKey(w, a);
    }
    if !a.Post? && !a.Update? {
      ExecOther(w, a);
    }
  }

  lemma DeliverAddsKey(w: W.World, a: W.Act)
    requires a.Deliver?
    ensures W.ExecDeliver(w, a).world.webhooks.Keys == w.webhooks.Keys + KeysOf(a)
    ensures forall b <- W.ExecDeliver(w, a).rest :: !b.Deliver?
  {
  }

  lemma {:induction false} RunAllKeepsKeys(w: W.World, acts: seq<W.Act>)
    requires forall a <- acts :: !a.Deliver?
    ensures W.RunAll(w, acts).webhooks.Keys == w.webhooks.Keys
    decreases W.Weight(acts)
  {
    if acts != [] {
      assert acts == [acts[0]] + acts[1..];
      RunAllOne(w, acts[0], acts[1..]);
      ExecAddsKeys(w, acts[0]);
      Lighter(w, acts[0], acts[1..]);
      RunAllKeepsKeys(W.Exec(w, acts[0]).world, W.Exec(w, acts[0]).rest + acts[1..]);
    }
  }

  lemma OneRequestAddsKeys(w: W.World, a: W.Act)
    ensures W.RunAll(w, [a]).webhooks.Keys == w.webhooks.Keys + KeysOf(a)
  {
    assert [a] + [] == [a];
    RunAllOne(w, a, []);
    ExecAddsKeys(w, a);
    RunAllKeepsKeys(W.Exec(w, a).world, W.Exec(w, a).rest + []);
  }

  /** A delivery is taken for a duplicate exactly when the same event of the same rail was accepted
      before. */
  lemma {:induction false} DuplicateIffSeen(acts: seq<W.Act>, a: W.Act)
    requires Identified(a)
    ensures W.WebhookKey(EventOf(a).0, EventOf(a).1) in W.RunAll(W.EMPTY, acts).webhooks
       <==> exists b <- acts :: Identified(b) && EventOf(b) == EventOf(a)
    decreases |acts|
  {
    var key := W.WebhookKey(EventOf(a).0, EventOf(a).1);
    if acts != [] {
      var init, last := acts[..|acts| - 1], acts[|acts| - 1];
      assert acts == init + [last];
      DuplicateIffSeen(init, a);
      RunAllConcat(W.EMPTY, init, [last]);
      OneRequestAddsKeys(W.RunAll(W.EMPTY, init), last);
      if Identified(last) && key in KeysOf(last) {
        WebhookKeyInjective(EventOf(a).0, EventOf(a).1, EventOf(last).0, EventOf(last).1);
        assert last in acts;
      }
      assert forall b :: b in acts <==> b in init || b == last;
    }
  }

  /** Removing every repeated delivery of an event, from whatever sequence of requests of any kind,
      leaves the whole resulting state the same. */
  lemma {:induction false} DuplicatesChangeNothing(w: W.World, acts: seq<W.Act>, seen: set<(Rail, string)>)
    requires Recorded(w, seen)
    ensures W.RunAll(w, acts) == W.RunAll(w, Deduplicate(acts, seen))
    decreases |acts|
  {
    if acts != [] {
      var a, more := acts[0], acts[1..];
      assert acts == [a] + more;
      if Identified(a) && EventOf(a) in seen {
        assert W.ExecDeliver(w, a) == W.Executed(w, []);
        RunAllOne(w, a, more);
        assert [] + more == more;
        DuplicatesChangeNothing(w, more, seen);
      } else {
        var next := if Identified(a) then seen + {EventOf(a)} else seen;
        RunAllConcat(w, [a], more);
        RunAllConcat(w, [a], Deduplicate(more, next));
        OneRequestRecords(w, a, seen);
        DuplicatesChangeNothing(W.RunAll(w, [a]), more, next);
      }
    }
  }

  lemma OneRequestRecords(w: W.World, a: W.Act, seen: set<(Rail, string)>)
    requires Recorded(w, seen)
    ensures Recorded(W.RunAll(w, [a]), if Identified(a) then seen + {EventOf(a)} else seen)
  {
    OneRequestAddsKeys(w, a);
  }

  /** From the empty store, only first deliveries count: the outcome of any two request sequences
      that differ in repeated deliveries is the same. */
  lemma RedeliveryInvariance(acts: seq<W.Act>, others: seq<W.Act>)
    requires Deduplicate(acts, {}) == Deduplicate(others, {})
    ensures W.RunAll(W.EMPTY, acts) == W.RunAll(W.EMPTY, others)
  {
    DuplicatesChangeNothing(W.EMPTY, acts, {});
    DuplicatesChangeNothing(W.EMPTY, others, {});
  }
}
