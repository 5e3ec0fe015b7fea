/** The metrics registry (internal/metrics/metrics.go): transition counters, the backlog gauge, and
    the window of recent latencies with its 99th percentile. */
module Metrics {
  import opened Domain
  import opened Tally

  const WINDOW: nat := 1000

  /** The last WINDOW samples. */
  function Recent(samples: seq<Int64>): seq<Int64> {
    if |samples| > WINDOW then samples[|samples| - WINDOW..] else samples
  }

  function Bumped(counters: map<string, Int64>, to: string): map<string, Int64> {
    counters[to := Add64(if to in counters then counters[to] else 0, 1)]
  }

  class Registry {
    var transitions: map<string, Int64>
    var webhookBacklog: Int64
    var latencies: seq<Int64>

    constructor ()
      ensures transitions == map[] && webhookBacklog == 0 && latencies == []
    {
      transitions, webhookBacklog, latencies := map[], 0, [];
    }

    method IncTransition(to: string)
      modifies this`transitions
      ensures transitions == Bumped(old(transitions), to)
    {
      var c: Int64 := 0;
      if to in transitions {
        c := transitions[to];
      }
      transitions := transitions[to := Add64(c, 1)];
    }

    method IncWebhookBacklog()
      modifies this`webhookBacklog
      ensures webhookBacklog == Add64(old(webhookBacklog), 1)
    {
      webhookBacklog := Add64(webhookBacklog, 1);
    }

    method DecWebhookBacklog()
      modifies this`webhookBacklog
      ensures webhookBacklog == Sub64(old(webhookBacklog), 1)
    {
      webhookBacklog := Add64(webhookBacklog, -1);
    }

    method ObserveIntentCreation(d: Int64)
      modifies this`latencies
      ensures latencies == Recent(old(latencies) + [d])
    {
      latencies := latencies + [d];
      if |latencies| > 1000 {
        latencies := latencies[|latencies| - 1000..];
      }
    }

    /** The index is computed on integers; see RankIsUnique for why the contract determines the result. */
    method P99() returns (r: Int64)
      ensures latencies == [] ==> r == 0
      ensures latencies != [] ==> HasRank(latencies, 99 * |latencies| / 100, r)
    {
      if |latencies| == 0 {
        return 0;
      }
      var sorted := Sorted(latencies);
      SortedIsPermutation(latencies, AtMost(0));
      var idx: int := 99 * |sorted| / 100;
      if idx >= |sorted| {
        idx := |sorted| - 1;
      }
      SortedRank(latencies, idx);
      return sorted[idx];
    }
  }

  // --- the window ------------------------------------------------------------

  /** The buffer after a run of observations. */
  function Observed(samples: seq<Int64>): seq<Int64> {
    if samples == [] then [] else Recent(Observed(samples[..|samples| - 1]) + [samples[|samples| - 1]])
  }

  /** Forgetting early does not change what is remembered later. */
  lemma RecentSnoc(s: seq<Int64>, x: Int64)
    ensures Recent(Recent(s) + [x]) == Recent(s + [x])
  {
    if |s| > WINDOW {
      var n := |s| - WINDOW;
      assert Recent(s) == s[n..] && |s[n..] + [x]| == WINDOW + 1;
      assert (s[n..] + [x])[1..] == (s + [x])[n + 1..];
    }
  }

  /** The buffer always holds the most recent samples, in order: all of them up to the window size. */
  lemma {:induction false} BufferIsRecent(samples: seq<Int64>)
    ensures Observed(samples) == Recent(samples)
    ensures |Observed(samples)| == if |samples| < WINDOW then |samples| else WINDOW
    decreases |samples|
  {
    if samples != [] {
      var init, last := samples[..|samples| - 1], samples[|samples| - 1];
      BufferIsRecent(init);
      RecentSnoc(init, last);
      assert samples == init + [last];
    }
  }

  // --- the counters ----------------------------------------------------------

  function Counters(tos: seq<string>): map<string, Int64> {
    if tos == [] then map[] else Bumped(Counters(tos[..|tos| - 1]), tos[|tos| - 1])
  }

  /** Each counter is the number of its increments, for as long as that fits in an int64. */
  lemma {:induction false} CountersCount(tos: seq<string>)
    requires |tos| <= MAX64
    ensures forall to :: to in Counters(tos) <==> to in tos
    ensures forall to <- Counters(tos) :: Counters(tos)[to] == multiset(tos)[to]
    decreases |tos|
  {
    if tos != [] {
      var init, last := tos[..|tos| - 1], tos[|tos| - 1];
      CountersCount(init);
      assert tos == init + [last];
      assert multiset(tos) == multiset(init) + multiset{last};
      assert multiset(init)[last] <= |multiset(init)| == |init|;
    }
  }

  // --- sorting and ranks -----------------------------------------------------

  function Inserted(s: seq<Int64>, x: Int64): seq<Int64> {
    if s == [] || s[|s| - 1] <= x then s + [x]
    else Inserted(s[..|s| - 1], x) + [s[|s| - 1]]
  }

  function Sorted(s: seq<Int64>): seq<Int64> {
    if s == [] then [] else Inserted(Sorted(s[..|s| - 1]), s[|s| - 1])
  }

  predicate Ascending(s: seq<Int64>) {
    forall i, j :: 0 <= i < j < |s| ==> s[i] <= s[j]
  }

  lemma {:induction false} InsertedSums(s: seq<Int64>, x: Int64, f: Int64 -> int)
    ensures Sum(Inserted(s, x), f) == Sum(s, f) + f(x)
    decreases |s|
  {
    if s == [] || s[|s| - 1] <= x {
      SumSnoc(s, x, f);
    } else {
      InsertedSums(s[..|s| - 1], x, f);
      SumSnoc(Inserted(s[..|s| - 1], x), s[|s| - 1], f);
    }
  }

  lemma {:induction false} InsertedAscends(s: seq<Int64>, x: Int64)
    requires Ascending(s)
    ensures Ascending(Inserted(s, x))
    ensures |Inserted(s, x)| == |s| + 1
    ensures forall y <- Inserted(s, x) :: y == x || y in s
    decreases |s|
  {
    if s != [] && s[|s| - 1] > x {
      InsertedAscends(s[..|s| - 1], x);
      var t := Inserted(s[..|s| - 1], x);
      forall i | 0 <= i < |t| ensures t[i] <= s[|s| - 1] {
        assert t[i] in t;
      }
    }
  }

  /** Sorting orders the samples and keeps every sum over them, so in particular every count. */
  lemma {:induction false} SortedIsPermutation(s: seq<Int64>, f: Int64 -> int)
    ensures Ascending(Sorted(s)) && |Sorted(s)| == |s| && Sum(Sorted(s), f) == Sum(s, f)
    decreases |s|
  {
    if s != [] {
      var init := s[..|s| - 1];
      SortedIsPermutation(init, f);
      InsertedAscends(Sorted(init), s[|s| - 1]);
      InsertedSums(Sorted(init), s[|s| - 1], f);
    }
  }

  function AtMost(r: Int64): Int64 -> int {
    (x: Int64) => if x <= r then 1 else 0
  }

  function AtLeast(r: Int64): Int64 -> int {
    (x: Int64) => if x >= r then 1 else 0
  }

  /** Counting from zero, r is the sample of rank i: more than i samples are at or below it, and at
      least |s| - i are at or above it. */
  predicate HasRank(s: seq<Int64>, i: int, r: Int64) {
    Sum(s, AtMost(r)) >= i + 1 && Sum(s, AtLeast(r)) >= |s| - i
  }

  lemma {:induction false} SumAll(s: seq<Int64>, f: Int64 -> int)
    requires forall x <- s :: f(x) == 1
    ensures Sum(s, f) == |s|
    decreases |s|
  {
    if s != [] {
      SumAll(s[..|s| - 1], f);
    }
  }

  lemma AscendingRank(t: seq<Int64>, i: nat)
    requires i < |t| && Ascending(t)
    ensures HasRank(t, i, t[i])
  {
    AtMostRank(t, i);
    AtLeastRank(t, i);
  }

  lemma AtMostRank(t: seq<Int64>, i: nat)
    requires i < |t| && Ascending(t)
    ensures Sum(t, AtMost(t[i])) >= i + 1
  {
    assert t == t[..i + 1] + t[i + 1..];
    SumConcat(t[..i + 1], t[i + 1..], AtMost(t[i]));
    SumAll(t[..i + 1], AtMost(t[i]));
    SumNonNegative(t[i + 1..], AtMost(t[i]));
  }

  lemma AtLeastRank(t: seq<Int64>, i: nat)
    requires i < |t| && Ascending(t)
    ensures Sum(t, AtLeast(t[i])) >= |t| - i
  {
    assert t == t[..i] + t[i..];
    SumConcat(t[..i], t[i..], AtLeast(t[i]));
    SumAll(t[i..], AtLeast(t[i]));
    SumNonNegative(t[..i], AtLeast(t[i]));
  }

  lemma SortedRank(s: seq<Int64>, i: nat)
    requires i < |s|
    ensures |Sorted(s)| == |s| && HasRank(s, i, Sorted(s)[i])
  {
    SortedIsPermutation(s, AtMost(0));
    var r := Sorted(s)[i];
    SortedIsPermutation(s, AtMost(r));
    SortedIsPermutation(s, AtLeast(r));
    AscendingRank(Sorted(s), i);
  }

  /** Only one value has a given rank, so the counts in the contract of P99 fix its result. */
  lemma RankIsUnique(s: seq<Int64>, i: int, q: Int64, r: Int64)
    requires HasRank(s, i, q) && HasRank(s, i, r)
    ensures q == r
  {
    if q < r {
      Disjoint(s, q, r);
    } else if r < q {
      Disjoint(s, r, q);
    }
  }

  lemma {:induction false} Disjoint(s: seq<Int64>, q: Int64, r: Int64)
    requires q < r
    ensures Sum(s, AtMost(q)) + Sum(s, AtLeast(r)) <= |s|
    decreases |s|
  {
    if s != [] {
      Disjoint(s[..|s| - 1], q, r);
    }
  }
}
