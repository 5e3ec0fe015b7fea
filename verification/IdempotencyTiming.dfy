/** At most once over Redis. The claim key expires before the response key, so whether a second run
    can start while the first response is still valid depends on the callers' timing; the bound is
    exact. */
module IdempotencyTiming {
  import opened Domain
  import opened Idempotency

  /** Every handler run of a key starts at least ttl after each response stored before it. */
  predicate AtMostOnce(c: Config, log: seq<Happening>) {
    forall i, j ::
      0 <= i < j < |log| && log[i].Stored? && log[j].Claimed? && log[i].key == log[j].key
      ==> log[j].at >= log[i].at + c.ttl
  }

  /** Handlers answer at once, or handling and patience together stay below the time to live. */
  predicate InTime(c: Config) {
    c.handling == 0 || c.handling + c.patience < c.ttl
  }

  // --- the invariant ---------------------------------------------------------

  predicate RunOf(c: Config, log: seq<Happening>, e: Happening)
    requires e.Stored?
  {
    exists d :: d in log && d.Claimed? && d.key == e.key && d.who == e.who && d.at <= e.at <= d.at + c.handling
  }

  /** A response is the outcome of a run that its caller started, within the handling time. */
  predicate StoresFollowRuns(c: Config, s: State) {
    && (forall e <- s.log :: e.Stored? ==> RunOf(c, s.log, e))
    && (forall w :: 0 <= w < |s.callers| && s.callers[w].phase.Handling? ==>
          s.callers[w].phase.since <= s.now && Claimed(s.callers[w].key, s.callers[w].phase.since, w) in s.log)
  }

  /** A response stays visible for ttl, so a caller that missed it looked before or after that. */
  predicate MissesExplained(c: Config, s: State) {
    && (forall w :: 0 <= w < |s.callers| && s.callers[w].phase.Missed? ==> s.callers[w].phase.at <= s.now)
    && (forall e <- s.log :: e.Stored? ==> s.now >= e.at + c.ttl || Showing(SlotOf(s, e.key), e.at + c.ttl))
    && MissesExplainedBy(c, s, s.log)
  }

  predicate MissesExplainedBy(c: Config, s: State, log: seq<Happening>) {
    forall e, w ::
      e in log && e.Stored? && 0 <= w < |s.callers| && s.callers[w].phase.Missed? && s.callers[w].key == e.key
      ==> s.callers[w].phase.at >= e.at + c.ttl || e.at >= s.callers[w].phase.at
  }

  predicate Timed(c: Config, s: State) {
    && Paced(c, s)
    && StoresFollowRuns(c, s)
    && MissesExplained(c, s)
    && AtMostOnce(c, s.log)
  }

  /** What a new event at the end of the log must satisfy. */
  predicate FitsLog(c: Config, log: seq<Happening>, e: Happening) {
    && (e.Claimed? ==> forall d <- log :: d.Stored? && d.key == e.key ==> e.at >= d.at + c.ttl)
    && (e.Stored? ==> RunOf(c, log, e))
  }

  lemma LogSnoc(c: Config, log: seq<Happening>, e: Happening)
    requires AtMostOnce(c, log) && FitsLog(c, log, e)
    requires forall d <- log :: d.Stored? ==> RunOf(c, log, d)
    ensures AtMostOnce(c, log + [e])
    ensures forall d <- log + [e] :: d.Stored? ==> RunOf(c, log + [e], d)
  {
    var all := log + [e];
    forall i, j |
      0 <= i < j < |all| && all[i].Stored? && all[j].Claimed? && all[i].key == all[j].key
      ensures all[j].at >= all[i].at + c.ttl
    {
      if j == |log| {
        assert all[i] in log;
      }
    }
    forall d | d in all && d.Stored? ensures RunOf(c, all, d) {
      var r :| r in log && r.Claimed? && r.key == d.key && r.who == d.who && r.at <= d.at <= r.at + c.handling;
      assert r in all;
    }
  }

  // --- every step ------------------------------------------------------------

  function WithDone(s: State, who: nat, key: string): State
    requires who < |s.callers|
  {
    s.(callers := s.callers[who := Caller(key, Done)])
  }

  function Logged(s: State, e: Happening): State {
    s.(log := s.log + [e])
  }

  lemma DoneTimed(c: Config, s: State, who: nat, key: string)
    requires who < |s.callers| && Timed(c, s)
    ensures Timed(c, WithDone(s, who, key))
  {
  }

  lemma ReplyTimed(c: Config, s: State, e: Happening)
    requires Timed(c, s) && e.Replied? && e.at == s.now
    ensures Timed(c, Logged(s, e))
  {
    SpacedSnoc(c, s.log, e);
    LogSnoc(c, s.log, e);
    KeptMisses(c, s, e);
    RepliedKeeps(c, s, e);
  }

  lemma RepliedKeeps(c: Config, s: State, e: Happening)
    requires Timed(c, s) && e.Replied? && e.at == s.now
    ensures KeysHeld(c, Logged(s, e))
    ensures forall d <- Logged(s, e).log :: d.Stored? ==>
      s.now >= d.at + c.ttl || Showing(SlotOf(Logged(s, e), d.key), d.at + c.ttl)
  {
  }

  lemma AnswerTimed(c: Config, s: State, who: nat, key: string, r: Reply)
    requires who < |s.callers| && Timed(c, s)
    ensures Timed(c, Answer(s, who, key, r))
  {
    DoneTimed(c, s, who, key);
    ReplyTimed(c, WithDone(s, who, key), Replied(key, s.now, who, r));
  }

  function Arrived(s: State, key: string, p: Phase): State {
    s.(callers := s.callers + [Caller(key, p)])
  }

  lemma ArrivedDoneTimed(c: Config, s: State, key: string)
    requires Timed(c, s)
    ensures Timed(c, Arrived(s, key, Done))
  {
  }

  lemma LookupTimed(c: Config, s: State, key: string, fails: bool)
    requires c.layout.Redis? && Timed(c, s)
    ensures Timed(c, StepLookup(s, key, fails))
  {
    var who := |s.callers|;
    var done, missed := Arrived(s, key, Done), Arrived(s, key, Missed(s.now));
    ArrivedDoneTimed(c, s, key);
    if key == "" {
      AnswerTimed(c, done, who, key, Unprotected);
      assert Answer(missed, who, key, Unprotected) == Answer(done, who, key, Unprotected);
    } else if fails {
      AnswerTimed(c, done, who, key, Fault);
      assert Answer(missed, who, key, Fault) == Answer(done, who, key, Fault);
    } else {
      MissTimed(c, s, key);
    }
  }

  /** A lookup over Redis leaves the slot as it is. */
  lemma SlotSeen(s: State, key: string)
    requires !SlotOf(s, key).MemSlot?
    ensures forall k :: SlotOf(s.(slots := s.slots[key := AfterLookup(SlotOf(s, key), s.now)]), k) == SlotOf(s, k)
  {
  }

  function Seen(s: State, key: string): State {
    s.(slots := s.slots[key := AfterLookup(SlotOf(s, key), s.now)])
  }

  lemma SeenTimed(c: Config, s: State, key: string)
    requires c.layout.Redis? && Timed(c, s)
    ensures Timed(c, Seen(s, key))
  {
    SlotSeen(s, key);
  }

  lemma MissTimed(c: Config, s: State, key: string)
    requires c.layout.Redis? && Timed(c, s) && key != ""
    ensures Timed(c, StepLookup(s, key, false))
  {
    var who := |s.callers|;
    var hit := Hit(SlotOf(s, key), s.now);
    SeenTimed(c, s, key);
    if hit.Some? {
      var done, missed := Arrived(Seen(s, key), key, Done), Arrived(Seen(s, key), key, Missed(s.now));
      ArrivedDoneTimed(c, Seen(s, key), key);
      AnswerTimed(c, done, who, key, Replay(hit.value));
      assert Answer(missed, who, key, Replay(hit.value)) == Answer(done, who, key, Replay(hit.value));
    } else {
      ArrivedMissedTimed(c, Seen(s, key), key);
    }
  }

  /** A caller that finds no response comes after every earlier one has expired. */
  lemma ArrivedMissedTimed(c: Config, s: State, key: string)
    requires c.layout.Redis? && Timed(c, s) && Hit(SlotOf(s, key), s.now).None?
    ensures Timed(c, Arrived(s, key, Missed(s.now)))
  {
    forall e | e in s.log && e.Stored? && e.key == key ensures s.now >= e.at + c.ttl {
      assert !Showing(SlotOf(s, key), e.at + c.ttl) || s.now >= e.at + c.ttl;
    }
  }

  lemma ClaimTimed(c: Config, s: State, who: nat, trouble: Trouble)
    requires c.layout.Redis? && InTime(c) && Timed(c, s)
    requires who < |s.callers| && s.callers[who].phase.Missed? && s.now <= s.callers[who].phase.at + c.patience
    ensures Timed(c, StepClaim(c, s, who, trouble))
  {
    var key := s.callers[who].key;
    var slot := SlotOf(s, key);
    if trouble.RequestLost? {
      AnswerTimed(c, s, who, key, Fault);
    } else if !Claimable(slot, s.now) {
      AnswerTimed(c, s, who, key, if trouble.AnswerLost? then Fault else InFlight);
    } else {
      ClaimComesLate(c, s, who);
      var e := if trouble.AnswerLost? then Lost(key, s.now) else Claimed(key, s.now, who);
      TakenTimed(c, s, key, e);
      var taken := s.(slots := s.slots[key := AfterClaim(c.layout, slot, s.now, c.ttl)], log := s.log + [e]);
      if trouble.AnswerLost? {
        AnswerTimed(c, taken, who, key, Fault);
      } else {
        HandlingTimed(c, taken, who);
      }
    }
  }

  lemma HandlingTimed(c: Config, s: State, who: nat)
    requires Timed(c, s) && who < |s.callers| && Claimed(s.callers[who].key, s.now, who) in s.log
    ensures Timed(c, s.(callers := s.callers[who := Caller(s.callers[who].key, Handling(s.now))]))
  {
  }

  /** The heart of the matter: a caller that finds the claim free comes after the response expired. */
  lemma ClaimComesLate(c: Config, s: State, who: nat)
    requires c.layout.Redis? && InTime(c) && Timed(c, s)
    requires who < |s.callers| && s.callers[who].phase.Missed? && s.now <= s.callers[who].phase.at + c.patience
    requires Claimable(SlotOf(s, s.callers[who].key), s.now)
    ensures forall e <- s.log :: e.Stored? && e.key == s.callers[who].key ==> s.now >= e.at + c.ttl
  {
    forall e | e in s.log && e.Stored? && e.key == s.callers[who].key ensures s.now >= e.at + c.ttl {
      assert RunOf(c, s.log, e);
      var d :| d in s.log && d.Claimed? && d.key == e.key && d.who == e.who && d.at <= e.at <= d.at + c.handling;
      assert s.now >= d.at + c.ttl;
    }
  }

  lemma TakenTimed(c: Config, s: State, key: string, e: Happening)
    requires c.layout.Redis? && Timed(c, s) && Claimable(SlotOf(s, key), s.now)
    requires (e.Claimed? || e.Lost?) && e.key == key && e.at == s.now
    requires forall d <- s.log :: d.Stored? && d.key == key ==> s.now >= d.at + c.ttl
    ensures Timed(c, s.(slots := s.slots[key := AfterClaim(c.layout, SlotOf(s, key), s.now, c.ttl)],
                        log := s.log + [e]))
  {
    hide KeysHeld, Spaced, AtMostOnce, RunOf;
    TakenPaced(c, s, key, e);
    LogSnoc(c, s.log, e);
    KeptMisses(c, s, e);
  }

  lemma StoreTimed(c: Config, s: State, who: nat, entry: Entry, fails: bool)
    requires c.layout.Redis? && Timed(c, s)
    requires who < |s.callers| && s.callers[who].phase.Handling? && s.now <= s.callers[who].phase.since + c.handling
    ensures Timed(c, StepStore(c, s, who, entry, fails))
  {
    var key := s.callers[who].key;
    if fails {
      AnswerTimed(c, s, who, key, Fresh(entry));
    } else {
      var e := Stored(key, s.now, who, entry);
      assert RunOf(c, s.log, e) by {
        assert Claimed(key, s.callers[who].phase.since, who) in s.log;
      }
      KeptTimed(c, s, key, e);
      AnswerTimed(c, s.(slots := s.slots[key := AfterStore(c.layout, SlotOf(s, key), entry, s.now, c.ttl)],
                        log := s.log + [e]),
                  who, key, Fresh(entry));
    }
  }

  lemma KeptTimed(c: Config, s: State, key: string, e: Happening)
    requires c.layout.Redis? && Timed(c, s) && e.Stored? && e.key == key && e.at == s.now && RunOf(c, s.log, e)
    ensures Timed(c, s.(slots := s.slots[key := AfterStore(c.layout, SlotOf(s, key), e.entry, s.now, c.ttl)],
                        log := s.log + [e]))
  {
    var t := s.(slots := s.slots[key := AfterStore(c.layout, SlotOf(s, key), e.entry, s.now, c.ttl)],
                log := s.log + [e]);
    KeptPaced(c, s, key, e);
    LogSnoc(c, s.log, e);
    KeptShows(c, s, key, e);
    KeptMisses(c, s, e);
  }

  lemma KeptShows(c: Config, s: State, key: string, e: Happening)
    requires c.layout.Redis? && MissesExplained(c, s) && Paced(c, s)
    requires e.Stored? && e.key == key && e.at == s.now
    ensures var slots := s.slots[key := AfterStore(c.layout, SlotOf(s, key), e.entry, s.now, c.ttl)];
      var t := s.(slots := slots, log := s.log + [e]);
      forall d <- t.log :: d.Stored? ==> t.now >= d.at + c.ttl || Showing(SlotOf(t, d.key), d.at + c.ttl)
  {
  }

  lemma KeptMisses(c: Config, s: State, e: Happening)
    requires MissesExplained(c, s) && e.at == s.now
    ensures MissesExplainedBy(c, s, s.log + [e])
  {
  }

  lemma {:induction false} RunTimed(c: Config, acts: seq<Act>)
    requires c.layout.Redis? && InTime(c)
    ensures Timed(c, Run(c, acts))
    decreases |acts|
  {
    if acts != [] {
      var s, a := Run(c, acts[..|acts| - 1]), acts[|acts| - 1];
      RunTimed(c, acts[..|acts| - 1]);
      match a
      case Tick(_) => TickTimed(c, s, a);
      case Lookup(key, fails) => LookupTimed(c, s, key, fails);
      case Claim(who, trouble) =>
        if who < |s.callers| && s.callers[who].phase.Missed? && s.now <= s.callers[who].phase.at + c.patience {
          ClaimTimed(c, s, who, trouble);
        }
      case Store(who, entry, fails) =>
        if who < |s.callers| && s.callers[who].phase.Handling? && s.now <= s.callers[who].phase.since + c.handling {
          StoreTimed(c, s, who, entry, fails);
        }
    }
  }

  lemma TickTimed(c: Config, s: State, a: Act)
    requires a.Tick? && Timed(c, s)
    ensures Timed(c, Step(c, s, a))
  {
    StepPaced(c, s, a);
  }

  // --- the bound is exact ----------------------------------------------------

  lemma RunSnoc(c: Config, acts: seq<Act>, a: Act)
    ensures Run(c, acts + [a]) == Step(c, Run(c, acts), a)
  {
    assert (acts + [a])[..|acts|] == acts;
  }

  function Max(a: int, b: int): int {
    if a >= b then a else b
  }

  const RESPONSE: Entry := Entry(201, "{}")

  /** Over Redis with callers that are not in time: the second caller looks just before the first response
      is stored and claims just after the first claim has expired. */
  lemma LateSecondRun(c: Config) returns (acts: seq<Act>, s: State, stored: nat)
    requires c.layout.Redis? && c.ttl > 0 && !InTime(c)
    ensures s == Run(c, acts) && s.now == c.ttl && stored > 0
    ensures |s.callers| == 2 && s.callers[1] == Caller("k", Handling(c.ttl))
    ensures s.log == [Claimed("k", 0, 0), Stored("k", stored, 0, RESPONSE),
                      Replied("k", stored, 0, Fresh(RESPONSE)), Claimed("k", c.ttl, 1)]
  {
    var look := Max(0, c.ttl - c.patience);
    stored := Max(look, 1);
    var a2, s2 := SecondLook(c, "k", look);
    var a4, s4 := FirstStore(c, "k", a2, s2, look, stored);
    var a5 := a4 + [Tick(c.ttl - stored)];
    RunSnoc(c, a4, Tick(c.ttl - stored));
    acts := a5 + [Claim(1, NoTrouble)];
    RunSnoc(c, a5, Claim(1, NoTrouble));
    s := Run(c, acts);
  }

  /** The schedule that breaks a bound that does not hold. */
  lemma LateCallerRunsAgain(c: Config) returns (acts: seq<Act>)
    requires c.layout.Redis? && c.ttl > 0 && !InTime(c)
    ensures !AtMostOnce(c, Run(c, acts).log)
  {
    var stored, s;
    acts, s, stored := LateSecondRun(c);
    var log := s.log;
    assert log[1].Stored? && log[3].Claimed? && log[1].key == log[3].key && log[3].at < log[1].at + c.ttl;
  }

  /** The first caller is handling; the second has looked and found nothing. */
  predicate BothUnderWay(c: Config, s: State, key: string, look: nat) {
    && s.now == look && s.log == [Claimed(key, 0, 0)]
    && s.callers == [Caller(key, Handling(0)), Caller(key, Missed(look))]
    && s.slots == map[key := RedisSlot(Some(c.ttl), None)]
  }

  lemma SecondLook(c: Config, key: string, look: nat) returns (acts: seq<Act>, s: State)
    requires c.layout.Redis? && key != ""
    ensures s == Run(c, acts) && BothUnderWay(c, s, key, look)
  {
    var a1, s1 := FirstRun(c, key);
    var a2 := a1 + [Tick(look)];
    RunSnoc(c, a1, Tick(look));
    acts := a2 + [Lookup(key, false)];
    RunSnoc(c, a2, Lookup(key, false));
    s := Run(c, acts);
    assert s.slots == s1.slots;
  }

  lemma FirstStore(c: Config, key: string, before: seq<Act>, s: State, look: nat, stored: nat)
    returns (acts: seq<Act>, t: State)
    requires c.layout.Redis? && s == Run(c, before) && BothUnderWay(c, s, key, look)
    requires look <= stored <= c.handling
    ensures t == Run(c, acts) && t.now == stored
    ensures t.log == [Claimed(key, 0, 0), Stored(key, stored, 0, RESPONSE), Replied(key, stored, 0, Fresh(RESPONSE))]
    ensures |t.callers| == 2 && t.callers[1] == Caller(key, Missed(look))
    ensures key in t.slots && t.slots[key].RedisSlot? && t.slots[key].claimUntil == Some(c.ttl)
  {
    var a3 := before + [Tick(stored - look)];
    RunSnoc(c, before, Tick(stored - look));
    acts := a3 + [Store(0, RESPONSE, false)];
    RunSnoc(c, a3, Store(0, RESPONSE, false));
    t := Run(c, acts);
  }

  lemma FirstRun(c: Config, key: string) returns (acts: seq<Act>, s: State)
    requires c.layout.Redis? && key != ""
    ensures s == Run(c, acts)
    ensures s.now == 0 && s.log == [Claimed(key, 0, 0)] && s.callers == [Caller(key, Handling(0))]
    ensures s.slots == map[key := RedisSlot(Some(c.ttl), None)]
  {
    acts := [] + [Lookup(key, false)];
    RunSnoc(c, [], Lookup(key, false));
    var looked := Run(c, acts);
    assert looked == State(0, map[key := Vacant], [Caller(key, Missed(0))], []);
    RunSnoc(c, acts, Claim(0, NoTrouble));
    acts := acts + [Claim(0, NoTrouble)];
    s := Run(c, acts);
  }

  /** Over Redis, whatever the interleaving, no second run of a key starts while a response is valid
      (before store time + ttl) exactly when the callers are in time. */
  lemma AtMostOnceExactly(c: Config)
    requires c.layout.Redis? && c.ttl > 0
    ensures (forall acts :: AtMostOnce(c, Run(c, acts).log)) <==> InTime(c)
  {
    if InTime(c) {
      forall acts ensures AtMostOnce(c, Run(c, acts).log) {
        RunTimed(c, acts);
      }
    } else {
      var acts := LateCallerRunsAgain(c);
    }
  }
}
