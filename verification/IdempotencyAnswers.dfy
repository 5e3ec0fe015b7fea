/** Which answer a caller gets, told from the log of what happened before: a stored response is replayed for
    as long as it lives, a held key is a conflict, and a free one starts a run. */
module IdempotencyAnswers {
  import opened Domain
  import opened Idempotency
  import opened IdempotencyTiming

  // --- what the log says about a key -----------------------------------------

  /** The last event that decided a key in memory, or its claim in Redis. */
  function LastHeld(c: Config, log: seq<Happening>, key: string): Option<Happening> {
    if log == [] then None
    else
      var e := log[|log| - 1];
      if Holds(c, e) && e.key == key then Some(e) else LastHeld(c, log[..|log| - 1], key)
  }

  function LastStored(log: seq<Happening>, key: string): Option<Happening> {
    if log == [] then None
    else
      var e := log[|log| - 1];
      if e.Stored? && e.key == key then Some(e) else LastStored(log[..|log| - 1], key)
  }

  /** The slot holds what the log says; in memory a lookup may have removed what had expired. */
  predicate SlotRight(c: Config, s: State, key: string) {
    var h := LastHeld(c, s.log, key);
    match c.layout
    case Mem =>
      if h.None? then SlotOf(s, key).Vacant?
      else
        || SlotOf(s, key) == MemSlot(if h.value.Stored? then Some(h.value.entry) else None, h.value.at + c.ttl)
        || (SlotOf(s, key).Vacant? && s.now > h.value.at + c.ttl)
    case Redis =>
      var r := LastStored(s.log, key);
      if h.None? && r.None? then SlotOf(s, key).Vacant?
      else SlotOf(s, key) == RedisSlot(if h.Some? then Some(h.value.at + c.ttl) else None,
                                       if r.Some? && r.value.Stored? then Some((r.value.entry, r.value.at + c.ttl)) else None)
  }

  ghost predicate Right(c: Config, s: State) {
    && (forall key :: SlotRight(c, s, key))
    && (forall e <- s.log :: e.at <= s.now)
    && (forall i, j :: 0 <= i < j < |s.log| ==> s.log[i].at <= s.log[j].at)
  }

  lemma LastSnoc(c: Config, log: seq<Happening>, e: Happening, key: string)
    ensures LastHeld(c, log + [e], key) == if Holds(c, e) && e.key == key then Some(e) else LastHeld(c, log, key)
    ensures LastStored(log + [e], key) == if e.Stored? && e.key == key then Some(e) else LastStored(log, key)
  {
    assert (log + [e])[..|log|] == log;
  }

  lemma {:induction false} LastIsStored(log: seq<Happening>, key: string)
    ensures LastStored(log, key).Some? ==> LastStored(log, key).value.Stored?
    decreases |log|
  {
    if log != [] {
      LastIsStored(log[..|log| - 1], key);
    }
  }

  // --- every step keeps it ---------------------------------------------------

  /** An event that is logged now and holds nothing. */
  lemma RepliedRight(c: Config, s: State, t: State, e: Happening)
    requires Right(c, s) && e.Replied? && e.at == s.now
    requires t.log == s.log + [e] && t.slots == s.slots && t.now == s.now
    ensures Right(c, t)
  {
    forall key ensures SlotRight(c, t, key) {
      assert SlotRight(c, s, key);
      LastSnoc(c, s.log, e, key);
    }
  }

  /** An event that decides its key. */
  lemma DecidedRight(c: Config, s: State, t: State, e: Happening)
    requires Right(c, s) && !e.Replied? && e.at == s.now
    requires t.log == s.log + [e] && t.now == s.now
    requires t.slots == s.slots[e.key := if e.Stored? then AfterStore(c.layout, SlotOf(s, e.key), e.entry, s.now, c.ttl)
                                         else AfterClaim(c.layout, SlotOf(s, e.key), s.now, c.ttl)]
    ensures Right(c, t)
  {
    forall key ensures SlotRight(c, t, key) {
      assert SlotRight(c, s, key);
      LastSnoc(c, s.log, e, key);
    }
  }

  lemma SeenRight(c: Config, s: State, t: State, key: string)
    requires Right(c, s) && t.log == s.log && t.now == s.now
    requires t.slots == s.slots[key := AfterLookup(SlotOf(s, key), s.now)]
    ensures Right(c, t)
  {
    forall k ensures SlotRight(c, t, k) {
      assert SlotRight(c, s, k);
    }
  }

  lemma SameRight(c: Config, s: State, t: State)
    requires Right(c, s) && t.log == s.log && t.slots == s.slots && t.now >= s.now
    ensures Right(c, t)
  {
    forall key ensures SlotRight(c, t, key) {
      assert SlotRight(c, s, key);
    }
  }

  lemma StepRight(c: Config, s: State, a: Act)
    requires Right(c, s)
    ensures Right(c, Step(c, s, a))
  {
    hide Right;
    var t := Step(c, s, a);
    match a
    case Tick(_) => SameRight(c, s, t);
    case Lookup(key, fails) => LookupRight(c, s, key, fails);
    case Claim(who, trouble) =>
      if who < |s.callers| && s.callers[who].phase.Missed? && s.now <= s.callers[who].phase.at + c.patience {
        ClaimRight(c, s, who, trouble);
      }
    case Store(who, entry, fails) =>
      if who < |s.callers| && s.callers[who].phase.Handling? && s.now <= s.callers[who].phase.since + c.handling {
        StoreRight(c, s, who, entry, fails);
      }
  }

  lemma LookupRight(c: Config, s: State, key: string, fails: bool)
    requires Right(c, s)
    ensures Right(c, StepLookup(s, key, fails))
  {
    hide Right;
    var t := StepLookup(s, key, fails);
    var seen := s.(slots := s.slots[key := AfterLookup(SlotOf(s, key), s.now)]);
    SeenRight(c, s, seen, key);
    if key == "" || fails {
      RepliedRight(c, s, t, t.log[|s.log|]);
    } else if t.log == s.log {
      SameRight(c, seen, t);
    } else {
      RepliedRight(c, seen, t, t.log[|s.log|]);
    }
  }

  lemma ClaimRight(c: Config, s: State, who: nat, trouble: Trouble)
    requires Right(c, s) && who < |s.callers|
    ensures Right(c, StepClaim(c, s, who, trouble))
  {
    hide Right;
    var t, key := StepClaim(c, s, who, trouble), s.callers[who].key;
    if trouble.RequestLost? || !Claimable(SlotOf(s, key), s.now) {
      RepliedRight(c, s, t, t.log[|s.log|]);
    } else {
      var e := if trouble.AnswerLost? then Lost(key, s.now) else Claimed(key, s.now, who);
      var taken := s.(slots := s.slots[key := AfterClaim(c.layout, SlotOf(s, key), s.now, c.ttl)], log := s.log + [e]);
      DecidedRight(c, s, taken, e);
      if trouble.AnswerLost? {
        RepliedRight(c, taken, t, Replied(key, s.now, who, Fault));
      } else {
        SameRight(c, taken, t);
      }
    }
  }

  lemma StoreRight(c: Config, s: State, who: nat, entry: Entry, fails: bool)
    requires Right(c, s) && who < |s.callers|
    ensures Right(c, StepStore(c, s, who, entry, fails))
  {
    hide Right;
    var t, key := StepStore(c, s, who, entry, fails), s.callers[who].key;
    if fails {
      RepliedRight(c, s, t, Replied(key, s.now, who, Fresh(entry)));
    } else {
      var e := Stored(key, s.now, who, entry);
      var kept := s.(slots := s.slots[key := AfterStore(c.layout, SlotOf(s, key), entry, s.now, c.ttl)],
                     log := s.log + [e]);
      DecidedRight(c, s, kept, e);
      RepliedRight(c, kept, t, Replied(key, s.now, who, Fresh(entry)));
    }
  }

  lemma {:induction false} RunRight(c: Config, acts: seq<Act>)
    ensures Right(c, Run(c, acts))
    decreases |acts|
  {
    if acts != [] {
      RunRight(c, acts[..|acts| - 1]);
      StepRight(c, Run(c, acts[..|acts| - 1]), acts[|acts| - 1]);
    }
  }

  // --- lookups ---------------------------------------------------------------

  /** Event i stored the response that is the key's at the given time: nothing decided the key since, and
      its time to live has not passed. Only the in-memory store still answers at the last instant. */
  predicate Live(c: Config, log: seq<Happening>, key: string, i: nat, now: Time)
    requires i < |log|
  {
    && log[i].Stored? && log[i].key == key
    && (forall j :: i < j < |log| && log[j].key == key ==> !log[j].Stored? && (c.layout.Mem? ==> log[j].Replied?))
    && (now < log[i].at + c.ttl || (c.layout.Mem? && now == log[i].at + c.ttl))
  }

  lemma {:induction false} LastStoredIs(c: Config, log: seq<Happening>, key: string, i: nat)
    requires i < |log| && log[i].Stored? && log[i].key == key
    requires forall j :: i < j < |log| && log[j].key == key ==> !log[j].Stored?
    ensures LastStored(log, key) == Some(log[i])
    decreases |log|
  {
    if i < |log| - 1 {
      LastStoredIs(c, log[..|log| - 1], key, i);
    }
  }

  lemma {:induction false} LastHeldIs(c: Config, log: seq<Happening>, key: string, i: nat)
    requires i < |log| && Holds(c, log[i]) && log[i].key == key
    requires forall j :: i < j < |log| && log[j].key == key ==> !Holds(c, log[j])
    ensures LastHeld(c, log, key) == Some(log[i])
    decreases |log|
  {
    if i < |log| - 1 {
      LastHeldIs(c, log[..|log| - 1], key, i);
    }
  }

  lemma {:induction false} LastStoredAt(log: seq<Happening>, key: string) returns (i: nat)
    requires LastStored(log, key).Some?
    ensures i < |log| && log[i].Stored? && log[i].key == key && LastStored(log, key) == Some(log[i])
    ensures forall j :: i < j < |log| && log[j].key == key ==> !log[j].Stored?
    decreases |log|
  {
    var e := log[|log| - 1];
    if e.Stored? && e.key == key {
      i := |log| - 1;
    } else {
      i := LastStoredAt(log[..|log| - 1], key);
    }
  }

  lemma {:induction false} LastHeldAt(c: Config, log: seq<Happening>, key: string) returns (i: nat)
    requires LastHeld(c, log, key).Some?
    ensures i < |log| && Holds(c, log[i]) && log[i].key == key && LastHeld(c, log, key) == Some(log[i])
    ensures forall j :: i < j < |log| && log[j].key == key ==> !Holds(c, log[j])
    decreases |log|
  {
    var e := log[|log| - 1];
    if Holds(c, e) && e.key == key {
      i := |log| - 1;
    } else {
      i := LastHeldAt(c, log[..|log| - 1], key);
    }
  }

  /** A lookup that reaches the store is answered with the live response. */
  lemma LiveIsReplayed(c: Config, acts: seq<Act>, key: string, i: nat)
    requires key != "" && i < |Run(c, acts).log| && Live(c, Run(c, acts).log, key, i, Run(c, acts).now)
    ensures var s := Run(c, acts);
      Run(c, acts + [Lookup(key, false)]).log == s.log + [Replied(key, s.now, |s.callers|, Replay(s.log[i].entry))]
  {
    hide Run;
    var s := Run(c, acts);
    RunRight(c, acts);
    assert SlotRight(c, s, key);
    RunSnoc(c, acts, Lookup(key, false));
    LastStoredIs(c, s.log, key, i);
    if c.layout.Mem? {
      LastHeldIs(c, s.log, key, i);
    }
  }

  /** Otherwise it gets no answer yet: the caller goes on to claim the key. */
  lemma OthersWait(c: Config, acts: seq<Act>, key: string)
    requires key != ""
    requires forall i :: 0 <= i < |Run(c, acts).log| ==> !Live(c, Run(c, acts).log, key, i, Run(c, acts).now)
    ensures var s := Run(c, acts); var t := Run(c, acts + [Lookup(key, false)]);
      t.log == s.log && t.callers == s.callers + [Caller(key, Missed(s.now))]
  {
    hide Run;
    var s := Run(c, acts);
    RunRight(c, acts);
    assert SlotRight(c, s, key);
    RunSnoc(c, acts, Lookup(key, false));
    if Hit(SlotOf(s, key), s.now).Some? {
      var i := HitIsLive(c, s, key);
      assert false;
    }
  }

  lemma HitIsLive(c: Config, s: State, key: string) returns (i: nat)
    requires Right(c, s) && Hit(SlotOf(s, key), s.now).Some?
    ensures i < |s.log| && Live(c, s.log, key, i, s.now)
  {
    assert SlotRight(c, s, key);
    if c.layout.Mem? {
      i := LastHeldAt(c, s.log, key);
    } else {
      i := LastStoredAt(s.log, key);
    }
  }

  /** What a caller that arrives is told, if anything: over either store, in every interleaving. */
  lemma LookupExactly(c: Config, acts: seq<Act>, key: string, fails: bool)
    ensures var s := Run(c, acts); var t := Run(c, acts + [Lookup(key, fails)]);
      && (key == "" ==> t.log == s.log + [Replied(key, s.now, |s.callers|, Unprotected)])
      && (key != "" && fails ==> t.log == s.log + [Replied(key, s.now, |s.callers|, Fault)])
      && (key != "" && !fails ==>
            && (t.log == s.log <==> forall i :: 0 <= i < |s.log| ==> !Live(c, s.log, key, i, s.now))
            && (forall i :: 0 <= i < |s.log| && Live(c, s.log, key, i, s.now) ==>
                  t.log == s.log + [Replied(key, s.now, |s.callers|, Replay(s.log[i].entry))]))
  {
    RunSnoc(c, acts, Lookup(key, fails));
    var s := Run(c, acts);
    if key != "" && !fails {
      hide Run;
      forall i | 0 <= i < |s.log| && Live(c, s.log, key, i, s.now)
        ensures Run(c, acts + [Lookup(key, fails)]).log
             == s.log + [Replied(key, s.now, |s.callers|, Replay(s.log[i].entry))]
      {
        LiveIsReplayed(c, acts, key, i);
      }
      if forall i :: 0 <= i < |s.log| ==> !Live(c, s.log, key, i, s.now) {
        OthersWait(c, acts, key);
      }
    }
  }

  // --- claims ----------------------------------------------------------------

  /** A claim, in memory also a response, of the key is younger than ttl. */
  predicate Held(c: Config, log: seq<Happening>, key: string, now: Time) {
    exists i :: 0 <= i < |log| && Holds(c, log[i]) && log[i].key == key && now < log[i].at + c.ttl
  }

  lemma HeldIsNotClaimable(c: Config, s: State, key: string)
    requires Right(c, s)
    ensures Claimable(SlotOf(s, key), s.now) <==> !Held(c, s.log, key, s.now)
  {
    assert SlotRight(c, s, key);
    if LastHeld(c, s.log, key).Some? {
      var k := LastHeldAt(c, s.log, key);
      if Held(c, s.log, key, s.now) {
        var i :| 0 <= i < |s.log| && Holds(c, s.log[i]) && s.log[i].key == key && s.now < s.log[i].at + c.ttl;
        assert i <= k;
      }
    } else {
      NeverHeld(c, s.log, key);
    }
  }

  lemma {:induction false} NeverHeld(c: Config, log: seq<Happening>, key: string)
    requires LastHeld(c, log, key).None?
    ensures forall i :: 0 <= i < |log| && log[i].key == key ==> !Holds(c, log[i])
    decreases |log|
  {
    if log != [] {
      NeverHeld(c, log[..|log| - 1], key);
    }
  }

  /** What a caller is told that found no response and goes on to claim in time: the key is held and that is
      a conflict, or its handler runs. An error is the answer exactly when something was lost. */
  lemma ClaimExactly(c: Config, acts: seq<Act>, who: nat, trouble: Trouble)
    requires var s := Run(c, acts);
      who < |s.callers| && s.callers[who].phase.Missed? && s.now <= s.callers[who].phase.at + c.patience
    ensures var s := Run(c, acts); var t := Run(c, acts + [Claim(who, trouble)]);
      var key := s.callers[who].key; var held := Held(c, s.log, key, s.now);
      && t.log == s.log + (match trouble
           case RequestLost => [Replied(key, s.now, who, Fault)]
           case AnswerLost => (if held then [] else [Lost(key, s.now)]) + [Replied(key, s.now, who, Fault)]
           case NoTrouble => if held then [Replied(key, s.now, who, InFlight)] else [Claimed(key, s.now, who)])
      && (t.callers[who] == Caller(key, Handling(s.now)) <==> trouble.NoTrouble? && !held)
  {
    hide Run;
    RunRight(c, acts);
    HeldIsNotClaimable(c, Run(c, acts), Run(c, acts).callers[who].key);
    RunSnoc(c, acts, Claim(who, trouble));
  }

  /** The caller whose handler ran gets its response in any case; it is stored unless that fails. */
  lemma StoreExactly(c: Config, acts: seq<Act>, who: nat, entry: Entry, fails: bool)
    requires var s := Run(c, acts);
      who < |s.callers| && s.callers[who].phase.Handling? && s.now <= s.callers[who].phase.since + c.handling
    ensures var s := Run(c, acts); var t := Run(c, acts + [Store(who, entry, fails)]);
      var key := s.callers[who].key;
      t.log == s.log + (if fails then [] else [Stored(key, s.now, who, entry)])
        + [Replied(key, s.now, who, Fresh(entry))]
  {
    RunSnoc(c, acts, Store(who, entry, fails));
  }

  // --- a request and its retry -----------------------------------------------

  /** A key that nobody has used: a handler runs, and its response is stored and returned. */
  lemma FirstIsHandled(c: Config, acts: seq<Act>, key: string, entry: Entry) returns (more: seq<Act>)
    requires key != "" && forall e <- Run(c, acts).log :: e.key == key ==> e.Replied?
    ensures var s := Run(c, acts); var n := |s.callers|; var t := Run(c, more);
      && more == acts + [Lookup(key, false), Claim(n, NoTrouble), Store(n, entry, false)]
      && t.now == s.now && |t.callers| == n + 1
      && t.log == s.log + [Claimed(key, s.now, n), Stored(key, s.now, n, entry), Replied(key, s.now, n, Fresh(entry))]
  {
    hide Run;
    var s := Run(c, acts);
    var n := |s.callers|;
    OthersWait(c, acts, key);
    var looked := acts + [Lookup(key, false)];
    RunSnoc(c, acts, Lookup(key, false));
    assert !Held(c, s.log, key, s.now);
    KeepsTime(c, s, Lookup(key, false));
    ClaimExactly(c, looked, n, NoTrouble);
    var claimed := looked + [Claim(n, NoTrouble)];
    RunSnoc(c, looked, Claim(n, NoTrouble));
    KeepsTime(c, Run(c, looked), Claim(n, NoTrouble));
    StoreExactly(c, claimed, n, entry, false);
    more := claimed + [Store(n, entry, false)];
    RunSnoc(c, claimed, Store(n, entry, false));
    KeepsTime(c, Run(c, claimed), Store(n, entry, false));
  }

  lemma KeepsTime(c: Config, s: State, a: Act)
    requires !a.Tick?
    ensures Step(c, s, a).now == s.now
    ensures |Step(c, s, a).callers| == |s.callers| + if a.Lookup? then 1 else 0
  {
  }

  /** And a retry within the time to live gets the same response again, over either store and after any
      history. */
  lemma RetryIsReplayed(c: Config, acts: seq<Act>, key: string, entry: Entry, wait: nat)
    requires key != "" && wait < c.ttl
    requires forall e <- Run(c, acts).log :: e.key == key ==> e.Replied?
    ensures var s := Run(c, acts); var n := |s.callers|;
      Run(c, acts + [Lookup(key, false), Claim(n, NoTrouble), Store(n, entry, false)] + [Tick(wait), Lookup(key, false)]).log
      == s.log + [Claimed(key, s.now, n), Stored(key, s.now, n, entry), Replied(key, s.now, n, Fresh(entry))]
               + [Replied(key, s.now + wait, n + 1, Replay(entry))]
  {
    hide Run, Live;
    var s := Run(c, acts);
    var more := FirstIsHandled(c, acts, key, entry);
    JustStored(c, s.log, key, s.now, |s.callers|, entry, wait);
    ReplayedLater(c, more, key, |s.log| + 1, wait);
  }

  lemma JustStored(c: Config, log: seq<Happening>, key: string, now: Time, n: nat, entry: Entry, wait: nat)
    requires wait < c.ttl
    ensures var all := log + [Claimed(key, now, n), Stored(key, now, n, entry), Replied(key, now, n, Fresh(entry))];
      Live(c, all, key, |log| + 1, now + wait) && all[|log| + 1].entry == entry
  {
  }

  lemma ReplayedLater(c: Config, acts: seq<Act>, key: string, i: nat, wait: nat)
    requires var s := Run(c, acts); key != "" && i < |s.log| && Live(c, s.log, key, i, s.now + wait)
    ensures var s := Run(c, acts);
      Run(c, acts + [Tick(wait), Lookup(key, false)]).log
      == s.log + [Replied(key, s.now + wait, |s.callers|, Replay(s.log[i].entry))]
  {
    hide Run, Live;
    var late := acts + [Tick(wait)];
    RunSnoc(c, acts, Tick(wait));
    LiveIsReplayed(c, late, key, i);
    assert late + [Lookup(key, false)] == acts + [Tick(wait), Lookup(key, false)];
  }
}
