/** The idempotency protocol: replayOrContinueStore (internal/api/handlers.go) runs lookup, claim,
    handle and store as separate steps, by any number of callers, over one of the two stores of
    internal/idempotency/idempotency.go. Time is an integer that never goes back. */
module Idempotency {
  import opened Domain

  // --- what a store holds for one key ----------------------------------------

  datatype Entry = Entry(status: int, body: string)

  datatype Layout = Mem | Redis

  /** MemStore keeps one entry per key; Redis keeps a claim and a response that expire separately. */
  datatype Slot =
    | Vacant
    | MemSlot(entry: Option<Entry>, expires: Time)
    | RedisSlot(claimUntil: Option<Time>, response: Option<(Entry, Time)>)

  /** LookupResponse: what a lookup at time now returns. */
  function Hit(s: Slot, now: Time): Option<Entry> {
    match s
    case Vacant => None
    case MemSlot(entry, expires) => if now > expires then None else entry
    case RedisSlot(_, response) =>
      if response.Some? && now < response.value.1 then Some(response.value.0) else None
  }

  /** A lookup in memory also deletes an expired entry. */
  function AfterLookup(s: Slot, now: Time): Slot {
    if s.MemSlot? && now > s.expires then Vacant else s
  }

  predicate Claimable(s: Slot, now: Time) {
    match s
    case Vacant => true
    case MemSlot(_, expires) => now >= expires
    case RedisSlot(claimUntil, _) => claimUntil.Some? ==> now >= claimUntil.value
  }

  function AfterClaim(l: Layout, s: Slot, now: Time, ttl: nat): Slot {
    match l
    case Mem => MemSlot(None, now + ttl)
    case Redis => RedisSlot(Some(now + ttl), if s.RedisSlot? then s.response else None)
  }

  function AfterStore(l: Layout, s: Slot, e: Entry, now: Time, ttl: nat): Slot {
    match l
    case Mem => MemSlot(Some(e), now + ttl)
    case Redis => RedisSlot(if s.RedisSlot? then s.claimUntil else None, Some((e, now + ttl)))
  }

  // --- the protocol ----------------------------------------------------------

  /** `patience` bounds the time from a caller's lookup to its claim, `handling` the time from its
      claim to its store. A caller that misses a bound takes no further step, as if it had crashed. */
  datatype Config = Config(layout: Layout, ttl: nat, patience: nat, handling: nat)

  datatype Phase = Missed(at: Time) | Handling(since: Time) | Done

  datatype Caller = Caller(key: string, phase: Phase)

  datatype Reply = Replay(entry: Entry) | Fresh(entry: Entry) | InFlight | Fault | Unprotected

  /** `Claimed` is the start of a handler run. `Lost` is a claim that took effect although its caller
      saw an error. */
  datatype Happening =
    | Claimed(key: string, at: Time, who: nat)
    | Lost(key: string, at: Time)
    | Stored(key: string, at: Time, who: nat, entry: Entry)
    | Replied(key: string, at: Time, who: nat, reply: Reply)

  datatype State = State(now: Time, slots: map<string, Slot>, callers: seq<Caller>, log: seq<Happening>)

  const START: State := State(0, map[], [], [])

  datatype Trouble = NoTrouble | RequestLost | AnswerLost

  datatype Act =
    | Tick(elapsed: nat)
    | Lookup(key: string, fails: bool)
    | Claim(who: nat, trouble: Trouble)
    | Store(who: nat, entry: Entry, fails: bool)

  function SlotOf(s: State, key: string): Slot {
    if key in s.slots then s.slots[key] else Vacant
  }

  function Answer(s: State, who: nat, key: string, r: Reply): State
    requires who < |s.callers|
  {
    s.(callers := s.callers[who := Caller(key, Done)], log := s.log + [Replied(key, s.now, who, r)])
  }

  function Step(c: Config, s: State, a: Act): State {
    match a
    case Tick(elapsed) => s.(now := s.now + elapsed)
    case Lookup(key, fails) => StepLookup(s, key, fails)
    case Claim(who, trouble) =>
      if who < |s.callers| && s.callers[who].phase.Missed? && s.now <= s.callers[who].phase.at + c.patience
      then StepClaim(c, s, who, trouble) else s
    case Store(who, entry, fails) =>
      if who < |s.callers| && s.callers[who].phase.Handling? && s.now <= s.callers[who].phase.since + c.handling
      then StepStore(c, s, who, entry, fails) else s
  }

  /** A new caller: without a key it is handled unprotected; otherwise it looks for a response. */
  function StepLookup(s: State, key: string, fails: bool): State {
    var who := |s.callers|;
    var arrived := s.(callers := s.callers + [Caller(key, Missed(s.now))]);
    if key == "" then Answer(arrived, who, key, Unprotected)
    else if fails then Answer(arrived, who, key, Fault)
    else
      var hit := Hit(SlotOf(s, key), s.now);
      var looked := arrived.(slots := s.slots[key := AfterLookup(SlotOf(s, key), s.now)]);
      if hit.Some? then Answer(looked, who, key, Replay(hit.value)) else looked
  }

  function StepClaim(c: Config, s: State, who: nat, trouble: Trouble): State
    requires who < |s.callers|
  {
    var key := s.callers[who].key;
    var slot := SlotOf(s, key);
    var free := Claimable(slot, s.now);
    var taken := s.(slots := s.slots[key := AfterClaim(c.layout, slot, s.now, c.ttl)]);
    if trouble.RequestLost? then Answer(s, who, key, Fault)
    else if !free then Answer(s, who, key, if trouble.AnswerLost? then Fault else InFlight)
    else if trouble.AnswerLost? then Answer(taken.(log := s.log + [Lost(key, s.now)]), who, key, Fault)
    else
      taken.(callers := s.callers[who := Caller(key, Handling(s.now))],
             log := s.log + [Claimed(key, s.now, who)])
  }

  /** The handler is done: its response is stored, unless the store fails, and returned. */
  function StepStore(c: Config, s: State, who: nat, entry: Entry, fails: bool): State
    requires who < |s.callers|
  {
    var key := s.callers[who].key;
    if fails then Answer(s, who, key, Fresh(entry))
    else
      Answer(s.(slots := s.slots[key := AfterStore(c.layout, SlotOf(s, key), entry, s.now, c.ttl)],
                log := s.log + [Stored(key, s.now, who, entry)]),
             who, key, Fresh(entry))
  }

  function Run(c: Config, acts: seq<Act>): State {
    if acts == [] then START else Step(c, Run(c, acts[..|acts| - 1]), acts[|acts| - 1])
  }

  // --- handler runs are at least ttl apart -----------------------------------

  /** No claim can succeed before `until`. */
  predicate Blocked(s: Slot, until: Time) {
    || (s.MemSlot? && s.expires >= until)
    || (s.RedisSlot? && s.claimUntil.Some? && s.claimUntil.value >= until)
  }

  /** Redis answers lookups until then. */
  predicate Showing(s: Slot, until: Time) {
    s.RedisSlot? && s.response.Some? && s.response.value.1 >= until
  }

  predicate Holds(c: Config, e: Happening) {
    e.Claimed? || e.Lost? || (e.Stored? && c.layout.Mem?)
  }

  /** Every claim, and in memory every store, blocks its key for ttl. */
  predicate KeysHeld(c: Config, s: State) {
    forall e <- s.log :: e.at <= s.now
      && (Holds(c, e) ==> s.now >= e.at + c.ttl || Blocked(SlotOf(s, e.key), e.at + c.ttl))
  }

  /** A claim comes at least ttl after whatever held the key before. */
  predicate Spaced(c: Config, log: seq<Happening>) {
    forall i, j ::
      0 <= i < j < |log| && Holds(c, log[i]) && log[j].Claimed? && log[i].key == log[j].key
      ==> log[j].at >= log[i].at + c.ttl
  }

  predicate Fits(c: Config, s: State) {
    forall key <- s.slots ::
      s.slots[key].Vacant? || (if c.layout.Mem? then s.slots[key].MemSlot? else s.slots[key].RedisSlot?)
  }

  predicate Paced(c: Config, s: State) {
    Fits(c, s) && KeysHeld(c, s) && Spaced(c, s.log)
  }

  lemma SpacedSnoc(c: Config, log: seq<Happening>, e: Happening)
    requires Spaced(c, log)
    requires e.Claimed? ==> forall d <- log :: Holds(c, d) && d.key == e.key ==> e.at >= d.at + c.ttl
    ensures Spaced(c, log + [e])
  {
    var all := log + [e];
    forall i, j |
      0 <= i < j < |all| && Holds(c, all[i]) && all[j].Claimed? && all[i].key == all[j].key
      ensures all[j].at >= all[i].at + c.ttl
    {
      if j == |log| {
        assert all[i] in log;
      }
    }
  }

  lemma StepPaced(c: Config, s: State, a: Act)
    requires Paced(c, s)
    ensures Paced(c, Step(c, s, a))
  {
    match a
    case Tick(_) =>
    case Lookup(key, fails) => LookupPaced(c, s, key, fails);
    case Claim(who, trouble) =>
      if who < |s.callers| && s.callers[who].phase.Missed? && s.now <= s.callers[who].phase.at + c.patience {
        ClaimPaced(c, s, who, trouble);
      }
    case Store(who, entry, fails) =>
      if who < |s.callers| && s.callers[who].phase.Handling? && s.now <= s.callers[who].phase.since + c.handling {
        StorePaced(c, s, who, entry, fails);
      }
  }

  lemma AnswerPaced(c: Config, s: State, who: nat, key: string, r: Reply)
    requires who < |s.callers| && Paced(c, s)
    ensures Paced(c, Answer(s, who, key, r))
  {
    SpacedSnoc(c, s.log, Replied(key, s.now, who, r));
  }

  lemma LookupPaced(c: Config, s: State, key: string, fails: bool)
    requires Paced(c, s)
    ensures Paced(c, StepLookup(s, key, fails))
  {
    var who := |s.callers|;
    var arrived := s.(callers := s.callers + [Caller(key, Missed(s.now))]);
    var looked := arrived.(slots := s.slots[key := AfterLookup(SlotOf(s, key), s.now)]);
    assert Paced(c, arrived);
    if key == "" {
      AnswerPaced(c, arrived, who, key, Unprotected);
    } else if fails {
      AnswerPaced(c, arrived, who, key, Fault);
    } else {
      forall e | e in s.log && Holds(c, e)
        ensures s.now >= e.at + c.ttl || Blocked(SlotOf(looked, e.key), e.at + c.ttl)
      {
      }
      assert Paced(c, looked);
      var hit := Hit(SlotOf(s, key), s.now);
      if hit.Some? {
        AnswerPaced(c, looked, who, key, Replay(hit.value));
      }
    }
  }

  lemma ClaimPaced(c: Config, s: State, who: nat, trouble: Trouble)
    requires who < |s.callers| && Paced(c, s)
    ensures Paced(c, StepClaim(c, s, who, trouble))
  {
    var key := s.callers[who].key;
    var slot := SlotOf(s, key);
    if trouble.RequestLost? {
      AnswerPaced(c, s, who, key, Fault);
    } else if !Claimable(slot, s.now) {
      AnswerPaced(c, s, who, key, if trouble.AnswerLost? then Fault else InFlight);
    } else {
      var e := if trouble.AnswerLost? then Lost(key, s.now) else Claimed(key, s.now, who);
      var taken := s.(slots := s.slots[key := AfterClaim(c.layout, slot, s.now, c.ttl)], log := s.log + [e]);
      TakenPaced(c, s, key, e);
      if trouble.AnswerLost? {
        AnswerPaced(c, taken, who, key, Fault);
      }
    }
  }

  lemma TakenPaced(c: Config, s: State, key: string, e: Happening)
    requires Paced(c, s) && Claimable(SlotOf(s, key), s.now)
    requires (e.Claimed? || e.Lost?) && e.key == key && e.at == s.now
    ensures Paced(c, s.(slots := s.slots[key := AfterClaim(c.layout, SlotOf(s, key), s.now, c.ttl)],
                        log := s.log + [e]))
  {
    SpacedSnoc(c, s.log, e);
  }

  lemma StorePaced(c: Config, s: State, who: nat, entry: Entry, fails: bool)
    requires who < |s.callers| && Paced(c, s)
    ensures Paced(c, StepStore(c, s, who, entry, fails))
  {
    var key := s.callers[who].key;
    if fails {
      AnswerPaced(c, s, who, key, Fresh(entry));
    } else {
      KeptPaced(c, s, key, Stored(key, s.now, who, entry));
      AnswerPaced(c, s.(slots := s.slots[key := AfterStore(c.layout, SlotOf(s, key), entry, s.now, c.ttl)],
                        log := s.log + [Stored(key, s.now, who, entry)]),
                  who, key, Fresh(entry));
    }
  }

  lemma KeptPaced(c: Config, s: State, key: string, e: Happening)
    requires Paced(c, s) && e.Stored? && e.key == key && e.at == s.now
    ensures Paced(c, s.(slots := s.slots[key := AfterStore(c.layout, SlotOf(s, key), e.entry, s.now, c.ttl)],
                        log := s.log + [e]))
  {
    SpacedSnoc(c, s.log, e);
  }

  lemma {:induction false} RunPaced(c: Config, acts: seq<Act>)
    ensures Paced(c, Run(c, acts))
    decreases |acts|
  {
    if acts != [] {
      RunPaced(c, acts[..|acts| - 1]);
      StepPaced(c, Run(c, acts[..|acts| - 1]), acts[|acts| - 1]);
    }
  }

  /** In every interleaving, over either store: handler runs of a key start at least ttl apart, and
      over the in-memory store also at least ttl after every response stored before. */
  lemma RunsAreSpaced(c: Config, acts: seq<Act>, i: nat, j: nat)
    requires i < j < |Run(c, acts).log|
    requires var log := Run(c, acts).log;
      log[j].Claimed? && log[i].key == log[j].key && (log[i].Claimed? || (log[i].Stored? && c.layout.Mem?))
    ensures var log := Run(c, acts).log; log[j].at >= log[i].at + c.ttl
  {
    RunPaced(c, acts);
  }
}
