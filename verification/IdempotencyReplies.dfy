/** What callers are told. While a run's response is valid, every reply for its key, over either
    store, is the in-flight conflict or exactly the response of that run. */
module IdempotencyReplies {
  import opened Domain
  import opened Idempotency
  import opened IdempotencyTiming

  /** Handlers finish within ttl, and over Redis the callers are in time. */
  predicate Prompt(c: Config) {
    c.handling < c.ttl && (c.layout.Redis? ==> InTime(c))
  }

  // --- who ran last ----------------------------------------------------------

  function LastRun(log: seq<Happening>, key: string): Option<Happening> {
    if log == [] then None
    else
      var e := log[|log| - 1];
      if e.Claimed? && e.key == key then Some(e) else LastRun(log[..|log| - 1], key)
  }

  lemma LastRunSnoc(log: seq<Happening>, e: Happening, key: string)
    ensures LastRun(log + [e], key) == if e.Claimed? && e.key == key then Some(e) else LastRun(log, key)
  {
    assert (log + [e])[..|log|] == log;
  }

  predicate RanLast(log: seq<Happening>, key: string, who: nat) {
    LastRun(log, key).Some? && LastRun(log, key).value.Claimed? && LastRun(log, key).value.who == who
  }

  // --- the replies that are right --------------------------------------------

  predicate Holder(e: Happening) {
    e.Claimed? || e.Lost? || e.Stored?
  }

  /** A replay repeats the response of the run that started last, which is still valid; a fresh answer
      comes from that run itself; a conflict is given while a claim or response is held. */
  predicate Right(c: Config, log: seq<Happening>, e: Happening)
    requires e.Replied?
  {
    match e.reply
    case Replay(x) =>
      exists d :: d in log && d.Stored? && d.key == e.key && d.entry == x
        && e.at <= d.at + c.ttl && RanLast(log, e.key, d.who)
    case Fresh(_) => RanLast(log, e.key, e.who)
    case InFlight => exists d :: d in log && Holder(d) && d.key == e.key && e.at < d.at + c.ttl
    case _ => true
  }

  predicate AllRight(c: Config, log: seq<Happening>) {
    forall j :: 0 <= j < |log| && log[j].Replied? && log[j].key != "" ==> Right(c, log[..j], log[j])
  }

  lemma AllRightSnoc(c: Config, log: seq<Happening>, e: Happening)
    requires AllRight(c, log) && (e.Replied? && e.key != "" ==> Right(c, log, e))
    ensures AllRight(c, log + [e])
  {
    var all := log + [e];
    forall j | 0 <= j < |all| && all[j].Replied? && all[j].key != "" ensures Right(c, all[..j], all[j]) {
      if j < |log| {
        assert all[..j] == log[..j];
      } else {
        assert all[..j] == log;
      }
    }
  }

  // --- the invariant ---------------------------------------------------------

  predicate Ordered(s: State) {
    && (forall i, j :: 0 <= i < j < |s.log| ==> s.log[i].at <= s.log[j].at)
    && (forall e <- s.log :: e.at <= s.now)
  }

  /** The event carries the outcome of a handler run of its caller. */
  predicate Outcome(e: Happening) {
    e.Stored? || (e.Replied? && e.reply.Fresh?)
  }

  function EntryOf(e: Happening): Entry
    requires Outcome(e)
  {
    if e.Stored? then e.entry else e.reply.entry
  }

  /** Each caller runs at most once and has one outcome, within the handling time. */
  predicate OncePerCaller(c: Config, s: State) {
    && (forall e <- s.log :: e.Claimed? ==>
          e.who < |s.callers| && !s.callers[e.who].phase.Missed? && s.callers[e.who].key == e.key)
    && (forall e <- s.log :: Outcome(e) ==>
          e.who < |s.callers| && s.callers[e.who].phase.Done? && s.callers[e.who].key == e.key)
    && (forall d, e :: d in s.log && e in s.log && d.Claimed? && e.Claimed? && d.who == e.who ==> d == e)
    && (forall d, e :: d in s.log && e in s.log && Outcome(d) && Outcome(e) && d.who == e.who
          ==> EntryOf(d) == EntryOf(e))
    && (forall d, e :: d in s.log && e in s.log && d.Claimed? && Outcome(e) && d.who == e.who
          ==> e.at <= d.at + c.handling)
  }

  /** A caller that may still finish is the last to have started. */
  predicate Lives(c: Config, s: State) {
    forall w :: 0 <= w < |s.callers| && s.callers[w].phase.Handling? ==>
      && Claimed(s.callers[w].key, s.callers[w].phase.since, w) in s.log
      && (s.now <= s.callers[w].phase.since + c.handling ==>
            LastRun(s.log, s.callers[w].key) == Some(Claimed(s.callers[w].key, s.callers[w].phase.since, w)))
  }

  /** The response a slot holds, and until when. */
  function Response(t: Slot): Option<(Entry, Time)> {
    match t
    case MemSlot(Some(e), until) => Some((e, until))
    case RedisSlot(_, response) => response
    case _ => None
  }

  function HeldUntil(t: Slot): Option<Time> {
    match t
    case MemSlot(_, until) => Some(until)
    case RedisSlot(until, _) => until
    case Vacant => None
  }

  predicate Vouched(c: Config, s: State, key: string, e: Entry, until: Time) {
    exists d :: d in s.log && d.Stored? && d.key == key && d.entry == e && d.at + c.ttl == until
      && (RanLast(s.log, key, d.who) || (c.layout.Redis? && s.now >= until))
  }

  predicate HeldBy(c: Config, log: seq<Happening>, key: string, until: Time) {
    exists d :: d in log && Holder(d) && d.key == key && d.at + c.ttl == until
  }

  predicate SlotsExplained(c: Config, s: State) {
    && (forall key <- s.slots :: var r := Response(s.slots[key]);
          r.Some? ==> Vouched(c, s, key, r.value.0, r.value.1))
    && (forall key <- s.slots :: var u := HeldUntil(s.slots[key]);
          u.Some? ==> HeldBy(c, s.log, key, u.value))
  }

  predicate Answering(c: Config, s: State) {
    && Ordered(s)
    && OncePerCaller(c, s)
    && Lives(c, s)
    && SlotsExplained(c, s)
    && AllRight(c, s.log)
  }

  // --- steps without events --------------------------------------------------

  lemma TickAnswering(c: Config, s: State, d: nat)
    requires Answering(c, s)
    ensures Answering(c, s.(now := s.now + d))
  {
    var t := s.(now := s.now + d);
    forall key | key in s.slots && Response(s.slots[key]).Some?
      ensures Vouched(c, t, key, Response(s.slots[key]).value.0, Response(s.slots[key]).value.1)
    {
      assert Vouched(c, s, key, Response(s.slots[key]).value.0, Response(s.slots[key]).value.1);
    }
  }

  lemma ArrivedAnswering(c: Config, s: State, key: string, p: Phase)
    requires Answering(c, s) && !p.Handling?
    ensures Answering(c, Arrived(s, key, p))
  {
    var t := Arrived(s, key, p);
    assert forall w :: 0 <= w < |s.callers| ==> t.callers[w] == s.callers[w];
    SameLogSlots(c, s, t);
  }

  lemma SameLogSlots(c: Config, s: State, t: State)
    requires SlotsExplained(c, s) && t.slots == s.slots && t.log == s.log && t.now == s.now
    ensures SlotsExplained(c, t)
  {
    forall key | key in s.slots && Response(s.slots[key]).Some?
      ensures Vouched(c, t, key, Response(s.slots[key]).value.0, Response(s.slots[key]).value.1)
    {
      assert Vouched(c, s, key, Response(s.slots[key]).value.0, Response(s.slots[key]).value.1);
    }
  }

  lemma SeenAnswering(c: Config, s: State, key: string)
    requires Answering(c, s)
    ensures Answering(c, Seen(s, key))
  {
    var t := Seen(s, key);
    forall k | k in t.slots && Response(t.slots[k]).Some?
      ensures Vouched(c, t, k, Response(t.slots[k]).value.0, Response(t.slots[k]).value.1)
    {
      assert Response(s.slots[k]) == Response(t.slots[k]);
      assert Vouched(c, s, k, Response(s.slots[k]).value.0, Response(s.slots[k]).value.1);
    }
    forall k | k in t.slots && HeldUntil(t.slots[k]).Some? ensures HeldBy(c, t.log, k, HeldUntil(t.slots[k]).value) {
      assert HeldUntil(s.slots[k]) == HeldUntil(t.slots[k]);
    }
  }

  lemma DoneAnswering(c: Config, s: State, who: nat)
    requires Answering(c, s) && who < |s.callers|
    ensures Answering(c, WithDone(s, who, s.callers[who].key))
  {
    SameLogSlots(c, s, WithDone(s, who, s.callers[who].key));
  }

  // --- events ----------------------------------------------------------------

  /** A new event that starts no run leaves what the log says about runs and slots. */
  lemma LoggedSlots(c: Config, s: State, e: Happening)
    requires SlotsExplained(c, s) && !e.Claimed?
    ensures SlotsExplained(c, Logged(s, e))
  {
    var t := Logged(s, e);
    forall key | key in s.slots && Response(s.slots[key]).Some?
      ensures Vouched(c, t, key, Response(s.slots[key]).value.0, Response(s.slots[key]).value.1)
    {
      var x, u := Response(s.slots[key]).value.0, Response(s.slots[key]).value.1;
      assert Vouched(c, s, key, x, u);
      var d :| d in s.log && d.Stored? && d.key == key && d.entry == x && d.at + c.ttl == u
            && (RanLast(s.log, key, d.who) || (c.layout.Redis? && s.now >= u));
      LastRunSnoc(s.log, e, key);
      assert d in t.log;
    }
    LoggedHolds(c, s, e);
  }

  lemma LoggedHolds(c: Config, s: State, e: Happening)
    requires forall key <- s.slots :: var u := HeldUntil(s.slots[key]); u.Some? ==> HeldBy(c, s.log, key, u.value)
    ensures forall key <- s.slots :: var u := HeldUntil(s.slots[key]);
      u.Some? ==> HeldBy(c, s.log + [e], key, u.value)
  {
    forall key | key in s.slots && HeldUntil(s.slots[key]).Some?
      ensures HeldBy(c, s.log + [e], key, HeldUntil(s.slots[key]).value)
    {
      var u := HeldUntil(s.slots[key]).value;
      assert HeldBy(c, s.log, key, u);
      var d :| d in s.log && Holder(d) && d.key == key && d.at + c.ttl == u;
      assert d in s.log + [e];
    }
  }

  lemma LoggedLives(c: Config, s: State, e: Happening)
    requires Lives(c, s) && !e.Claimed?
    ensures Lives(c, Logged(s, e))
  {
    forall w | 0 <= w < |s.callers| { LastRunSnoc(s.log, e, s.callers[w].key); }
  }

  lemma LoggedOrdered(s: State, e: Happening)
    requires Ordered(s) && e.at == s.now
    ensures Ordered(Logged(s, e))
  {
    var all := s.log + [e];
    forall i, j | 0 <= i < j < |all| ensures all[i].at <= all[j].at {
      assert all[i] in s.log;
    }
  }

  /** The event, if it is an outcome, is the only one of its finished caller (or repeats it). */
  predicate FirstOutcome(c: Config, s: State, e: Happening) {
    Outcome(e) ==>
      && e.who < |s.callers| && s.callers[e.who].phase.Done? && s.callers[e.who].key == e.key
      && (forall d <- s.log :: Outcome(d) && d.who == e.who ==> EntryOf(d) == EntryOf(e))
      && (forall d <- s.log :: d.Claimed? && d.who == e.who ==> e.at <= d.at + c.handling)
  }

  lemma LoggedOnce(c: Config, s: State, e: Happening)
    requires OncePerCaller(c, s) && !e.Claimed? && FirstOutcome(c, s, e)
    ensures OncePerCaller(c, Logged(s, e))
  {
    var t := Logged(s, e);
    assert forall d :: d in t.log <==> d in s.log || d == e;
  }

  lemma LoggedAnswering(c: Config, s: State, e: Happening)
    requires Answering(c, s) && !e.Claimed? && e.at == s.now && FirstOutcome(c, s, e)
    requires e.Replied? && e.key != "" ==> Right(c, s.log, e)
    ensures Answering(c, Logged(s, e))
  {
    LoggedSlots(c, s, e);
    LoggedLives(c, s, e);
    LoggedOrdered(s, e);
    LoggedOnce(c, s, e);
    AllRightSnoc(c, s.log, e);
  }

  lemma AnswerAnswering(c: Config, s: State, who: nat, r: Reply)
    requires Answering(c, s) && who < |s.callers|
    requires var key := s.callers[who].key;
      key != "" ==> Right(c, s.log, Replied(key, s.now, who, r))
    requires FirstOutcome(c, WithDone(s, who, s.callers[who].key), Replied(s.callers[who].key, s.now, who, r))
    ensures Answering(c, Answer(s, who, s.callers[who].key, r))
  {
    DoneAnswering(c, s, who);
    LoggedAnswering(c, WithDone(s, who, s.callers[who].key), Replied(s.callers[who].key, s.now, who, r));
  }

  // --- lookup ----------------------------------------------------------------

  lemma LookupAnswering(c: Config, s: State, key: string, fails: bool)
    requires Answering(c, s) && Fits(c, s)
    ensures Answering(c, StepLookup(s, key, fails))
  {
    var who := |s.callers|;
    ArrivedAnswering(c, s, key, Missed(s.now));
    var arrived := Arrived(s, key, Missed(s.now));
    if key == "" {
      AnswerAnswering(c, arrived, who, Unprotected);
    } else if fails {
      AnswerAnswering(c, arrived, who, Fault);
    } else {
      SeenAnswering(c, arrived, key);
      var hit := Hit(SlotOf(s, key), s.now);
      if hit.Some? {
        HitIsRight(c, s, key, who);
        AnswerAnswering(c, Seen(arrived, key), who, Replay(hit.value));
      }
    }
  }

  lemma HitIsRight(c: Config, s: State, key: string, who: nat)
    requires Fits(c, s) && SlotsExplained(c, s) && Hit(SlotOf(s, key), s.now).Some?
    ensures Right(c, s.log, Replied(key, s.now, who, Replay(Hit(SlotOf(s, key), s.now).value)))
  {
    var r := Response(s.slots[key]);
    assert r.Some? && r.value.0 == Hit(SlotOf(s, key), s.now).value;
    assert Vouched(c, s, key, r.value.0, r.value.1);
  }

  // --- claim -----------------------------------------------------------------

  lemma ClaimAnswering(c: Config, s: State, who: nat, trouble: Trouble)
    requires Prompt(c) && Answering(c, s) && Paced(c, s)
    requires who < |s.callers| && s.callers[who].phase.Missed?
    requires AtMostOnce(c, StepClaim(c, s, who, trouble).log)
    ensures Answering(c, StepClaim(c, s, who, trouble))
  {
    var key := s.callers[who].key;
    var slot := SlotOf(s, key);
    if trouble.RequestLost? {
      AnswerAnswering(c, s, who, Fault);
    } else if !Claimable(slot, s.now) {
      assert HeldBy(c, s.log, key, HeldUntil(s.slots[key]).value);
      AnswerAnswering(c, s, who, if trouble.AnswerLost? then Fault else InFlight);
    } else if trouble.AnswerLost? {
      LostAnswering(c, s, key);
      AnswerAnswering(c, TakenBy(c, s, key, Lost(key, s.now)), who, Fault);
    } else {
      StartAnswering(c, s, who);
    }
  }

  function TakenBy(c: Config, s: State, key: string, e: Happening): State {
    s.(slots := s.slots[key := AfterClaim(c.layout, SlotOf(s, key), s.now, c.ttl)], log := s.log + [e])
  }

  lemma LostAnswering(c: Config, s: State, key: string)
    requires Answering(c, s) && Fits(c, s)
    ensures Answering(c, TakenBy(c, s, key, Lost(key, s.now)))
  {
    var e := Lost(key, s.now);
    LoggedAnswering(c, s, e);
    TakenSlots(c, s, key, e);
  }

  /** Taking the claim replaces the in-memory entry, and leaves the Redis response. */
  lemma TakenSlots(c: Config, s: State, key: string, e: Happening)
    requires Fits(c, s) && SlotsExplained(c, Logged(s, e)) && Holder(e) && e.key == key && e.at == s.now
    ensures SlotsExplained(c, TakenBy(c, s, key, e))
  {
    var l, t := Logged(s, e), TakenBy(c, s, key, e);
    assert e in t.log;
    forall k | k in t.slots && Response(t.slots[k]).Some?
      ensures Vouched(c, t, k, Response(t.slots[k]).value.0, Response(t.slots[k]).value.1)
    {
      assert k in l.slots && Response(t.slots[k]) == Response(l.slots[k]);
      assert Vouched(c, l, k, Response(l.slots[k]).value.0, Response(l.slots[k]).value.1);
    }
    forall k | k in t.slots && HeldUntil(t.slots[k]).Some? ensures HeldBy(c, t.log, k, HeldUntil(t.slots[k]).value) {
      if k != key {
        assert HeldBy(c, l.log, k, HeldUntil(l.slots[k]).value);
      }
    }
  }

  /** The state in which the caller's handler runs. */
  function Started(c: Config, s: State, who: nat): State
    requires who < |s.callers|
  {
    var key := s.callers[who].key;
    TakenBy(c, s, key, Claimed(key, s.now, who)).(callers := s.callers[who := Caller(key, Handling(s.now))])
  }

  /** A run starts: no earlier run of the key can still finish, and no response of one is valid. */
  lemma StartAnswering(c: Config, s: State, who: nat)
    requires Prompt(c) && Answering(c, s) && Paced(c, s)
    requires who < |s.callers| && s.callers[who].phase.Missed? && Claimable(SlotOf(s, s.callers[who].key), s.now)
    requires AtMostOnce(c, s.log + [Claimed(s.callers[who].key, s.now, who)])
    ensures Answering(c, Started(c, s, who))
  {
    hide OncePerCaller, Lives, SlotsExplained, AllRight, KeysHeld, Spaced, AtMostOnce;
    var key := s.callers[who].key;
    var e := Claimed(key, s.now, who);
    LoggedOrdered(s, e);
    AllRightSnoc(c, s.log, e);
    RunOnce(c, s, who);
    RunLives(c, s, who);
    RunSlots(c, s, who);
    SameLogSlots(c, TakenBy(c, s, key, e), Started(c, s, who));
  }

  lemma RunOnce(c: Config, s: State, who: nat)
    requires OncePerCaller(c, s) && who < |s.callers| && s.callers[who].phase.Missed?
    ensures OncePerCaller(c, Started(c, s, who))
  {
    var key := s.callers[who].key;
    var e := Claimed(key, s.now, who);
    assert forall d :: d in s.log + [e] <==> d in s.log || d == e;
  }

  lemma RunLives(c: Config, s: State, who: nat)
    requires Prompt(c) && Lives(c, s) && Paced(c, s)
    requires who < |s.callers| && s.callers[who].phase.Missed? && Claimable(SlotOf(s, s.callers[who].key), s.now)
    ensures Lives(c, Started(c, s, who))
  {
    var key := s.callers[who].key;
    var e := Claimed(key, s.now, who);
    forall w | 0 <= w < |s.callers| && s.callers[w].phase.Handling?
      ensures s.callers[w].key == key ==> s.now > s.callers[w].phase.since + c.handling
      ensures LastRun(s.log + [e], s.callers[w].key)
           == if s.callers[w].key == key then Some(e) else LastRun(s.log, s.callers[w].key)
    {
      LastRunSnoc(s.log, e, s.callers[w].key);
      var d := Claimed(s.callers[w].key, s.callers[w].phase.since, w);
      assert d in s.log && Holds(c, d);
    }
    LastRunSnoc(s.log, e, key);
  }

  lemma RunSlots(c: Config, s: State, who: nat)
    requires Fits(c, s) && SlotsExplained(c, s) && who < |s.callers|
    requires AtMostOnce(c, s.log + [Claimed(s.callers[who].key, s.now, who)])
    ensures var key := s.callers[who].key; SlotsExplained(c, TakenBy(c, s, key, Claimed(key, s.now, who)))
  {
    var key := s.callers[who].key;
    var e := Claimed(key, s.now, who);
    var t := TakenBy(c, s, key, e);
    LoggedHolds(c, s, e);
    assert e in t.log;
    forall k | k in t.slots && Response(t.slots[k]).Some?
      ensures Vouched(c, t, k, Response(t.slots[k]).value.0, Response(t.slots[k]).value.1)
    {
      assert k in s.slots && Response(s.slots[k]) == Response(t.slots[k]);
      StillVouched(c, s, who, k, Response(t.slots[k]).value.0, Response(t.slots[k]).value.1);
    }
    forall k | k in t.slots && HeldUntil(t.slots[k]).Some? ensures HeldBy(c, t.log, k, HeldUntil(t.slots[k]).value) {
    }
  }

  /** A response that is still there when a run starts is another key's, or has expired. */
  lemma StillVouched(c: Config, s: State, who: nat, k: string, x: Entry, u: Time)
    requires who < |s.callers| && Vouched(c, s, k, x, u)
    requires c.layout.Redis? || k != s.callers[who].key
    requires AtMostOnce(c, s.log + [Claimed(s.callers[who].key, s.now, who)])
    ensures var key := s.callers[who].key; Vouched(c, TakenBy(c, s, key, Claimed(key, s.now, who)), k, x, u)
  {
    var key := s.callers[who].key;
    var e := Claimed(key, s.now, who);
    var log := s.log + [e];
    var d :| d in s.log && d.Stored? && d.key == k && d.entry == x && d.at + c.ttl == u
          && (RanLast(s.log, k, d.who) || (c.layout.Redis? && s.now >= u));
    LastRunSnoc(s.log, e, k);
    assert d in log;
    if k == key {
      var i :| 0 <= i < |s.log| && s.log[i] == d;
      assert log[i] == d && log[|s.log|] == e;
    }
  }

  // --- store -----------------------------------------------------------------

  lemma StoreAnswering(c: Config, s: State, who: nat, entry: Entry, fails: bool)
    requires Answering(c, s) && Fits(c, s)
    requires who < |s.callers| && s.callers[who].phase.Handling? && s.now <= s.callers[who].phase.since + c.handling
    ensures Answering(c, StepStore(c, s, who, entry, fails))
  {
    OnlyOwnClaim(c, s, who);
    DoneAnswering(c, s, who);
    if fails {
      UnstoredAnswering(c, WithDone(s, who, s.callers[who].key), who, entry);
    } else {
      FinishAnswering(c, WithDone(s, who, s.callers[who].key), who, entry);
    }
    StoreIsFinish(c, s, who, entry);
  }

  lemma StoreIsFinish(c: Config, s: State, who: nat, entry: Entry)
    requires who < |s.callers|
    ensures var key := s.callers[who].key;
      var done := WithDone(s, who, key);
      && StepStore(c, s, who, entry, true) == Logged(done, Replied(key, s.now, who, Fresh(entry)))
      && StepStore(c, s, who, entry, false)
         == Answer(StoredBy(c, done, key, Stored(key, s.now, who, entry)), who, key, Fresh(entry))
  {
    var key := s.callers[who].key;
    assert WithDone(s, who, key).callers[who := Caller(key, Done)] == WithDone(s, who, key).callers;
  }

  /** Returning the response although the store failed. */
  lemma UnstoredAnswering(c: Config, s: State, who: nat, entry: Entry)
    requires Answering(c, s) && who < |s.callers| && s.callers[who].phase.Done?
    requires RanLast(s.log, s.callers[who].key, who)
    requires forall d <- s.log :: d.Claimed? && d.who == who ==> s.now <= d.at + c.handling
    requires forall d <- s.log :: Outcome(d) ==> d.who != who
    ensures Answering(c, Logged(s, Replied(s.callers[who].key, s.now, who, Fresh(entry))))
  {
    LoggedAnswering(c, s, Replied(s.callers[who].key, s.now, who, Fresh(entry)));
  }

  /** Storing the response and returning it. */
  lemma FinishAnswering(c: Config, s: State, who: nat, entry: Entry)
    requires Answering(c, s) && Fits(c, s) && who < |s.callers| && s.callers[who].phase.Done?
    requires RanLast(s.log, s.callers[who].key, who)
    requires forall d <- s.log :: d.Claimed? && d.who == who ==> s.now <= d.at + c.handling
    requires forall d <- s.log :: Outcome(d) ==> d.who != who
    ensures var key := s.callers[who].key;
      Answering(c, Answer(StoredBy(c, s, key, Stored(key, s.now, who, entry)), who, key, Fresh(entry)))
  {
    var key := s.callers[who].key;
    var e, r := Stored(key, s.now, who, entry), Replied(key, s.now, who, Fresh(entry));
    KeepAnswering(c, s, key, e);
    var t := StoredBy(c, s, key, e);
    LastRunSnoc(s.log, e, key);
    FreshRepeats(c, s, e, r);
    LoggedAnswering(c, t, r);
    assert t.callers[who := Caller(key, Done)] == t.callers;
  }

  lemma FreshRepeats(c: Config, s: State, e: Happening, r: Happening)
    requires e.Stored? && r.Replied? && r.reply == Fresh(e.entry) && r.who == e.who && r.key == e.key && r.at == e.at
    requires FirstOutcome(c, s, e)
    ensures FirstOutcome(c, Logged(s, e), r)
  {
    assert forall d :: d in s.log + [e] <==> d in s.log || d == e;
  }

  function StoredBy(c: Config, s: State, key: string, e: Happening): State
    requires e.Stored?
  {
    s.(slots := s.slots[key := AfterStore(c.layout, SlotOf(s, key), e.entry, s.now, c.ttl)], log := s.log + [e])
  }

  lemma KeepAnswering(c: Config, s: State, key: string, e: Happening)
    requires Answering(c, s) && Fits(c, s) && e.Stored? && e.key == key && e.at == s.now
    requires FirstOutcome(c, s, e) && RanLast(s.log, key, e.who)
    ensures Answering(c, StoredBy(c, s, key, e))
  {
    LoggedAnswering(c, s, e);
    LastRunSnoc(s.log, e, key);
    StoredSlots(c, s, key, e);
  }

  lemma OnlyOwnClaim(c: Config, s: State, who: nat)
    requires Answering(c, s) && who < |s.callers| && s.callers[who].phase.Handling?
    requires s.now <= s.callers[who].phase.since + c.handling
    ensures forall d <- s.log :: d.Claimed? && d.who == who ==> s.now <= d.at + c.handling
    ensures forall d <- s.log :: Outcome(d) ==> d.who != who
    ensures RanLast(s.log, s.callers[who].key, who)
  {
    assert Claimed(s.callers[who].key, s.callers[who].phase.since, who) in s.log;
  }

  lemma StoredSlots(c: Config, s: State, key: string, e: Happening)
    requires Fits(c, s) && SlotsExplained(c, Logged(s, e)) && e.Stored? && e.key == key && e.at == s.now
    requires RanLast(s.log + [e], key, e.who)
    ensures SlotsExplained(c, StoredBy(c, s, key, e))
  {
    var l, t := Logged(s, e), StoredBy(c, s, key, e);
    assert e in t.log;
    forall k | k in t.slots && Response(t.slots[k]).Some?
      ensures Vouched(c, t, k, Response(t.slots[k]).value.0, Response(t.slots[k]).value.1)
    {
      if k != key {
        assert Vouched(c, l, k, Response(l.slots[k]).value.0, Response(l.slots[k]).value.1);
      }
    }
    forall k | k in t.slots && HeldUntil(t.slots[k]).Some? ensures HeldBy(c, t.log, k, HeldUntil(t.slots[k]).value) {
      if HeldUntil(t.slots[k]) != Some(s.now + c.ttl) || k != key {
        assert HeldUntil(l.slots[k]) == HeldUntil(t.slots[k]);
        assert HeldBy(c, l.log, k, HeldUntil(l.slots[k]).value);
      }
    }
  }

  // --- every interleaving ----------------------------------------------------

  lemma AtMostOnceAnyway(c: Config, acts: seq<Act>)
    requires Prompt(c)
    ensures AtMostOnce(c, Run(c, acts).log)
  {
    if c.layout.Redis? {
      RunTimed(c, acts);
    } else {
      RunPaced(c, acts);
    }
  }

  lemma StepAnswering(c: Config, s: State, a: Act)
    requires Prompt(c) && Answering(c, s) && Paced(c, s) && AtMostOnce(c, Step(c, s, a).log)
    ensures Answering(c, Step(c, s, a))
  {
    hide Answering, KeysHeld, Spaced, AtMostOnce;
    match a
    case Tick(d) => TickAnswering(c, s, d);
    case Lookup(key, fails) => LookupAnswering(c, s, key, fails);
    case Claim(who, trouble) =>
      if who < |s.callers| && s.callers[who].phase.Missed? && s.now <= s.callers[who].phase.at + c.patience {
        ClaimAnswering(c, s, who, trouble);
      }
    case Store(who, entry, fails) =>
      if who < |s.callers| && s.callers[who].phase.Handling? && s.now <= s.callers[who].phase.since + c.handling {
        StoreAnswering(c, s, who, entry, fails);
      }
  }

  lemma {:induction false} RunAnswers(c: Config, acts: seq<Act>)
    requires Prompt(c)
    ensures Answering(c, Run(c, acts))
    decreases |acts|
  {
    if acts != [] {
      hide Answering, Paced, AtMostOnce, Step;
      RunAnswers(c, acts[..|acts| - 1]);
      RunPaced(c, acts[..|acts| - 1]);
      AtMostOnceAnyway(c, acts);
      StepAnswering(c, Run(c, acts[..|acts| - 1]), acts[|acts| - 1]);
    }
  }

  // --- the theorem -----------------------------------------------------------

  /** The reply carries a response. */
  predicate Carries(e: Happening) {
    e.Replied? && (e.reply.Replay? || e.reply.Fresh?)
  }

  function Carried(e: Happening): Entry
    requires Carries(e)
  {
    e.reply.entry
  }

  /** Event j, of the same key, comes after the run that starts with event i, before that run's claim
      has expired or before the response it stored has. */
  predicate During(c: Config, log: seq<Happening>, i: nat, j: nat)
    requires i < |log| && j < |log|
  {
    && i < j && log[i].Claimed? && log[j].key == log[i].key
    && (|| log[j].at < log[i].at + c.ttl
        || exists m :: i < m < j && log[m].Stored? && log[m].key == log[i].key && log[m].who == log[i].who
                    && log[j].at < log[m].at + c.ttl)
  }

  /** Until a run's response expires, no other run of its key starts. */
  lemma LastRunDuring(c: Config, acts: seq<Act>, i: nat, j: nat)
    requires Prompt(c) && i < |Run(c, acts).log| && j < |Run(c, acts).log|
    requires During(c, Run(c, acts).log, i, j)
    ensures var log := Run(c, acts).log; LastRun(log[..j], log[i].key) == Some(log[i])
  {
    var log := Run(c, acts).log;
    RunAnswers(c, acts);
    RunPaced(c, acts);
    AtMostOnceAnyway(c, acts);
    NoRunDuring(c, Run(c, acts), i, j);
    ScanBack(log, i, j);
  }

  lemma NoRunDuring(c: Config, s: State, i: nat, j: nat)
    requires Prompt(c) && Ordered(s) && OncePerCaller(c, s) && Spaced(c, s.log) && AtMostOnce(c, s.log)
    requires i < |s.log| && j < |s.log| && During(c, s.log, i, j)
    ensures forall n :: i < n < j ==> !(s.log[n].Claimed? && s.log[n].key == s.log[i].key)
  {
    forall n | i < n < j ensures !(s.log[n].Claimed? && s.log[n].key == s.log[i].key) {
      if s.log[n].Claimed? && s.log[n].key == s.log[i].key {
        NextRunEndsIt(c, s, i, n, j);
      }
    }
  }

  lemma NextRunEndsIt(c: Config, s: State, i: nat, n: nat, j: nat)
    requires Prompt(c) && Ordered(s) && OncePerCaller(c, s) && Spaced(c, s.log) && AtMostOnce(c, s.log)
    requires i < n < j < |s.log|
    requires s.log[i].Claimed? && s.log[n].Claimed? && s.log[n].key == s.log[i].key
    ensures !During(c, s.log, i, j)
  {
    assert Holds(c, s.log[i]);
    forall m | i < m < j && s.log[m].Stored? && s.log[m].key == s.log[i].key && s.log[m].who == s.log[i].who
      ensures s.log[j].at >= s.log[m].at + c.ttl
    {
      NextRunComesLater(c, s, i, n, m);
    }
  }

  /** A run that starts after run i also starts after what run i stored, and ttl later. */
  lemma NextRunComesLater(c: Config, s: State, i: nat, n: nat, m: nat)
    requires Prompt(c) && Ordered(s) && OncePerCaller(c, s) && Spaced(c, s.log) && AtMostOnce(c, s.log)
    requires i < n < |s.log| && i < m < |s.log|
    requires s.log[i].Claimed? && s.log[n].Claimed? && s.log[n].key == s.log[i].key
    requires s.log[m].Stored? && s.log[m].key == s.log[i].key && s.log[m].who == s.log[i].who
    ensures s.log[n].at >= s.log[m].at + c.ttl
  {
    assert Holds(c, s.log[i]);
    assert s.log[i] in s.log && s.log[m] in s.log;
    assert s.log[m].at <= s.log[i].at + c.handling;
    assert m < n;
  }

  lemma {:induction false} ScanBack(log: seq<Happening>, i: nat, j: nat)
    requires i < j <= |log| && log[i].Claimed?
    requires forall n :: i < n < j ==> !(log[n].Claimed? && log[n].key == log[i].key)
    ensures LastRun(log[..j], log[i].key) == Some(log[i])
    decreases j
  {
    var p := log[..j];
    assert p[..|p| - 1] == log[..j - 1];
    if j - 1 > i {
      ScanBack(log, i, j - 1);
    }
  }

  /** While a run's claim or response is valid, every reply for its key is the in-flight conflict, an
      error of the store, or the one response of that run. */
  lemma RepliesDuringRun(c: Config, acts: seq<Act>, i: nat, j: nat)
    requires Prompt(c) && i < |Run(c, acts).log| && j < |Run(c, acts).log|
    requires During(c, Run(c, acts).log, i, j) && Run(c, acts).log[i].key != ""
    requires Run(c, acts).log[j].Replied?
    ensures var log := Run(c, acts).log;
      match log[j].reply
      case Fresh(_) => log[j].who == log[i].who
      case Replay(x) => exists d :: d in log && d.Stored? && d.key == log[i].key && d.who == log[i].who && d.entry == x
      case Unprotected => log[i].key == ""
      case _ => true
  {
    var log := Run(c, acts).log;
    RunAnswers(c, acts);
    LastRunDuring(c, acts, i, j);
    assert Right(c, log[..j], log[j]);
    if log[j].reply.Replay? {
      var d :| d in log[..j] && d.Stored? && d.key == log[j].key && d.entry == log[j].reply.entry
            && log[j].at <= d.at + c.ttl && RanLast(log[..j], log[j].key, d.who);
      assert d in log;
    }
    KeyedRepliesAreProtected(c, acts);
    assert log[j] in log;
  }

  lemma {:induction false} KeyedRepliesAreProtected(c: Config, acts: seq<Act>)
    ensures forall e <- Run(c, acts).log :: e.Replied? && e.reply.Unprotected? ==> e.key == ""
    decreases |acts|
  {
    if acts != [] {
      KeyedRepliesAreProtected(c, acts[..|acts| - 1]);
    }
  }

  /** Any two responses given out for the same run are the same status and body. */
  lemma OneResponsePerRun(c: Config, acts: seq<Act>, i: nat, j: nat, k: nat)
    requires Prompt(c) && i < |Run(c, acts).log| && j < |Run(c, acts).log| && k < |Run(c, acts).log|
    requires var log := Run(c, acts).log;
      && During(c, log, i, j) && During(c, log, i, k) && log[i].key != ""
      && Carries(log[j]) && Carries(log[k])
    ensures var log := Run(c, acts).log; Carried(log[j]) == Carried(log[k])
  {
    var log := Run(c, acts).log;
    RunAnswers(c, acts);
    var d := OutcomeGiven(c, acts, i, j);
    var e := OutcomeGiven(c, acts, i, k);
  }

  lemma OutcomeGiven(c: Config, acts: seq<Act>, i: nat, j: nat) returns (d: Happening)
    requires Prompt(c) && i < |Run(c, acts).log| && j < |Run(c, acts).log|
    requires var log := Run(c, acts).log; During(c, log, i, j) && log[i].key != "" && Carries(log[j])
    ensures var log := Run(c, acts).log;
      d in log && Outcome(d) && d.who == log[i].who && EntryOf(d) == Carried(log[j])
  {
    var log := Run(c, acts).log;
    RepliesDuringRun(c, acts, i, j);
    if log[j].reply.Fresh? {
      d := log[j];
    } else {
      d :| d in log && d.Stored? && d.key == log[i].key && d.who == log[i].who && d.entry == log[j].reply.entry;
    }
  }

  // --- and the bound is exact ------------------------------------------------

  /** All responses given while a run's claim or response is valid are the same. */
  predicate OneResponse(c: Config, log: seq<Happening>) {
    forall i, j, k ::
      0 <= i < |log| && 0 <= j < |log| && 0 <= k < |log| && During(c, log, i, j) && During(c, log, i, k)
      && log[i].key != "" && Carries(log[j]) && Carries(log[k])
      ==> Carried(log[j]) == Carried(log[k])
  }

  const OTHER: Entry := Entry(500, "")

  /** Over Redis the caller that comes late gives another response while the first one is valid. */
  lemma LateRunAnswers(c: Config) returns (acts: seq<Act>)
    requires c.layout.Redis? && c.ttl > 0 && !InTime(c)
    ensures !OneResponse(c, Run(c, acts).log)
  {
    var before, s, stored := LateSecondRun(c);
    acts := before + [Store(1, OTHER, false)];
    RunSnoc(c, before, Store(1, OTHER, false));
    var log := Run(c, acts).log;
    assert log[4..] == [Stored("k", c.ttl, 1, OTHER), Replied("k", c.ttl, 1, Fresh(OTHER))];
    BothAnswered(c, log, 1, 2, 5);
  }

  /** In memory the second caller comes when the first claim expires, just before the first response. */
  lemma SlowRunAnswers(c: Config) returns (acts: seq<Act>)
    requires c.layout.Mem? && 0 < c.ttl <= c.handling
    ensures !OneResponse(c, Run(c, acts).log)
  {
    var before, s := SlowRuns(c);
    var first := before + [Store(0, RESPONSE, false)];
    RunSnoc(c, before, Store(0, RESPONSE, false));
    acts := first + [Store(1, OTHER, false)];
    RunSnoc(c, first, Store(1, OTHER, false));
    var log := Run(c, acts).log;
    assert log == s.log + [Stored("k", c.ttl, 0, RESPONSE), Replied("k", c.ttl, 0, Fresh(RESPONSE)),
                           Stored("k", c.ttl, 1, OTHER), Replied("k", c.ttl, 1, Fresh(OTHER))];
    BothAnswered(c, log, 2, 3, 5);
  }

  lemma SlowRuns(c: Config) returns (acts: seq<Act>, s: State)
    requires c.layout.Mem? && 0 < c.ttl
    ensures s == Run(c, acts) && s.now == c.ttl
    ensures s.log == [Claimed("k", 0, 0), Claimed("k", c.ttl, 1)]
    ensures s.callers == [Caller("k", Handling(0)), Caller("k", Handling(c.ttl))]
  {
    var before, t := FirstMemRun(c);
    var ticked := before + [Tick(c.ttl)];
    RunSnoc(c, before, Tick(c.ttl));
    var looked := ticked + [Lookup("k", false)];
    RunSnoc(c, ticked, Lookup("k", false));
    assert Run(c, looked) == State(c.ttl, t.slots, t.callers + [Caller("k", Missed(c.ttl))], t.log);
    acts := looked + [Claim(1, NoTrouble)];
    RunSnoc(c, looked, Claim(1, NoTrouble));
    s := Run(c, acts);
  }

  lemma FirstMemRun(c: Config) returns (acts: seq<Act>, s: State)
    requires c.layout.Mem?
    ensures s == Run(c, acts)
    ensures s == State(0, map["k" := MemSlot(None, c.ttl)], [Caller("k", Handling(0))], [Claimed("k", 0, 0)])
  {
    var looked := [] + [Lookup("k", false)];
    RunSnoc(c, [], Lookup("k", false));
    assert Run(c, looked) == State(0, map["k" := Vacant], [Caller("k", Missed(0))], []);
    acts := looked + [Claim(0, NoTrouble)];
    RunSnoc(c, looked, Claim(0, NoTrouble));
    s := Run(c, acts);
  }

  /** The first run stored its response at m and gave it at j; the second gave another one at k. */
  lemma BothAnswered(c: Config, log: seq<Happening>, m: nat, j: nat, k: nat)
    requires 0 < m < j < k < |log| && c.ttl > 0
    requires log[0] == Claimed("k", 0, 0) && log[m] == Stored("k", log[m].at, 0, RESPONSE)
    requires log[j] == Replied("k", log[m].at, 0, Fresh(RESPONSE))
    requires log[k].Replied? && log[k].key == "k" && log[k].reply == Fresh(OTHER) && log[k].at < log[m].at + c.ttl
    ensures !OneResponse(c, log)
  {
    assert During(c, log, 0, j) && During(c, log, 0, k);
  }

  /** Over either store: whatever the interleaving, all responses given while a run's claim or response is
      valid are the same if and only if handlers and callers are prompt. */
  lemma OneResponseExactly(c: Config)
    requires c.ttl > 0
    ensures (forall acts :: OneResponse(c, Run(c, acts).log)) <==> Prompt(c)
  {
    if Prompt(c) {
      forall acts ensures OneResponse(c, Run(c, acts).log) {
        AlwaysOneResponse(c, acts);
      }
    } else if c.layout.Redis? {
      var acts := LateRunAnswers(c);
    } else {
      var acts := SlowRunAnswers(c);
    }
  }

  lemma AlwaysOneResponse(c: Config, acts: seq<Act>)
    requires Prompt(c)
    ensures OneResponse(c, Run(c, acts).log)
  {
    hide Run;
    var log := Run(c, acts).log;
    forall i, j, k |
      0 <= i < |log| && 0 <= j < |log| && 0 <= k < |log| && During(c, log, i, j) && During(c, log, i, k)
      && log[i].key != "" && Carries(log[j]) && Carries(log[k])
      ensures Carried(log[j]) == Carried(log[k])
    {
      OneResponsePerRun(c, acts, i, j, k);
    }
  }
}
