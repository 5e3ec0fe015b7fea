/** Lifting facts about one action to every interleaving, and what every interleaving keeps:
    ledger, history, and the identity of intents. */
module Runs {
  import opened Domain
  import opened Engine
  import opened Ledger
  import opened History
  import W = World

  // --- intents are well kept in every run ------------------------------------

  ghost predicate Keyed(w: W.World) {
    forall id <- w.intents :: w.intents[id].id == id && HistoryOk(w.intents[id])
  }

  lemma ExecKeyed(w: W.World, a: W.Act)
    requires Keyed(w)
    ensures Keyed(W.Exec(w, a).world)
  {
    match a
    case Post(req, id, env, now) =>
      if ValidCreate(req) {
        CreateKeepsHistory(req, id, env, now);
      }
    case Update(id, op, now) =>
      if id in w.intents {
        ApplyKeepsHistory(w.intents[id], op, now);
      }
    case _ => ExecOther(w, a);
  }

  predicate SameRows(v: W.World, w: W.World) {
    v.captures == w.captures && v.refunds == w.refunds && v.settlements == w.settlements
  }

  /** Actions other than posts and updates leave intents and calls alone, and they leave neither
      rows to append nor events to emit. */
  lemma ExecOther(w: W.World, a: W.Act)
    requires !a.Post? && !a.Update?
    ensures W.Exec(w, a).world.intents == w.intents
    ensures W.Exec(w, a).world.ext == w.ext
    ensures W.Exec(w, a).world.audit == if a.Emit? then w.audit + [a.event] else w.audit
    ensures !a.Append? ==> SameRows(W.Exec(w, a).world, w)
    ensures forall b <- W.Exec(w, a).rest :: !b.Append? && !b.Emit? && !b.Deliver?
  {
    hide W.ExecPost, W.ExecUpdate, W.ExecDeliver, W.UpdateChargeback, W.AddRow;
    if a.Append? {
      W.RowKeepsRest(w, a.row);
    } else if a.Deliver? {
      DeliverKeepsIntents(w, a);
    }
  }

  lemma DeliverKeepsIntents(w: W.World, a: W.Act)
    requires a.Deliver?
    ensures var v := W.ExecDeliver(w, a).world;
      v.intents == w.intents && v.ext == w.ext && v.audit == w.audit && SameRows(v, w)
    ensures forall b <- W.ExecDeliver(w, a).rest :: !b.Append? && !b.Emit? && !b.Deliver?
  {
    hide ParseRail, W.Process, W.Age, W.WebhookKey;
    if W.Accepted(a) {
      ProcessPlain(ParseRail(a.rail).value, a.body, a.pick, a.now);
    }
  }

  lemma ProcessPlain(rail: Rail, b: W.WebhookBody, pick: string, now: Time)
    ensures forall a <- W.Process(rail, b, pick, now) :: !a.Append? && !a.Emit? && !a.Deliver?
  {
    hide W.ParseStage;
  }

  /** What an action does to a stored intent. */
  lemma ExecIntent(w: W.World, a: W.Act, id: string)
    requires id in w.intents
    ensures id in W.Exec(w, a).world.intents
    ensures W.Exec(w, a).world.intents[id]
         == if a.Update? && a.id == id then Apply(w.intents[id], a.op, a.now).intent else w.intents[id]
  {
    hide Create, Apply;
    if !a.Post? && !a.Update? {
      ExecOther(w, a);
    }
  }

  /** The last decision of a run, and the run before it. */
  lemma RunSnoc(s: W.System, ms: seq<W.Move>, m: W.Move)
    ensures W.Run(s, ms + [m]) == W.Step(W.Run(s, ms), m)
  {
    assert (ms + [m])[..|ms|] == ms;
  }

  lemma {:induction false} RunKeyed(s: W.System, ms: seq<W.Move>)
    requires Keyed(s.world)
    ensures Keyed(W.Run(s, ms).world)
    decreases |ms|
  {
    if ms != [] {
      var before := W.Run(s, ms[..|ms| - 1]);
      RunKeyed(s, ms[..|ms| - 1]);
      var m := ms[|ms| - 1];
      if m.Advance? && m.task < |before.tasks| && before.tasks[m.task] != [] {
        ExecKeyed(before.world, before.tasks[m.task][0]);
      }
    }
  }

  // --- the ledger in every safe run ------------------------------------------

  ghost predicate Sound(w: W.World) {
    forall id <- w.intents :: LedgerOk(w.intents[id])
  }

  ghost predicate SoundFor(w: W.World, id: string) {
    id in w.intents ==> LedgerOk(w.intents[id])
  }

  lemma SoundForAll(w: W.World)
    ensures Sound(w) <==> forall id :: SoundFor(w, id)
  {
    if forall id :: SoundFor(w, id) {
      forall id | id in w.intents ensures LedgerOk(w.intents[id]) {
        assert SoundFor(w, id);
      }
    }
  }

  /** The amount that the rail reports for a new intent is in range, and an update overflows no counter. */
  predicate Safe(w: W.World, a: W.Act) {
    match a
    case Post(req, id, env, _) => ValidCreate(req) && id !in w.intents ==> SubmitInRange(req, env)
    case Update(id, op, _) => id in w.intents ==> !Wraps(w.intents[id], op)
    case _ => true
  }

  /** The same, asked only of the actions on the given intent. */
  predicate SafeFor(w: W.World, a: W.Act, id: string) {
    (a.Post? || a.Update?) && a.id == id ==> Safe(w, a)
  }

  predicate SafeMove(s: W.System, m: W.Move) {
    m.Advance? && m.task < |s.tasks| && s.tasks[m.task] != [] ==> Safe(s.world, s.tasks[m.task][0])
  }

  predicate SafeMoveFor(s: W.System, m: W.Move, id: string) {
    m.Advance? && m.task < |s.tasks| && s.tasks[m.task] != [] ==> SafeFor(s.world, s.tasks[m.task][0], id)
  }

  predicate SafeRun(s: W.System, ms: seq<W.Move>) {
    ms == [] || (SafeRun(s, ms[..|ms| - 1]) && SafeMove(W.Run(s, ms[..|ms| - 1]), ms[|ms| - 1]))
  }

  predicate SafeRunFor(s: W.System, ms: seq<W.Move>, id: string) {
    || ms == []
    || (SafeRunFor(s, ms[..|ms| - 1], id) && SafeMoveFor(W.Run(s, ms[..|ms| - 1]), ms[|ms| - 1], id))
  }

  /** A run that is safe is safe for each intent. */
  lemma {:induction false} SafeForEach(s: W.System, ms: seq<W.Move>, id: string)
    requires SafeRun(s, ms)
    ensures SafeRunFor(s, ms, id)
    decreases |ms|
  {
    if ms != [] {
      hide Safe;
      SafeForEach(s, ms[..|ms| - 1], id);
    }
  }

  /** A run that is not is unsafe for one of them. */
  lemma {:induction false} UnsafeForOne(s: W.System, ms: seq<W.Move>) returns (id: string)
    requires !SafeRun(s, ms)
    ensures !SafeRunFor(s, ms, id)
    decreases |ms|
  {
    var init, m := ms[..|ms| - 1], ms[|ms| - 1];
    if SafeRun(s, init) {
      id := W.Run(s, init).tasks[m.task][0].id;
    } else {
      id := UnsafeForOne(s, init);
    }
  }

  /** An action keeps the ledger of an intent sound exactly when it is safe for that intent. */
  lemma ExecSoundFor(w: W.World, a: W.Act, id: string)
    requires SoundFor(w, id)
    ensures SoundFor(W.Exec(w, a).world, id) <==> SafeFor(w, a, id)
  {
    hide Create, Apply, LedgerOk, Wraps, SubmitInRange;
    match a
    case Post(req, pid, env, now) =>
      if ValidCreate(req) {
        CreateKeepsLedger(req, pid, env, now);
      }
    case Update(pid, op, now) =>
      if pid == id && id in w.intents {
        ApplyKeepsLedger(w.intents[id], op, now);
      }
    case _ => ExecOther(w, a);
  }

  /** An action keeps every ledger sound exactly when it is safe. */
  lemma ExecSound(w: W.World, a: W.Act)
    requires Sound(w)
    ensures Sound(W.Exec(w, a).world) <==> Safe(w, a)
  {
    hide W.Exec, Sound, SoundFor, Wraps, SubmitInRange;
    var v := W.Exec(w, a).world;
    SoundForAll(w);
    SoundForAll(v);
    forall id ensures SoundFor(v, id) <==> SafeFor(w, a, id) {
      ExecSoundFor(w, a, id);
    }
    if a.Post? || a.Update? {
      assert SafeFor(w, a, a.id) <==> Safe(w, a);
    }
  }

  /** The status-indexed ledger invariant holds for an intent at every point of every interleaving
      exactly as long as every action on it is safe, whatever happens to other intents. */
  lemma {:induction false} RunSoundFor(s: W.System, ms: seq<W.Move>, id: string)
    requires SoundFor(s.world, id)
    ensures SafeRunFor(s, ms, id) ==> SoundFor(W.Run(s, ms).world, id)
    ensures SafeRunFor(s, ms, id) <==> forall n :: 0 <= n <= |ms| ==> SoundFor(W.Run(s, ms[..n]).world, id)
    decreases |ms|
  {
    assert ms[..|ms|] == ms;
    if ms != [] {
      hide W.Exec, SafeFor, SoundFor;
      var init, m := ms[..|ms| - 1], ms[|ms| - 1];
      RunSoundFor(s, init, id);
      assert forall n :: 0 <= n < |ms| ==> init[..n] == ms[..n];
      var before := W.Run(s, init);
      if SafeRunFor(s, init, id) {
        if m.Advance? && m.task < |before.tasks| && before.tasks[m.task] != [] {
          ExecSoundFor(before.world, before.tasks[m.task][0], id);
        }
        assert SafeRunFor(s, ms, id) <==> SoundFor(W.Run(s, ms[..|ms|]).world, id);
      } else {
        var n :| 0 <= n <= |init| && !SoundFor(W.Run(s, init[..n]).world, id);
        assert init[..n] == ms[..n];
      }
    } else {
      assert forall n :: 0 <= n <= |ms| ==> ms[..n] == ms;
    }
  }

  /** The invariant holds for all intents at every point of every interleaving exactly as long as every
      action is safe. */
  lemma RunSound(s: W.System, ms: seq<W.Move>)
    requires Sound(s.world)
    ensures SafeRun(s, ms) ==> Sound(W.Run(s, ms).world)
    ensures SafeRun(s, ms) <==> forall n :: 0 <= n <= |ms| ==> Sound(W.Run(s, ms[..n]).world)
  {
    hide Sound, SoundFor, SafeRun, SafeRunFor, W.Exec;
    SoundForAll(s.world);
    assert ms[..|ms|] == ms;
    if SafeRun(s, ms) {
      forall n | 0 <= n <= |ms| ensures Sound(W.Run(s, ms[..n]).world) {
        forall id ensures SoundFor(W.Run(s, ms[..n]).world, id) {
          SafeForEach(s, ms, id);
          RunSoundFor(s, ms, id);
        }
        SoundForAll(W.Run(s, ms[..n]).world);
      }
    } else {
      var id := UnsafeForOne(s, ms);
      RunSoundFor(s, ms, id);
      var n :| 0 <= n <= |ms| && !SoundFor(W.Run(s, ms[..n]).world, id);
      SoundForAll(W.Run(s, ms[..n]).world);
    }
  }
}
