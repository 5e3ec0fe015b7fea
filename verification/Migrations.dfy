/** The schema migration runner (internal/store/migrations/migrations.go): Up applies what is missing,
    Down takes back what was applied, and any statement or query may fail. */
module Migrations {
  import opened Domain

  /** A description of the whole database schema. */
  type Schema = string

  datatype Migration = Migration(version: string, up: string, down: string)

  /** The database around the runner: what a script does to a schema, which calls fail (counting from
      the first), and whether the runner was given a query. A failing call changes nothing. */
  datatype Env = Env(effect: (string, Schema) -> Schema, fails: nat -> bool, hasQuery: bool)

  /** `ran` logs the scripts that were executed. */
  datatype Db = Db(schema: Schema, recorded: set<string>, calls: nat, ran: seq<string>)

  datatype Failure = AtCreate | AtQuery | AtScript | AtRecord

  datatype Finish = Finish(db: Db, err: Option<Failure>)

  function Called(db: Db): Db {
    db.(calls := db.calls + 1)
  }

  function Scripted(env: Env, db: Db, script: string): Db {
    db.(schema := env.effect(script, db.schema), ran := db.ran + [script])
  }

  // --- specification ---------------------------------------------------------

  function RunUp(env: Env, db: Db, migs: seq<Migration>): Finish {
    if env.fails(db.calls) then Finish(Called(db), Some(AtCreate)) else UpFrom(env, Called(db), migs, 0)
  }

  /** Up from the k-th migration on. */
  function UpFrom(env: Env, db: Db, migs: seq<Migration>, k: nat): Finish
    requires k <= |migs|
    decreases |migs| - k
  {
    if k == |migs| then Finish(db, None)
    else if !env.hasQuery then UpOne(env, db, migs, k)
    else if env.fails(db.calls) then Finish(Called(db), Some(AtQuery))
    else if migs[k].version in db.recorded then UpFrom(env, Called(db), migs, k + 1)
    else UpOne(env, Called(db), migs, k)
  }

  function UpOne(env: Env, db: Db, migs: seq<Migration>, k: nat): Finish
    requires k < |migs|
    decreases |migs| - k, 0
  {
    if env.fails(db.calls) then Finish(Called(db), Some(AtScript))
    else
      var d := Scripted(env, Called(db), migs[k].up);
      if env.fails(d.calls) then Finish(Called(d), Some(AtRecord))
      else UpFrom(env, Called(d.(recorded := d.recorded + {migs[k].version})), migs, k + 1)
  }

  function RunDown(env: Env, db: Db, migs: seq<Migration>): Finish {
    DownFrom(env, db, migs, |migs|)
  }

  /** Down over the first k migrations, last one first. */
  function DownFrom(env: Env, db: Db, migs: seq<Migration>, k: nat): Finish
    requires k <= |migs|
    decreases k
  {
    if k == 0 then Finish(db, None)
    else if !env.hasQuery then DownOne(env, db, migs, k)
    else if env.fails(db.calls) then Finish(Called(db), Some(AtQuery))
    else if migs[k - 1].version !in db.recorded then DownFrom(env, Called(db), migs, k - 1)
    else DownOne(env, Called(db), migs, k)
  }

  function DownOne(env: Env, db: Db, migs: seq<Migration>, k: nat): Finish
    requires 0 < k <= |migs|
    decreases k, 0
  {
    if env.fails(db.calls) then Finish(Called(db), Some(AtScript))
    else
      var d := Scripted(env, Called(db), migs[k - 1].down);
      if env.fails(d.calls) then Finish(Called(d), Some(AtRecord))
      else DownFrom(env, Called(d.(recorded := d.recorded - {migs[k - 1].version})), migs, k - 1)
  }

  // --- the runner ------------------------------------------------------------

  class Runner {
    const env: Env
    var schema: Schema
    var recorded: set<string>
    var calls: nat
    var ran: seq<string>

    constructor (env: Env, schema: Schema)
      ensures this.env == env && State() == Db(schema, {}, 0, [])
    {
      this.env := env;
      this.schema, recorded, calls, ran := schema, {}, 0, [];
    }

    function State(): Db
      reads this
    {
      Db(schema, recorded, calls, ran)
    }

    /** Counts a call, and tells whether it goes through. */
    method Call() returns (ok: bool)
      modifies this`calls
      ensures ok == !env.fails(old(calls)) && State() == Called(old(State()))
    {
      ok := !env.fails(calls);
      calls := calls + 1;
    }

    method ExecScript(script: string) returns (ok: bool)
      modifies this
      ensures recorded == old(recorded) && ok == !env.fails(old(calls))
      ensures State() == if ok then Scripted(env, Called(old(State())), script) else Called(old(State()))
    {
      ok := Call();
      if ok {
        schema, ran := env.effect(script, schema), ran + [script];
      }
    }

    method Up(migs: seq<Migration>) returns (err: Option<Failure>)
      modifies this
      ensures Finish(State(), err) == RunUp(env, old(State()), migs)
    {
      var ok := Call();
      if !ok {
        return Some(AtCreate);
      }
      ghost var start := State();
      for k := 0 to |migs|
        invariant UpFrom(env, State(), migs, k) == UpFrom(env, start, migs, 0)
      {
        var applied := false;
        if env.hasQuery {
          ok := Call();
          if !ok {
            return Some(AtQuery);
          }
          applied := migs[k].version in recorded;
        }
        if !applied {
          ok := ExecScript(migs[k].up);
          if !ok {
            return Some(AtScript);
          }
          ok := Call();
          if !ok {
            return Some(AtRecord);
          }
          recorded := recorded + {migs[k].version};
        }
      }
      return None;
    }

    method Down(migs: seq<Migration>) returns (err: Option<Failure>)
      modifies this
      ensures Finish(State(), err) == RunDown(env, old(State()), migs)
    {
      ghost var start := State();
      for k := |migs| downto 0
        invariant DownFrom(env, State(), migs, k) == DownFrom(env, start, migs, |migs|)
      {
        var ok: bool;
        var applied := true;
        if env.hasQuery {
          ok := Call();
          if !ok {
            return Some(AtQuery);
          }
          applied := migs[k].version in recorded;
        }
        if applied {
          ok := ExecScript(migs[k].down);
          if !ok {
            return Some(AtScript);
          }
          ok := Call();
          if !ok {
            return Some(AtRecord);
          }
          recorded := recorded - {migs[k].version};
        }
      }
      return None;
    }
  }

  // --- what Up runs ----------------------------------------------------------

  predicate Distinct(migs: seq<Migration>) {
    forall i, j :: 0 <= i < j < |migs| ==> migs[i].version != migs[j].version
  }

  function Versions(migs: seq<Migration>): set<string> {
    set m <- migs :: m.version
  }

  /** The up scripts, in order, from the k-th migration on, of the versions not recorded. */
  function Missing(migs: seq<Migration>, recorded: set<string>, k: nat): seq<string>
    requires k <= |migs|
    decreases |migs| - k
  {
    if k == |migs| then []
    else if migs[k].version in recorded then Missing(migs, recorded, k + 1)
    else [migs[k].up] + Missing(migs, recorded, k + 1)
  }

  lemma {:induction false} MissingIgnores(migs: seq<Migration>, recorded: set<string>, v: string, k: nat)
    requires k <= |migs| && forall i :: k <= i < |migs| ==> migs[i].version != v
    ensures Missing(migs, recorded + {v}, k) == Missing(migs, recorded, k)
    decreases |migs| - k
  {
    if k < |migs| {
      MissingIgnores(migs, recorded, v, k + 1);
    }
  }

  function Scripts(env: Env, s: Schema, scripts: seq<string>): Schema
    decreases |scripts|
  {
    if scripts == [] then s else Scripts(env, env.effect(scripts[0], s), scripts[1..])
  }

  /** The first n missing scripts were executed, in order and nothing else: all of them on success. */
  predicate RanMissing(env: Env, o: Finish, db: Db, migs: seq<Migration>, k: nat, n: nat)
    requires k <= |migs|
  {
    var all := Missing(migs, db.recorded, k);
    && n <= |all| && o.db.ran == db.ran + all[..n] && o.db.schema == Scripts(env, db.schema, all[..n])
    && (o.err.None? ==> n == |all| && o.db.recorded == db.recorded + Versions(migs[k..]))
    && (o.err.Some? && n == |all| ==> o.err != Some(AtScript))
  }

  /** Up executes the up scripts of the missing versions in order: all of them when it succeeds, the
      first few when it fails, and nothing else. */
  lemma {:induction false} UpRunsMissing(env: Env, db: Db, migs: seq<Migration>, k: nat) returns (n: nat)
    requires k <= |migs| && env.hasQuery && Distinct(migs)
    ensures RanMissing(env, UpFrom(env, db, migs, k), db, migs, k, n)
    decreases |migs| - k
  {
    var all := Missing(migs, db.recorded, k);
    n := 0;
    if k == |migs| || env.fails(db.calls) {
      assert db.ran + all[..0] == db.ran;
    } else if migs[k].version in db.recorded {
      assert migs[k..] == [migs[k]] + migs[k + 1..];
      n := UpRunsMissing(env, Called(db), migs, k + 1);
    } else {
      assert migs[k..] == [migs[k]] + migs[k + 1..];
      var c := Called(db);
      if env.fails(c.calls) {
        assert db.ran + all[..0] == db.ran;
      } else {
        var d := Scripted(env, Called(c), migs[k].up);
        MissingIgnores(migs, db.recorded, migs[k].version, k + 1);
        if env.fails(d.calls) {
          n := 1;
          assert all[..1] == [migs[k].up];
          assert all[..1][1..] == [];
        } else {
          var e := Called(d.(recorded := d.recorded + {migs[k].version}));
          var r := UpRunsMissing(env, e, migs, k + 1);
          n := r + 1;
          var rest := Missing(migs, db.recorded, k + 1);
          assert all[..n] == [migs[k].up] + rest[..r];
          assert all[..n][1..] == rest[..r];
          assert db.ran + all[..n] == (db.ran + [migs[k].up]) + rest[..r];
        }
      }
    }
  }

  /** A second Up, after one that succeeded, executes no script, whichever calls fail. */
  lemma UpTwice(env: Env, db: Db, migs: seq<Migration>)
    requires env.hasQuery && Distinct(migs)
    requires RunUp(env, db, migs).err.None?
    ensures var first := RunUp(env, db, migs).db; var again := RunUp(env, first, migs).db;
      again.ran == first.ran && again.schema == first.schema && again.recorded == first.recorded
  {
    var n := UpRunsMissing(env, Called(db), migs, 0);
    assert migs[0..] == migs;
    var first := RunUp(env, db, migs).db;
    if !env.fails(first.calls) {
      NothingMissing(env, Called(first), migs, 0);
    }
  }

  lemma {:induction false} NothingMissing(env: Env, db: Db, migs: seq<Migration>, k: nat)
    requires k <= |migs| && env.hasQuery && Versions(migs) <= db.recorded
    ensures var o := UpFrom(env, db, migs, k).db;
      o.ran == db.ran && o.schema == db.schema && o.recorded == db.recorded
    decreases |migs| - k
  {
    if k < |migs| && !env.fails(db.calls) {
      assert migs[k].version in Versions(migs);
      NothingMissing(env, Called(db), migs, k + 1);
    }
  }

  // --- the recorded versions stay a prefix -----------------------------------

  /** The first n versions, and no others, are recorded. */
  predicate Recorded(db: Db, migs: seq<Migration>, n: nat) {
    n <= |migs| && db.recorded == Versions(migs[..n])
  }

  lemma VersionRecorded(migs: seq<Migration>, n: nat, k: nat)
    requires Distinct(migs) && n <= |migs| && k < |migs|
    ensures migs[k].version in Versions(migs[..n]) <==> k < n
  {
    if k < n {
      assert migs[k] in migs[..n];
    }
  }

  lemma VersionsSnoc(migs: seq<Migration>, n: nat)
    requires Distinct(migs) && n < |migs|
    ensures Versions(migs[..n + 1]) == Versions(migs[..n]) + {migs[n].version}
    ensures Versions(migs[..n]) == Versions(migs[..n + 1]) - {migs[n].version}
  {
    assert migs[..n + 1] == migs[..n] + [migs[n]];
    VersionRecorded(migs, n, n);
  }

  /** The up scripts of the migrations from lo to hi, in order. */
  function Raise(env: Env, s: Schema, migs: seq<Migration>, lo: nat, hi: nat): Schema
    requires lo <= hi <= |migs|
    decreases hi - lo
  {
    if lo == hi then s else Raise(env, env.effect(migs[lo].up, s), migs, lo + 1, hi)
  }

  /** The down scripts of the migrations from hi back to lo. */
  function Lower(env: Env, s: Schema, migs: seq<Migration>, hi: nat, lo: nat): Schema
    requires lo <= hi <= |migs|
    decreases hi - lo
  {
    if lo == hi then s else Lower(env, env.effect(migs[hi - 1].down, s), migs, hi - 1, lo)
  }

  /** An Up that found the first n versions recorded and the schema s has the first m recorded, all of
      them if it succeeded, and has executed the scripts in between; one more if the recording failed. */
  predicate Raised(env: Env, o: Finish, s: Schema, migs: seq<Migration>, n: nat, m: nat) {
    && n <= m && Recorded(o.db, migs, m)
    && (o.err.None? ==> m == |migs|)
    && (if o.err != Some(AtRecord) then o.db.schema == Raise(env, s, migs, n, m)
        else m < |migs| && o.db.schema == Raise(env, s, migs, n, m + 1))
  }

  /** The mirror image for Down. */
  predicate Lowered(env: Env, o: Finish, s: Schema, migs: seq<Migration>, n: nat, m: nat) {
    && m <= n <= |migs| && Recorded(o.db, migs, m)
    && (o.err.None? ==> m == 0)
    && (if o.err != Some(AtRecord) then o.db.schema == Lower(env, s, migs, n, m)
        else m > 0 && o.db.schema == Lower(env, s, migs, n, m - 1))
  }

  lemma {:induction false} UpFromThere(env: Env, db: Db, migs: seq<Migration>, n: nat) returns (m: nat)
    requires env.hasQuery && Distinct(migs) && Recorded(db, migs, n)
    ensures Raised(env, UpFrom(env, db, migs, n), db.schema, migs, n, m)
    decreases |migs| - n
  {
    hide Distinct, Versions;
    m := n;
    if n < |migs| && !env.fails(db.calls) {
      VersionRecorded(migs, n, n);
      var c := Called(db);
      if !env.fails(c.calls) {
        var d := Scripted(env, Called(c), migs[n].up);
        assert Raise(env, d.schema, migs, n + 1, n + 1) == d.schema;
        if !env.fails(d.calls) {
          VersionsSnoc(migs, n);
          m := UpFromThere(env, Called(d.(recorded := d.recorded + {migs[n].version})), migs, n + 1);
        }
      }
    }
  }

  lemma {:induction false} UpFromEarlier(env: Env, db: Db, migs: seq<Migration>, n: nat, k: nat) returns (m: nat)
    requires env.hasQuery && Distinct(migs) && k <= n && Recorded(db, migs, n)
    ensures Raised(env, UpFrom(env, db, migs, k), db.schema, migs, n, m)
    decreases |migs| - k
  {
    hide Distinct, Versions;
    m := n;
    if k == n {
      m := UpFromThere(env, db, migs, n);
    } else if !env.fails(db.calls) {
      VersionRecorded(migs, n, k);
      m := UpFromEarlier(env, Called(db), migs, n, k + 1);
    }
  }

  /** From any recorded prefix, whatever the schema and whichever call fails, Up ends with a prefix at
      least as long, and the scripts executed are accounted for. */
  lemma UpKeepsPrefix(env: Env, db: Db, migs: seq<Migration>, n: nat) returns (m: nat)
    requires env.hasQuery && Distinct(migs) && Recorded(db, migs, n)
    ensures Raised(env, RunUp(env, db, migs), db.schema, migs, n, m)
  {
    m := n;
    if !env.fails(db.calls) {
      m := UpFromEarlier(env, Called(db), migs, n, 0);
    }
  }

  lemma {:induction false} DownFromLater(env: Env, db: Db, migs: seq<Migration>, n: nat, k: nat) returns (m: nat)
    requires env.hasQuery && Distinct(migs) && n <= k <= |migs| && Recorded(db, migs, n)
    ensures Lowered(env, DownFrom(env, db, migs, k), db.schema, migs, n, m)
    decreases k
  {
    hide Distinct, Versions;
    m := n;
    if k > 0 && !env.fails(db.calls) {
      VersionRecorded(migs, n, k - 1);
      var c := Called(db);
      if n < k {
        m := DownFromLater(env, c, migs, n, k - 1);
      } else if !env.fails(c.calls) {
        var d := Scripted(env, Called(c), migs[k - 1].down);
        assert Lower(env, d.schema, migs, n - 1, n - 1) == d.schema;
        if !env.fails(d.calls) {
          VersionsSnoc(migs, n - 1);
          m := DownFromLater(env, Called(d.(recorded := d.recorded - {migs[k - 1].version})), migs, n - 1, k - 1);
        }
      }
    }
  }

  /** Likewise Down ends with a shorter prefix, the empty one if it succeeds. */
  lemma DownKeepsPrefix(env: Env, db: Db, migs: seq<Migration>, n: nat) returns (m: nat)
    requires env.hasQuery && Distinct(migs) && Recorded(db, migs, n)
    ensures Lowered(env, RunDown(env, db, migs), db.schema, migs, n, m)
  {
    m := DownFromLater(env, db, migs, n, |migs|);
  }

  datatype Command = DoUp | DoDown

  /** The database after a sequence of Up and Down calls, each of which may fail anywhere. */
  function Commands(env: Env, db: Db, migs: seq<Migration>, cs: seq<Command>): Db {
    if cs == [] then db
    else
      var before := Commands(env, db, migs, cs[..|cs| - 1]);
      if cs[|cs| - 1].DoUp? then RunUp(env, before, migs).db else RunDown(env, before, migs).db
  }

  /** No sequence of Up and Down calls, whatever fails in them, ever leaves the prefixes. */
  lemma {:induction false} AlwaysAPrefix(env: Env, db: Db, migs: seq<Migration>, cs: seq<Command>, n: nat)
    returns (m: nat)
    requires env.hasQuery && Distinct(migs) && Recorded(db, migs, n)
    ensures Recorded(Commands(env, db, migs, cs), migs, m)
    decreases |cs|
  {
    if cs == [] {
      m := n;
    } else {
      var before := Commands(env, db, migs, cs[..|cs| - 1]);
      var k := AlwaysAPrefix(env, db, migs, cs[..|cs| - 1], n);
      if cs[|cs| - 1].DoUp? {
        m := UpKeepsPrefix(env, before, migs, k);
      } else {
        m := DownKeepsPrefix(env, before, migs, k);
      }
    }
  }

  // --- the schema follows the recorded versions ------------------------------

  lemma {:induction false} RaiseFurther(env: Env, s: Schema, migs: seq<Migration>, lo: nat, mid: nat, hi: nat)
    requires lo <= mid <= hi <= |migs|
    ensures Raise(env, Raise(env, s, migs, lo, mid), migs, mid, hi) == Raise(env, s, migs, lo, hi)
    decreases mid - lo
  {
    if lo < mid {
      RaiseFurther(env, env.effect(migs[lo].up, s), migs, lo + 1, mid, hi);
    }
  }

  lemma RaiseOne(env: Env, s: Schema, migs: seq<Migration>, lo: nat, hi: nat)
    requires lo <= hi < |migs|
    ensures Raise(env, s, migs, lo, hi + 1) == env.effect(migs[hi].up, Raise(env, s, migs, lo, hi))
  {
    RaiseFurther(env, s, migs, lo, hi, hi + 1);
  }

  ghost predicate Inverts(env: Env, m: Migration) {
    forall s :: env.effect(m.down, env.effect(m.up, s)) == s
  }

  ghost predicate AllInvert(env: Env, migs: seq<Migration>) {
    forall i :: 0 <= i < |migs| ==> Inverts(env, migs[i])
  }

  /** With down scripts that undo their up scripts, lowering takes back raising. */
  lemma {:induction false} LowerUndoes(env: Env, base: Schema, migs: seq<Migration>, n: nat, m: nat)
    requires AllInvert(env, migs) && m <= n <= |migs|
    ensures Lower(env, Raise(env, base, migs, 0, n), migs, n, m) == Raise(env, base, migs, 0, m)
    decreases n - m
  {
    if m < n {
      RaiseOne(env, base, migs, 0, n - 1);
      assert Inverts(env, migs[n - 1]);
      LowerUndoes(env, base, migs, n - 1, m);
    }
  }

  /** The first n versions are recorded and their up scripts make up the schema. */
  predicate At(env: Env, db: Db, base: Schema, migs: seq<Migration>, n: nat) {
    Recorded(db, migs, n) && db.schema == Raise(env, base, migs, 0, n)
  }

  /** From there Up keeps schema and record together, unless it was the recording that failed: then the
      schema is exactly one migration ahead. */
  lemma UpKeepsSchema(env: Env, db: Db, base: Schema, migs: seq<Migration>, n: nat) returns (m: nat)
    requires env.hasQuery && Distinct(migs) && At(env, db, base, migs, n)
    ensures Raised(env, RunUp(env, db, migs), base, migs, 0, m) && n <= m
  {
    m := UpKeepsPrefix(env, db, migs, n);
    RaiseFurther(env, base, migs, 0, n, m);
    if m < |migs| {
      RaiseFurther(env, base, migs, 0, n, m + 1);
    }
  }

  /** With inverse scripts Down does too, unless deleting a record failed: then the schema is exactly one
      migration behind. */
  lemma DownKeepsSchema(env: Env, db: Db, base: Schema, migs: seq<Migration>, n: nat) returns (m: nat)
    requires env.hasQuery && Distinct(migs) && AllInvert(env, migs) && At(env, db, base, migs, n)
    ensures m <= n && Recorded(RunDown(env, db, migs).db, migs, m)
    ensures var o := RunDown(env, db, migs);
      && (o.err.None? ==> m == 0)
      && (if o.err != Some(AtRecord) then o.db.schema == Raise(env, base, migs, 0, m)
          else m > 0 && o.db.schema == Raise(env, base, migs, 0, m - 1))
  {
    m := DownKeepsPrefix(env, db, migs, n);
    LowerUndoes(env, base, migs, n, m);
    if m > 0 {
      LowerUndoes(env, base, migs, n, m - 1);
    }
  }

  /** Whatever prefix is applied, a successful Up followed by a successful Down leaves nothing recorded
      and the base schema. */
  lemma UpThenDown(env: Env, db: Db, base: Schema, migs: seq<Migration>, n: nat)
    requires env.hasQuery && Distinct(migs) && At(env, db, base, migs, n)
    requires AllInvert(env, migs)
    requires RunUp(env, db, migs).err.None? && RunDown(env, RunUp(env, db, migs).db, migs).err.None?
    ensures var o := RunDown(env, RunUp(env, db, migs).db, migs).db;
      o.schema == base && o.recorded == {}
  {
    var m := UpKeepsSchema(env, db, base, migs, n);
    var z := DownKeepsSchema(env, RunUp(env, db, migs).db, base, migs, |migs|);
    assert migs[..0] == [];
  }

  // --- retrying after a failure ----------------------------------------------

  /** An Up after another, whether or not either succeeds: the second goes on where the first stopped
      recording. If it was the recording that failed, the script left unrecorded is the first that the
      second executes, on top of itself. */
  lemma RetryUp(env: Env, db: Db, migs: seq<Migration>, n: nat) returns (m: nat, r: nat)
    requires env.hasQuery && Distinct(migs) && Recorded(db, migs, n)
    ensures var first := RunUp(env, db, migs);
      && Raised(env, first, db.schema, migs, n, m)
      && Raised(env, RunUp(env, first.db, migs), first.db.schema, migs, m, r)
  {
    m := UpKeepsPrefix(env, db, migs, n);
    r := UpKeepsPrefix(env, RunUp(env, db, migs).db, migs, m);
  }

  /** A successful retry reaches the full schema, unless it was the recording that failed. Then it does if
      and only if the scripts from the unrecorded one on, executed on the schema that has it already, lead
      there; in particular if executing it again changes nothing. */
  lemma RetryCompletes(env: Env, db: Db, base: Schema, migs: seq<Migration>, n: nat) returns (m: nat)
    requires env.hasQuery && Distinct(migs) && At(env, db, base, migs, n)
    requires RunUp(env, RunUp(env, db, migs).db, migs).err.None?
    ensures var first := RunUp(env, db, migs); var o := RunUp(env, first.db, migs).db;
      && Recorded(first.db, migs, m)
      && (first.err != Some(AtRecord) ==> o.schema == Raise(env, base, migs, 0, |migs|))
      && (first.err == Some(AtRecord) ==>
            && m < |migs|
            && (o.schema == Raise(env, base, migs, 0, |migs|)
                <==> Raise(env, Raise(env, base, migs, 0, m + 1), migs, m, |migs|)
                     == Raise(env, base, migs, 0, |migs|)))
      && (first.err == Some(AtRecord) && env.effect(migs[m].up, first.db.schema) == first.db.schema
          ==> o.schema == Raise(env, base, migs, 0, |migs|))
  {
    var first := RunUp(env, db, migs);
    m := UpKeepsSchema(env, db, base, migs, n);
    var r := UpKeepsPrefix(env, first.db, migs, m);
    if first.err != Some(AtRecord) {
      RaiseFurther(env, base, migs, 0, m, |migs|);
    } else {
      RaiseFurther(env, base, migs, 0, m + 1, |migs|);
    }
  }

  // --- without a query -------------------------------------------------------

  /** A runner without a query cannot tell what is applied: every successful Up executes every up
      script, and every successful Down every down script in the opposite order. */
  lemma WithoutQueryAllRun(env: Env, db: Db, migs: seq<Migration>, k: nat)
    requires !env.hasQuery && k <= |migs|
    ensures var o := UpFrom(env, db, migs, k);
      o.err.None? ==> o.db.ran == db.ran + Missing(migs, {}, k)
    ensures var o := DownFrom(env, db, migs, k);
      o.err.None? ==> o.db.ran == db.ran + Downs(migs[..k])
  {
    WithoutQueryUp(env, db, migs, k);
    WithoutQueryDown(env, db, migs, k);
  }

  function Downs(migs: seq<Migration>): seq<string> {
    if migs == [] then [] else [migs[|migs| - 1].down] + Downs(migs[..|migs| - 1])
  }

  lemma {:induction false} WithoutQueryUp(env: Env, db: Db, migs: seq<Migration>, k: nat)
    requires !env.hasQuery && k <= |migs|
    ensures var o := UpFrom(env, db, migs, k);
      o.err.None? ==> o.db.ran == db.ran + Missing(migs, {}, k)
    decreases |migs| - k
  {
    if k < |migs| {
      var d := Scripted(env, Called(db), migs[k].up);
      WithoutQueryUp(env, Called(d.(recorded := d.recorded + {migs[k].version})), migs, k + 1);
    }
  }

  lemma {:induction false} WithoutQueryDown(env: Env, db: Db, migs: seq<Migration>, k: nat)
    requires !env.hasQuery && k <= |migs|
    ensures var o := DownFrom(env, db, migs, k);
      o.err.None? ==> o.db.ran == db.ran + Downs(migs[..k])
    decreases k
  {
    if k > 0 {
      var d := Scripted(env, Called(db), migs[k - 1].down);
      assert migs[..k][..k - 1] == migs[..k - 1];
      WithoutQueryDown(env, Called(d.(recorded := d.recorded - {migs[k - 1].version})), migs, k - 1);
    }
  }

  // --- where a run stops -----------------------------------------------------

  /** No call before the last one failed, and the last one did if and only if there is an error. */
  predicate StopsAtFirstFailure(env: Env, db: Db, o: Finish) {
    && db.calls <= o.db.calls
    && (forall c :: db.calls <= c < o.db.calls - 1 ==> !env.fails(c))
    && (o.err.Some? ==> db.calls < o.db.calls && env.fails(o.db.calls - 1))
    && (o.err.None? && db.calls < o.db.calls ==> !env.fails(o.db.calls - 1))
  }

  /** How many calls passing the migrations k to m takes: a query each, and for a missing one its script and
      its record. */
  function CallsUp(migs: seq<Migration>, recorded: set<string>, k: nat, m: nat): nat
    requires k <= m <= |migs|
    decreases m - k
  {
    if k == m then 0
    else (if migs[k].version in recorded then 1 else 3) + CallsUp(migs, recorded, k + 1, m)
  }

  lemma {:induction false} CallsUpIgnore(migs: seq<Migration>, recorded: set<string>, v: string, k: nat, m: nat)
    requires k <= m <= |migs| && forall i :: k <= i < |migs| ==> migs[i].version != v
    ensures CallsUp(migs, recorded + {v}, k, m) == CallsUp(migs, recorded, k, m)
    decreases m - k
  {
    if k < m {
      CallsUpIgnore(migs, recorded, v, k + 1, m);
    }
  }

  /** The error names the call that failed, at migration m: its query, its script, or its record. */
  predicate ErrorNames(o: Finish, calls: int, last: bool, done: bool) {
    match o.err
    case None => last && o.db.calls == calls
    case Some(AtQuery) => !last && o.db.calls == calls + 1
    case Some(AtScript) => !last && !done && o.db.calls == calls + 2
    case Some(AtRecord) => !last && !done && o.db.calls == calls + 3
    case Some(AtCreate) => false
  }

  /** Up stops at the first call that fails, and its error says which kind of call that was. */
  lemma {:induction false} UpStops(env: Env, db: Db, migs: seq<Migration>, k: nat) returns (m: nat)
    requires k <= |migs| && env.hasQuery && Distinct(migs)
    ensures StopsAtFirstFailure(env, db, UpFrom(env, db, migs, k))
    ensures k <= m <= |migs|
    ensures ErrorNames(UpFrom(env, db, migs, k), db.calls + CallsUp(migs, db.recorded, k, m),
                       m == |migs|, m < |migs| && migs[m].version in db.recorded)
    decreases |migs| - k
  {
    m := k;
    if k < |migs| && !env.fails(db.calls) {
      var c := Called(db);
      if migs[k].version in db.recorded {
        m := UpStops(env, c, migs, k + 1);
      } else if !env.fails(c.calls) && !env.fails(c.calls + 1) {
        var d := Scripted(env, Called(c), migs[k].up);
        var e := Called(d.(recorded := d.recorded + {migs[k].version}));
        m := UpStops(env, e, migs, k + 1);
        CallsUpIgnore(migs, db.recorded, migs[k].version, k + 1, m);
      }
    }
  }

  /** The first call creates the table of records; if it fails, that is the error. */
  lemma UpCreatesFirst(env: Env, db: Db, migs: seq<Migration>) returns (m: nat)
    requires env.hasQuery && Distinct(migs)
    ensures var o := RunUp(env, db, migs);
      && StopsAtFirstFailure(env, db, o)
      && (o.err == Some(AtCreate) <==> env.fails(db.calls))
      && m <= |migs|
      && (!env.fails(db.calls) ==> ErrorNames(o, db.calls + 1 + CallsUp(migs, db.recorded, 0, m),
                                              m == |migs|, m < |migs| && migs[m].version in db.recorded))
  {
    m := 0;
    if !env.fails(db.calls) {
      m := UpStops(env, Called(db), migs, 0);
    }
  }

  /** How many calls taking back the migrations below k and from m on takes. */
  function CallsDown(migs: seq<Migration>, recorded: set<string>, k: nat, m: nat): nat
    requires m <= k <= |migs|
    decreases k - m
  {
    if k == m then 0
    else (if migs[k - 1].version in recorded then 3 else 1) + CallsDown(migs, recorded, k - 1, m)
  }

  lemma {:induction false} CallsDownIgnore(migs: seq<Migration>, recorded: set<string>, v: string, k: nat, m: nat)
    requires m <= k <= |migs| && forall i :: 0 <= i < k ==> migs[i].version != v
    ensures CallsDown(migs, recorded - {v}, k, m) == CallsDown(migs, recorded, k, m)
    decreases k - m
  {
    if m < k {
      CallsDownIgnore(migs, recorded, v, k - 1, m);
    }
  }

  /** Down does so as well, with migrations 1 to m still to be taken back. */
  lemma {:induction false} DownStops(env: Env, db: Db, migs: seq<Migration>, k: nat) returns (m: nat)
    requires k <= |migs| && env.hasQuery && Distinct(migs)
    ensures StopsAtFirstFailure(env, db, DownFrom(env, db, migs, k))
    ensures m <= k
    ensures ErrorNames(DownFrom(env, db, migs, k), db.calls + CallsDown(migs, db.recorded, k, m),
                       m == 0, m > 0 && migs[m - 1].version !in db.recorded)
    decreases k
  {
    m := k;
    if k > 0 && !env.fails(db.calls) {
      var c := Called(db);
      if migs[k - 1].version !in db.recorded {
        m := DownStops(env, c, migs, k - 1);
      } else if !env.fails(c.calls) && !env.fails(c.calls + 1) {
        var d := Scripted(env, Called(c), migs[k - 1].down);
        var e := Called(d.(recorded := d.recorded - {migs[k - 1].version}));
        m := DownStops(env, e, migs, k - 1);
        CallsDownIgnore(migs, db.recorded, migs[k - 1].version, k - 1, m);
      }
    }
  }
}
