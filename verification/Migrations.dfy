/** Schema migration as a restartable loop of transactions (internal/conversation/migrate.go:97-183).
    A run may be cut between any two transactions; a transaction is one atomic step.  `S` is whatever the
    SQL of a migration changes. */
module Migrations {
  import opened Api

  const EXPECTED_SCHEMA_VERSION := 3

  /** `sql` gives the new contents, or None when a statement fails. */
  datatype Migration<!S> = Migration(version: int, sql: S -> Option<S>)

  /** The contents, and the rows of `schema_migrations`, whose version is the primary key. */
  datatype Db<S> = Db(schema: S, versions: seq<int>)

  datatype Outcome = Completed(version: int) | Failed(version: int) | Cut

  /** The loop from file `i` on, with the versions that were applied when the run began. */
  function Loop<S>(ms: seq<Migration<S>>, i: nat, applied: set<int>, db: Db<S>, current: int, steps: nat): (Db<S>, Outcome)
    requires i <= |ms|
    decreases |ms| - i
  {
    if i == |ms| then (db, Completed(current))
    else if steps == 0 then (db, Cut)
    else
      var m := ms[i];
      if m.version in applied then
        Loop(ms, i + 1, applied, db, if m.version > current then m.version else current, steps - 1)
      else if m.sql(db.schema).None? || m.version in db.versions then (db, Failed(current))
      else
        Loop(ms, i + 1, applied, Db(m.sql(db.schema).value, db.versions + [m.version]), m.version, steps - 1)
  }

  function Applied(versions: seq<int>): set<int> {
    set v | v in versions
  }

  /** One run, cut after `steps` files if it gets that far. */
  function Attempt<S>(ms: seq<Migration<S>>, db: Db<S>, steps: nat): (Db<S>, Outcome) {
    Loop(ms, 0, Applied(db.versions), db, 0, steps)
  }

  class Database<S> {
    var schema: S
    var versions: seq<int>

    constructor (schema: S)
      ensures Value() == Db(schema, [])
    {
      this.schema, versions := schema, [];
    }

    ghost function Value(): Db<S>
      reads this
    {
      Db(schema, versions)
    }

    /** One transaction: both the SQL and the row, or neither. */
    method Transact(m: Migration<S>) returns (ok: bool)
      modifies this
      ensures ok <==> m.sql(old(schema)).Some? && m.version !in old(versions)
      ensures Value() == if ok then Db(m.sql(old(schema)).value, old(versions) + [m.version]) else old(Value())
    {
      var result := m.sql(schema);
      ok := result.Some? && m.version !in versions;
      if ok {
        schema, versions := result.value, versions + [m.version];
      }
    }

    method Migrate(ms: seq<Migration<S>>, steps: nat) returns (outcome: Outcome)
      modifies this
      ensures (Value(), outcome) == Attempt(ms, old(Value()), steps)
    {
      var applied := Applied(versions);
      var currentVersion, i := 0, 0;
      while i < |ms|
        invariant 0 <= i <= |ms| && i <= steps
        invariant Attempt(ms, old(Value()), steps) == Loop(ms, i, applied, Value(), currentVersion, steps - i)
      {
        if i == steps {
          return Cut;
        }
        var m := ms[i];
        if m.version in applied {
          if m.version > currentVersion {
            currentVersion := m.version;
          }
        } else {
          var ok := Transact(m);
          if !ok {
            return Failed(currentVersion);
          }
          currentVersion := m.version;
        }
        i := i + 1;
      }
      return Completed(currentVersion);
    }
  }

  function Versions<S>(ms: seq<Migration<S>>): seq<int> {
    seq(|ms|, i requires 0 <= i < |ms| => ms[i].version)
  }

  /** The files whose version no earlier file has. */
  function Kept<S>(ms: seq<Migration<S>>): seq<Migration<S>> {
    if ms == [] then []
    else
      var before, m := Kept(ms[..|ms| - 1]), ms[|ms| - 1];
      if m.version in Versions(before) then before else before + [m]
  }

  function Folded<S>(initial: S, ms: seq<Migration<S>>): Option<S> {
    if ms == [] then Some(initial)
    else
      var before := Folded(initial, ms[..|ms| - 1]);
      if before.Some? then ms[|ms| - 1].sql(before.value) else None
  }

  /** The database is where the first `n` files lead, files that repeat a version passed over. */
  ghost predicate AtPrefix<S>(initial: S, ms: seq<Migration<S>>, n: nat, db: Db<S>)
    requires n <= |ms|
  {
    db.versions == Versions(Kept(ms[..n])) && Folded(initial, Kept(ms[..n])) == Some(db.schema)
  }

  lemma KeptMore<S>(ms: seq<Migration<S>>, n: nat)
    requires n < |ms|
    ensures Kept(ms[..n + 1]) == if ms[n].version in Versions(Kept(ms[..n])) then Kept(ms[..n]) else Kept(ms[..n]) + [ms[n]]
  {
    assert ms[..n + 1][..n] == ms[..n];
  }

  lemma {:induction false} KeptKeepsVersions<S>(ms: seq<Migration<S>>, n: nat, i: nat)
    requires i < n <= |ms|
    ensures ms[i].version in Versions(Kept(ms[..n]))
  {
    KeptMore(ms, n - 1);
    var before := Kept(ms[..n - 1]);
    if i < n - 1 {
      KeptKeepsVersions(ms, n - 1, i);
      assert Versions(before + [ms[n - 1]])[..|before|] == Versions(before);
    } else {
      assert Versions(before + [ms[n - 1]])[|before|] == ms[n - 1].version;
    }
  }

  lemma FoldedMore<S>(initial: S, ms: seq<Migration<S>>, m: Migration<S>)
    ensures Folded(initial, ms + [m]) == if Folded(initial, ms).Some? then m.sql(Folded(initial, ms).value) else None
    ensures Versions(ms + [m]) == Versions(ms) + [m.version]
  {
    assert (ms + [m])[..|ms|] == ms;
  }

  /** The rest of a run, from file `i`, over a database at prefix `n`. */
  lemma {:induction false} LoopKeepsPrefix<S>(initial: S, ms: seq<Migration<S>>, began: nat, n: nat, i: nat, db: Db<S>,
                                              current: int, steps: nat) returns (k: nat)
    requires began <= n <= |ms| && i <= |ms| && n == (if i > began then i else began)
    requires AtPrefix(initial, ms, n, db)
    ensures var (after, outcome) := Loop(ms, i, Applied(Versions(Kept(ms[..began]))), db, current, steps);
            && k <= |ms| && AtPrefix(initial, ms, k, after)
            && (outcome.Completed? ==> AtPrefix(initial, ms, |ms|, after))
    decreases |ms| - i
  {
    hide AtPrefix, Folded, Kept, Versions;
    k := n;
    if i < |ms| && steps > 0 {
      var m, applied := ms[i], Applied(Versions(Kept(ms[..began])));
      if m.version in applied {
        if i >= began {
          RepeatIsPassedOver(initial, ms, began, i, db);
        }
        k := LoopKeepsPrefix(initial, ms, began, if i + 1 > began then i + 1 else began, i + 1, db,
                             if m.version > current then m.version else current, steps - 1);
      } else if m.sql(db.schema).Some? && m.version !in db.versions {
        if i < began {
          KeptKeepsVersions(ms, began, i);
        }
        OneMoreFile(initial, ms, i, db);
        k := LoopKeepsPrefix(initial, ms, began, i + 1, i + 1, Db(m.sql(db.schema).value, db.versions + [m.version]),
                             m.version, steps - 1);
      }
    }
  }

  lemma OneMoreFile<S>(initial: S, ms: seq<Migration<S>>, n: nat, db: Db<S>)
    requires n < |ms| && AtPrefix(initial, ms, n, db) && ms[n].version !in db.versions && ms[n].sql(db.schema).Some?
    ensures AtPrefix(initial, ms, n + 1, Db(ms[n].sql(db.schema).value, db.versions + [ms[n].version]))
  {
    KeptMore(ms, n);
    FoldedMore(initial, Kept(ms[..n]), ms[n]);
  }

  lemma RepeatIsPassedOver<S>(initial: S, ms: seq<Migration<S>>, began: nat, n: nat, db: Db<S>)
    requires began <= n < |ms| && AtPrefix(initial, ms, n, db) && ms[n].version in Versions(Kept(ms[..began]))
    ensures AtPrefix(initial, ms, n + 1, db)
  {
    KeptMore(ms, n);
    KeptGrows(ms, began, n);
  }

  lemma {:induction false} KeptGrows<S>(ms: seq<Migration<S>>, m: nat, n: nat)
    requires m <= n <= |ms|
    ensures forall v :: v in Versions(Kept(ms[..m])) ==> v in Versions(Kept(ms[..n]))
  {
    if m < n {
      KeptGrows(ms, m, n - 1);
      KeptMore(ms, n - 1);
      var before := Kept(ms[..n - 1]);
      assert Versions(before + [ms[n - 1]])[..|before|] == Versions(before);
    }
  }

  /** A database after runs that are each cut or fail anywhere. */
  function After<S>(initial: S, ms: seq<Migration<S>>, cuts: seq<nat>): Db<S> {
    if cuts == [] then Db(initial, [])
    else Attempt(ms, After(initial, ms, cuts[..|cuts| - 1]), cuts[|cuts| - 1]).0
  }

  /** Whatever runs went before, wherever each was cut: the recorded versions are those of a prefix of the
      files, the contents are the fold of that prefix, and a run that reports completion has left all of
      the files applied; in this a file that repeats an earlier version counts as nothing. */
  lemma {:induction false} RunsLeaveAPrefix<S>(initial: S, ms: seq<Migration<S>>, cuts: seq<nat>, steps: nat)
    ensures exists n :: 0 <= n <= |ms| && AtPrefix(initial, ms, n, After(initial, ms, cuts))
    ensures var (after, outcome) := Attempt(ms, After(initial, ms, cuts), steps);
            outcome.Completed? ==> AtPrefix(initial, ms, |ms|, after)
  {
    var db := After(initial, ms, cuts);
    if cuts == [] {
      assert Kept(ms[..0]) == [];
      assert AtPrefix(initial, ms, 0, db);
    } else {
      var c := |cuts| - 1;
      RunsLeaveAPrefix(initial, ms, cuts[..c], cuts[c]);
      var b :| 0 <= b <= |ms| && AtPrefix(initial, ms, b, After(initial, ms, cuts[..c]));
      var k := LoopKeepsPrefix(initial, ms, b, b, 0, After(initial, ms, cuts[..c]), 0, cuts[c]);
      assert AtPrefix(initial, ms, k, db);
    }
    var n :| 0 <= n <= |ms| && AtPrefix(initial, ms, n, db);
    var k := LoopKeepsPrefix(initial, ms, n, n, 0, db, 0, steps);
  }

  predicate Distinct<S>(ms: seq<Migration<S>>) {
    forall i, j :: 0 <= i < j < |ms| ==> ms[i].version != ms[j].version
  }

  lemma {:induction false} KeptIsShorter<S>(ms: seq<Migration<S>>)
    ensures |Kept(ms)| <= |ms|
  {
    if ms != [] {
      KeptIsShorter(ms[..|ms| - 1]);
    }
  }

  /** Every file counts exactly when no version is repeated. */
  lemma {:induction false} AllKeptWhenDistinct<S>(ms: seq<Migration<S>>)
    ensures |Kept(ms)| == |ms| <==> Distinct(ms)
    ensures Distinct(ms) ==> Kept(ms) == ms
  {
    if ms != [] {
      var n := |ms| - 1;
      AllKeptWhenDistinct(ms[..n]);
      KeptIsShorter(ms[..n]);
      if Distinct(ms[..n]) {
        assert Distinct(ms) <==> ms[n].version !in Versions(ms[..n]) by {
          assert forall i :: 0 <= i < n ==> Versions(ms[..n])[i] == ms[i].version;
        }
      } else {
        var i, j :| 0 <= i < j < n && ms[..n][i].version == ms[..n][j].version;
        assert ms[i].version == ms[j].version;
      }
      hide Versions;
    }
  }

  /** With distinct versions: after any runs, each cut anywhere, the rows are a prefix of the sorted list
      and the contents its fold; and a completed run has applied all. */
  lemma RunsAreRestartable<S>(initial: S, ms: seq<Migration<S>>, cuts: seq<nat>, steps: nat)
    requires Distinct(ms)
    ensures var db := After(initial, ms, cuts);
            exists n :: 0 <= n <= |ms| && db.versions == Versions(ms[..n]) && Folded(initial, ms[..n]) == Some(db.schema)
    ensures var (after, outcome) := Attempt(ms, After(initial, ms, cuts), steps);
            outcome.Completed? ==> after.versions == Versions(ms) && Folded(initial, ms) == Some(after.schema)
  {
    RunsLeaveAPrefix(initial, ms, cuts, steps);
    var n :| 0 <= n <= |ms| && AtPrefix(initial, ms, n, After(initial, ms, cuts));
    AllKeptWhenDistinct(ms[..n]);
    AllKeptWhenDistinct(ms);
    assert ms[..|ms|] == ms;
    hide After, Attempt, Folded, Kept, Versions;
    assert After(initial, ms, cuts).versions == Versions(ms[..n]) && Folded(initial, ms[..n]) == Some(After(initial, ms, cuts).schema);
  }

  /** A completed run has every file's version on record, in order, exactly when no version is repeated. */
  lemma CompletionRecordsAllExactlyWhen<S>(initial: S, ms: seq<Migration<S>>, cuts: seq<nat>, steps: nat)
    requires Attempt(ms, After(initial, ms, cuts), steps).1.Completed?
    ensures Attempt(ms, After(initial, ms, cuts), steps).0.versions == Versions(ms) <==> Distinct(ms)
  {
    RunsLeaveAPrefix(initial, ms, cuts, steps);
    AllKeptWhenDistinct(ms);
    assert ms[..|ms|] == ms;
    hide After, Attempt, Folded, Kept, Distinct;
    assert |Versions(Kept(ms))| == |Kept(ms)| && |Versions(ms)| == |ms|;
  }

  /** Two files with one version: the first run applies the first and fails on the second, whose row
      clashes; the next run takes both for applied and completes, and the second file's SQL never ran. */
  lemma ARepeatedVersionIsSkipped<S>(initial: S, a: Migration<S>, b: Migration<S>)
    requires a.version == b.version && a.sql(initial).Some?
    ensures var first := Attempt([a, b], Db(initial, []), 2);
            var second := Attempt([a, b], first.0, 2);
            && first.1.Failed? && second.1.Completed?
            && second.0 == Db(a.sql(initial).value, [a.version])
  {
    var ms, db := [a, b], Db(a.sql(initial).value, [a.version]);
    var none, some := Applied([]), Applied([a.version]);
    assert a.version !in none && a.version in some;
    assert [] + [a.version] == [a.version];
    assert Loop(ms, 0, none, Db(initial, []), 0, 2) == Loop(ms, 1, none, db, a.version, 1);
    assert Loop(ms, 1, none, db, a.version, 1) == (db, Failed(a.version));
    var v := if a.version > 0 then a.version else 0;
    assert Loop(ms, 0, some, db, 0, 2) == Loop(ms, 1, some, db, v, 1);
    assert Loop(ms, 1, some, db, v, 1) == Loop(ms, 2, some, db, v, 0);
  }

  function Largest(versions: seq<int>): int
    requires versions != []
  {
    var n := |versions| - 1;
    if n == 0 then versions[0]
    else
      var before := Largest(versions[..n]);
      if versions[n] > before then versions[n] else before
  }

  /** The start-up check: the largest recorded version, 0 for none, is the expected one. */
  function CheckSchemaVersion<S>(db: Db<S>): bool {
    (if db.versions == [] then 0 else Largest(db.versions)) == EXPECTED_SCHEMA_VERSION
  }

  lemma {:induction false} LargestOfAscending(versions: seq<int>)
    requires versions != [] && forall i, j :: 0 <= i < j < |versions| ==> versions[i] < versions[j]
    ensures Largest(versions) == versions[|versions| - 1]
  {
    if |versions| > 1 {
      LargestOfAscending(versions[..|versions| - 1]);
    }
  }

  lemma PrefixPassesOnlyWhenWhole<S>(ms: seq<Migration<S>>, n: nat, db: Db<S>)
    requires n <= |ms| && db.versions == Versions(ms[..n])
    requires forall i, j :: 0 <= i < j < |ms| ==> ms[i].version < ms[j].version
    requires ms != [] && ms[|ms| - 1].version == 3
    ensures CheckSchemaVersion(db) <==> n == |ms|
  {
    if n > 0 {
      LargestOfAscending(db.versions);
    }
    hide Largest;
  }

  /** On a sorted list that ends in the expected version, the start-up check passes exactly on a database
      to which every file has been applied, however often migration was cut. */
  lemma CheckPassesOnlyWhenComplete<S>(initial: S, ms: seq<Migration<S>>, cuts: seq<nat>)
    requires forall i, j :: 0 <= i < j < |ms| ==> ms[i].version < ms[j].version
    requires ms != [] && ms[|ms| - 1].version == 3
    ensures CheckSchemaVersion(After(initial, ms, cuts)) <==> After(initial, ms, cuts).versions == Versions(ms)
    ensures CheckSchemaVersion(After(initial, ms, cuts)) ==> Folded(initial, ms) == Some(After(initial, ms, cuts).schema)
  {
    RunsAreRestartable(initial, ms, cuts, 0);
    var db := After(initial, ms, cuts);
    var n :| 0 <= n <= |ms| && db.versions == Versions(ms[..n]) && Folded(initial, ms[..n]) == Some(db.schema);
    PrefixPassesOnlyWhenWhole(ms, n, db);
    assert ms[..|ms|] == ms;
    assert |Versions(ms)| == |ms| && |Versions(ms[..n])| == n;
    hide After, Folded, Attempt, Largest, CheckSchemaVersion, Versions;
  }

  /** From a prefix on, an uncut run over files that all apply goes through. */
  lemma {:induction false} LoopCompletes<S>(initial: S, ms: seq<Migration<S>>, n: nat, i: nat, db: Db<S>, current: int, steps: nat)
    requires n <= |ms| && i <= |ms| && steps >= |ms| - i
    requires Increasing(ms) && Folded(initial, ms).Some?
    requires var k := if i > n then i else n; db.versions == Versions(ms[..k]) && Folded(initial, ms[..k]) == Some(db.schema)
    ensures var run := Loop(ms, i, Applied(Versions(ms[..n])), db, current, steps);
            && run.1.Completed? && run.0.versions == Versions(ms) && Folded(initial, ms) == Some(run.0.schema)
    decreases |ms| - i
  {
    hide Folded, Versions, Increasing;
    if i == |ms| {
      assert ms[..|ms|] == ms;
    } else if i < n {
      OldVersion(ms, n, i);
      LoopCompletes(initial, ms, n, i + 1, db, if ms[i].version > current then ms[i].version else current, steps - 1);
    } else {
      NewVersion(ms, i, i);
      NewVersion(ms, n, i);
      OneMoreFolds(initial, ms, i);
      LoopCompletes(initial, ms, n, i + 1, Db(ms[i].sql(db.schema).value, db.versions + [ms[i].version]), ms[i].version, steps - 1);
    }
  }

  ghost predicate Increasing<S>(ms: seq<Migration<S>>) {
    forall a, b :: 0 <= a < b < |ms| ==> ms[a].version < ms[b].version
  }

  lemma OldVersion<S>(ms: seq<Migration<S>>, n: nat, i: nat)
    requires i < n <= |ms|
    ensures ms[i].version in Applied(Versions(ms[..n]))
  {
    assert Versions(ms[..n])[i] == ms[i].version;
  }

  lemma NewVersion<S>(ms: seq<Migration<S>>, n: nat, i: nat)
    requires n <= i < |ms| && Increasing(ms)
    ensures ms[i].version !in Versions(ms[..n]) && ms[i].version !in Applied(Versions(ms[..n]))
  {
  }

  lemma OneMoreFolds<S>(initial: S, ms: seq<Migration<S>>, i: nat)
    requires i < |ms| && Folded(initial, ms).Some?
    ensures Folded(initial, ms[..i]).Some? && ms[i].sql(Folded(initial, ms[..i]).value).Some?
    ensures Folded(initial, ms[..i + 1]) == ms[i].sql(Folded(initial, ms[..i]).value)
    ensures Versions(ms[..i + 1]) == Versions(ms[..i]) + [ms[i].version]
  {
    hide Folded, Versions;
    FoldedOf(initial, ms, i);
    FoldedMore(initial, ms[..i], ms[i]);
    assert ms[..i + 1] == ms[..i] + [ms[i]];
  }

  /** Files that fold fold up to any point. */
  lemma {:induction false} FoldedOf<S>(initial: S, ms: seq<Migration<S>>, i: nat)
    requires i < |ms| && Folded(initial, ms).Some?
    ensures Folded(initial, ms[..i]).Some? && ms[i].sql(Folded(initial, ms[..i]).value).Some?
  {
    var n := |ms| - 1;
    if i < n {
      assert ms[..n][..i] == ms[..i];
      FoldedOf(initial, ms[..n], i);
    }
  }

  /** Migration gets there: on a sorted list of distinct versions whose SQL applies, one run that is not cut
      applies whatever earlier runs, cut anywhere, have left over. */
  lemma UncutRunCompletes<S>(initial: S, ms: seq<Migration<S>>, cuts: seq<nat>, steps: nat)
    requires Increasing(ms) && Folded(initial, ms).Some? && steps >= |ms|
    ensures var (after, outcome) := Attempt(ms, After(initial, ms, cuts), steps);
            outcome.Completed? && after.versions == Versions(ms) && Folded(initial, ms) == Some(after.schema)
  {
    RunsAreRestartable(initial, ms, cuts, 0);
    var db := After(initial, ms, cuts);
    var n :| 0 <= n <= |ms| && db.versions == Versions(ms[..n]) && Folded(initial, ms[..n]) == Some(db.schema);
    LoopCompletes(initial, ms, n, 0, db, 0, steps);
    hide After, Folded, Versions, Loop;
  }

  /** The version that a completed run reports is that of the last file, 0 when there is none. */
  lemma {:induction false} LoopReportsTheLastVersion<S>(ms: seq<Migration<S>>, i: nat, applied: set<int>, db: Db<S>, current: int, steps: nat)
    requires i <= |ms| && Increasing(ms) && (ms != [] ==> ms[0].version > 0)
    requires current == if i == 0 then 0 else ms[i - 1].version
    ensures var outcome := Loop(ms, i, applied, db, current, steps).1;
            outcome.Completed? ==> outcome.version == if ms == [] then 0 else ms[|ms| - 1].version
    decreases |ms| - i
  {
    if i < |ms| && steps > 0 {
      var m := ms[i];
      if m.version in applied {
        LoopReportsTheLastVersion(ms, i + 1, applied, db, m.version, steps - 1);
      } else if m.sql(db.schema).Some? && m.version !in db.versions {
        LoopReportsTheLastVersion(ms, i + 1, applied, Db(m.sql(db.schema).value, db.versions + [m.version]), m.version, steps - 1);
      }
    }
  }

  lemma CompletionReportsTheLastVersion<S>(ms: seq<Migration<S>>, db: Db<S>, steps: nat)
    requires Increasing(ms) && (ms != [] ==> ms[0].version > 0)
    ensures var outcome := Attempt(ms, db, steps).1;
            outcome.Completed? ==> outcome.version == if ms == [] then 0 else ms[|ms| - 1].version
  {
    LoopReportsTheLastVersion(ms, 0, Applied(db.versions), db, 0, steps);
  }
}
