/** The seed runner: deployments one after another, any of which may crash between its writes. */
module Seeding {
  import opened Wrappers

  datatype SeedRow = SeedRow(name: string, version: int)

  /** The table a seed fills, and the shared table of applied seeds. */
  datatype Store<T> = Store(rows: seq<T>, seeds: seq<SeedRow>)

  /** A seed as one deployment ships it. `same` is its equality check, `covers` its filter. */
  datatype Seed<!T> = Seed(name: string, version: int, data: seq<T>, same: (T, T) -> bool, covers: T -> bool)

  /** `loadSeedEntityAsync`: the version of the first row with the name. */
  function LoadSeedEntity(seeds: seq<SeedRow>, name: string): Option<int>
    decreases |seeds|
  {
    if seeds == [] then None
    else if seeds[0].name == name then Some(seeds[0].version)
    else LoadSeedEntity(seeds[1..], name)
  }

  predicate ShouldRun(entity: Option<int>, version: int) {
    entity.None? || entity.value < version
  }

  function Filter<T>(rows: seq<T>, covers: T -> bool): seq<T>
    decreases |rows|
  {
    if rows == [] then [] else (if covers(rows[0]) then [rows[0]] else []) + Filter(rows[1..], covers)
  }

  /** `difference(data, found, equalityCheck)` */
  function Difference<T>(data: seq<T>, found: seq<T>, same: (T, T) -> bool): seq<T>
    decreases |data|
  {
    if data == [] then []
    else (if exists i :: 0 <= i < |found| && same(data[0], found[i]) then [] else [data[0]])
         + Difference(data[1..], found, same)
  }

  function Missing<T>(s: Seed<T>, rows: seq<T>): seq<T> {
    Difference(s.data, Filter(rows, s.covers), s.same)
  }

  function SetVersion(seeds: seq<SeedRow>, name: string, version: int): seq<SeedRow> {
    seq(|seeds|, i requires 0 <= i < |seeds| => if seeds[i].name == name then SeedRow(name, version) else seeds[i])
  }

  /** `updateSeedEntityAsync` */
  function UpdateSeedEntity(seeds: seq<SeedRow>, name: string, version: int, entity: Option<int>): seq<SeedRow> {
    if version > 1 && entity.Some? then SetVersion(seeds, name, version) else seeds + [SeedRow(name, version)]
  }

  /** `runAsync`, crashing after `writes` of its two writes: saving the missing rows (one
      transaction), then the seeds table. */
  function Run<T>(db: Store<T>, s: Seed<T>, writes: nat): Store<T> {
    var entity := LoadSeedEntity(db.seeds, s.name);
    if !ShouldRun(entity, s.version) || writes == 0 then db else
    var saved := db.(rows := db.rows + Missing(s, db.rows));
    if writes == 1 then saved else saved.(seeds := UpdateSeedEntity(db.seeds, s.name, s.version, entity))
  }

  class BaseSeed<T> {
    const seed: Seed<T>
    var seedEntity: Option<int>
    /** The database tables. */
    var rows: seq<T>
    var seeds: seq<SeedRow>

    constructor (seed: Seed<T>, db: Store<T>)
      ensures this.seed == seed && View() == db
    {
      this.seed, rows, seeds, seedEntity := seed, db.rows, db.seeds, None;
    }

    function View(): Store<T>
      reads this
    {
      Store(rows, seeds)
    }

    method LoadEntity()
      modifies this
      ensures View() == old(View()) && seedEntity == LoadSeedEntity(seeds, seed.name)
    {
      seedEntity := None;
      var i := 0;
      while i < |seeds| && seedEntity.None?
        invariant 0 <= i <= |seeds| && View() == old(View())
        invariant LoadSeedEntity(seeds, seed.name)
               == if seedEntity.Some? then seedEntity else LoadSeedEntity(seeds[i..], seed.name)
        decreases |seeds| - i, seedEntity.None?
      {
        if seeds[i].name == seed.name {
          seedEntity := Some(seeds[i].version);
        }
        i := i + 1;
      }
    }

    method UpdateEntity()
      modifies this
      ensures View() == old(View()).(seeds := UpdateSeedEntity(old(seeds), seed.name, seed.version, old(seedEntity)))
    {
      if seed.version > 1 && seedEntity.Some? {
        seeds := SetVersion(seeds, seed.name, seed.version);
      } else {
        seeds := seeds + [SeedRow(seed.name, seed.version)];
      }
    }

    method RunAsync(writes: nat)
      modifies this
      ensures View() == Run(old(View()), seed, writes)
    {
      LoadEntity();
      if !ShouldRun(seedEntity, seed.version) { return; }
      if writes == 0 { return; }
      var diff := Missing(seed, rows);
      if |diff| > 0 {
        rows := rows + diff;
      }
      assert rows == old(rows) + diff;
      if writes == 1 { return; }
      UpdateEntity();
    }
  }

  // ---- the seeds table ----

  predicate UniqueNames(seeds: seq<SeedRow>) {
    forall i, j :: 0 <= i < j < |seeds| ==> seeds[i].name != seeds[j].name
  }

  predicate VersionsFromOne(seeds: seq<SeedRow>) {
    forall i :: 0 <= i < |seeds| ==> seeds[i].version >= 1
  }

  lemma {:induction false} LoadFinds(seeds: seq<SeedRow>, name: string)
    ensures LoadSeedEntity(seeds, name).None? <==> forall i :: 0 <= i < |seeds| ==> seeds[i].name != name
    ensures LoadSeedEntity(seeds, name).Some? ==>
              exists i :: 0 <= i < |seeds| && seeds[i] == SeedRow(name, LoadSeedEntity(seeds, name).value)
    decreases |seeds|
  {
    if seeds != [] {
      LoadFinds(seeds[1..], name);
      if seeds[0].name != name {
        if LoadSeedEntity(seeds, name).None? {
          forall i | 0 <= i < |seeds| ensures seeds[i].name != name {
            assert i > 0 ==> seeds[i] == seeds[1..][i - 1];
          }
        } else {
          var i :| 0 <= i < |seeds[1..]| && seeds[1..][i] == SeedRow(name, LoadSeedEntity(seeds[1..], name).value);
          assert seeds[i + 1] == seeds[1..][i];
        }
      } else {
        assert seeds[0] == SeedRow(name, LoadSeedEntity(seeds, name).value);
      }
    }
  }

  /** The write to the seeds table keeps names unique exactly when it does not insert a second row,
      which only a version of at most 1 over an existing row does. */
  lemma UpdateKeepsUniqueIff(seeds: seq<SeedRow>, name: string, version: int)
    requires UniqueNames(seeds)
    ensures UniqueNames(UpdateSeedEntity(seeds, name, version, LoadSeedEntity(seeds, name)))
       <==> !(LoadSeedEntity(seeds, name).Some? && version <= 1)
  {
    LoadFinds(seeds, name);
    var after := UpdateSeedEntity(seeds, name, version, LoadSeedEntity(seeds, name));
    if LoadSeedEntity(seeds, name).Some? && version <= 1 {
      var i :| 0 <= i < |seeds| && seeds[i].name == name;
      assert after[i].name == after[|seeds|].name;
    }
  }

  /** So a full run of a seed breaks uniqueness exactly when it raises a stored version to one that is
      still at most 1; a stored version of 0 and a seed of version 1, say. */
  lemma RunKeepsUniqueIff<T>(db: Store<T>, s: Seed<T>)
    requires UniqueNames(db.seeds)
    ensures var entity := LoadSeedEntity(db.seeds, s.name);
            UniqueNames(Run(db, s, 2).seeds) <==> !(entity.Some? && entity.value < s.version <= 1)
  {
    UpdateKeepsUniqueIff(db.seeds, s.name, s.version);
  }

  /** Such a run: version 1 over a stored version of 0 leaves two rows of the name. */
  lemma FirstVersionOverZero<T>(rows: seq<T>, s: Seed<T>)
    requires s.version == 1
    ensures var db := Store(rows, [SeedRow(s.name, 0)]);
            Run(db, s, 2).seeds == [SeedRow(s.name, 0), SeedRow(s.name, 1)] && !UniqueNames(Run(db, s, 2).seeds)
  {
    var seeds := Run(Store(rows, [SeedRow(s.name, 0)]), s, 2).seeds;
    assert seeds == [SeedRow(s.name, 0), SeedRow(s.name, 1)];
    assert seeds[0].name == seeds[1].name;
  }

  function RunAll<T>(db: Store<T>, ds: seq<(Seed<T>, nat)>): Store<T>
    decreases |ds|
  {
    if ds == [] then db else RunAll(Run(db, ds[0].0, ds[0].1), ds[1..])
  }

  lemma RunKeepsTables<T>(db: Store<T>, s: Seed<T>, writes: nat)
    requires UniqueNames(db.seeds) && VersionsFromOne(db.seeds) && s.version >= 1
    ensures UniqueNames(Run(db, s, writes).seeds) && VersionsFromOne(Run(db, s, writes).seeds)
    ensures db.rows <= Run(db, s, writes).rows
  {
    LoadFinds(db.seeds, s.name);
    UpdateKeepsUniqueIff(db.seeds, s.name, s.version);
  }

  /** Over any sequence of deployments, of any seeds and with crashes anywhere, the seeds table
      keeps at most one row per name and no data row is ever lost. */
  lemma {:induction false} DeploymentsKeepTables<T>(db: Store<T>, ds: seq<(Seed<T>, nat)>)
    requires UniqueNames(db.seeds) && VersionsFromOne(db.seeds)
    requires forall d <- ds :: d.0.version >= 1
    ensures UniqueNames(RunAll(db, ds).seeds) && db.rows <= RunAll(db, ds).rows
    decreases |ds|
  {
    if ds != [] {
      RunKeepsTables(db, ds[0].0, ds[0].1);
      DeploymentsKeepTables(Run(db, ds[0].0, ds[0].1), ds[1..]);
    }
  }

  // ---- convergence ----

  /** How many rows equal the seed item `x`. */
  function Copies<T>(rows: seq<T>, same: (T, T) -> bool, x: T): nat
    decreases |rows|
  {
    if rows == [] then 0 else (if same(x, rows[0]) then 1 else 0) + Copies(rows[1..], same, x)
  }

  /** The data is pairwise distinct, each item equals itself, and the filter covers what equals it. */
  ghost predicate Proper<T(!new)>(s: Seed<T>) {
    && (forall i, j :: 0 <= i < |s.data| && 0 <= j < |s.data| ==> (s.same(s.data[i], s.data[j]) <==> i == j))
    && (forall x, r :: x in s.data && s.same(x, r) ==> s.covers(r))
  }

  lemma {:induction false} CopiesConcat<T>(a: seq<T>, b: seq<T>, same: (T, T) -> bool, x: T)
    ensures Copies(a + b, same, x) == Copies(a, same, x) + Copies(b, same, x)
    decreases |a|
  {
    if a == [] {
      assert a + b == b;
    } else {
      assert (a + b)[1..] == a[1..] + b;
      CopiesConcat(a[1..], b, same, x);
    }
  }

  lemma {:induction false} FilterFinds<T>(rows: seq<T>, covers: T -> bool, same: (T, T) -> bool, x: T)
    requires forall r <- rows :: same(x, r) ==> covers(r)
    ensures Copies(Filter(rows, covers), same, x) == Copies(rows, same, x)
    decreases |rows|
  {
    if rows != [] {
      FilterFinds(rows[1..], covers, same, x);
      CopiesConcat(if covers(rows[0]) then [rows[0]] else [], Filter(rows[1..], covers), same, x);
    }
  }

  lemma {:induction false} CopiesPositive<T>(rows: seq<T>, same: (T, T) -> bool, x: T)
    ensures Copies(rows, same, x) > 0 <==> exists i :: 0 <= i < |rows| && same(x, rows[i])
    decreases |rows|
  {
    if rows != [] {
      CopiesPositive(rows[1..], same, x);
      if Copies(rows[1..], same, x) > 0 {
        var i :| 0 <= i < |rows[1..]| && same(x, rows[1..][i]);
        assert same(x, rows[i + 1]);
      } else if exists i :: 0 <= i < |rows| && same(x, rows[i]) {
        var i :| 0 <= i < |rows| && same(x, rows[i]);
        assert i > 0 ==> same(x, rows[1..][i - 1]);
      }
    }
  }

  /** Of the data, the difference holds item `i` once when no found row equals it, else not at all. */
  lemma {:induction false} DifferenceCopies<T>(data: seq<T>, found: seq<T>, same: (T, T) -> bool, i: nat)
    requires i < |data|
    requires forall j, k :: 0 <= j < |data| && 0 <= k < |data| ==> (same(data[j], data[k]) <==> j == k)
    ensures Copies(Difference(data, found, same), same, data[i]) == if Copies(found, same, data[i]) == 0 then 1 else 0
    decreases |data|
  {
    var kept := if exists k :: 0 <= k < |found| && same(data[0], found[k]) then [] else [data[0]];
    var rest := data[1..];
    CopiesConcat(kept, Difference(rest, found, same), same, data[i]);
    CopiesPositive(found, same, data[0]);
    assert same(data[i], data[0]) <==> i == 0;
    if i == 0 {
      NoCopies(rest, found, same, data[0]);
    } else {
      assert forall j, k :: 0 <= j < |rest| && 0 <= k < |rest| ==> (same(rest[j], rest[k]) <==> same(data[j + 1], data[k + 1]));
      DifferenceCopies(rest, found, same, i - 1);
    }
  }

  lemma {:induction false} NoCopies<T>(data: seq<T>, found: seq<T>, same: (T, T) -> bool, x: T)
    requires forall j :: 0 <= j < |data| ==> !same(x, data[j])
    ensures Copies(Difference(data, found, same), same, x) == 0
    decreases |data|
  {
    if data != [] {
      NoCopies(data[1..], found, same, x);
      CopiesConcat(if exists k :: 0 <= k < |found| && same(data[0], found[k]) then [] else [data[0]],
                   Difference(data[1..], found, same), same, x);
    }
  }

  /** The run gets as far as saving its rows. */
  predicate Saves<T>(db: Store<T>, s: Seed<T>, writes: nat) {
    writes >= 1 && ShouldRun(LoadSeedEntity(db.seeds, s.name), s.version)
  }

  lemma RunCopies<T(!new)>(db: Store<T>, s: Seed<T>, writes: nat, i: nat)
    requires Proper(s) && i < |s.data|
    ensures Copies(Run(db, s, writes).rows, s.same, s.data[i])
         == Copies(db.rows, s.same, s.data[i])
            + (if Saves(db, s, writes) && Copies(db.rows, s.same, s.data[i]) == 0 then 1 else 0)
  {
    if Saves(db, s, writes) {
      var x := s.data[i];
      var found := Filter(db.rows, s.covers);
      CopiesConcat(db.rows, Missing(s, db.rows), s.same, x);
      FilterFinds(db.rows, s.covers, s.same, x);
      DifferenceCopies(s.data, found, s.same, i);
    }
  }

  lemma {:induction false} LoadAppended(seeds: seq<SeedRow>, row: SeedRow, name: string)
    ensures LoadSeedEntity(seeds + [row], name)
         == if LoadSeedEntity(seeds, name).Some? then LoadSeedEntity(seeds, name)
            else if row.name == name then Some(row.version) else None
    decreases |seeds|
  {
    if seeds == [] {
      assert (seeds + [row])[1..] == [];
    } else {
      assert (seeds + [row])[1..] == seeds[1..] + [row];
      LoadAppended(seeds[1..], row, name);
    }
  }

  lemma {:induction false} LoadUpdated(seeds: seq<SeedRow>, name: string, version: int)
    ensures LoadSeedEntity(SetVersion(seeds, name, version), name)
         == if LoadSeedEntity(seeds, name).Some? then Some(version) else None
    decreases |seeds|
  {
    if seeds != [] {
      assert SetVersion(seeds, name, version)[1..] == SetVersion(seeds[1..], name, version);
      LoadUpdated(seeds[1..], name, version);
    }
  }

  /** A completed run leaves the seed's version in the table, so the same version does not run again. */
  lemma CompletedRunIsRecorded<T>(db: Store<T>, s: Seed<T>, writes: nat)
    requires VersionsFromOne(db.seeds) && s.version >= 1 && writes >= 2
    ensures !ShouldRun(LoadSeedEntity(Run(db, s, writes).seeds, s.name), s.version)
  {
    LoadFinds(db.seeds, s.name);
    LoadAppended(db.seeds, SeedRow(s.name, s.version), s.name);
    LoadUpdated(db.seeds, s.name, s.version);
  }

  ghost predicate Equivalence<T(!new)>(same: (T, T) -> bool) {
    && (forall x :: same(x, x)) && (forall x, y :: same(x, y) ==> same(y, x))
    && (forall x, y, z :: same(x, y) && same(y, z) ==> same(x, z))
  }

  lemma {:induction false} SameCopies<T(!new)>(rows: seq<T>, same: (T, T) -> bool, x: T, y: T)
    requires Equivalence(same) && same(x, y)
    ensures Copies(rows, same, x) == Copies(rows, same, y)
    decreases |rows|
  {
    if rows != [] {
      assert same(y, x);
      assert same(x, rows[0]) <==> same(y, rows[0]);
      SameCopies(rows[1..], same, x, y);
    }
  }

  /** Whatever data a run ships, it gives an item at most one row, and only where it had none. */
  lemma AnyRunCopies<T(!new)>(db: Store<T>, d: Seed<T>, writes: nat, x: T)
    requires Proper(d) && Equivalence(d.same)
    ensures var n, m := Copies(db.rows, d.same, x), Copies(Run(db, d, writes).rows, d.same, x);
            m == n || (n == 0 && m == 1)
  {
    if Saves(db, d, writes) {
      if j :| 0 <= j < |d.data| && d.same(x, d.data[j]) {
        SameCopies(db.rows, d.same, x, d.data[j]);
        SameCopies(Run(db, d, writes).rows, d.same, x, d.data[j]);
        RunCopies(db, d, writes, j);
      } else {
        CopiesConcat(db.rows, Missing(d, db.rows), d.same, x);
        NoCopies(d.data, Filter(db.rows, d.covers), d.same, x);
      }
    }
  }

  /** `d` is a deployment under the seed's name: of the same data at some version, or of any other data
      at a lower one, where the equality check is an equivalence. */
  ghost predicate Earlier<T(!new)>(d: Seed<T>, s: Seed<T>) {
    && d.name == s.name && d.same == s.same && d.version >= 1 && Proper(d)
    && (d == s.(version := d.version) || (d.version < s.version && Equivalence(s.same)))
  }

  /** Where the seed `s` counts as applied, all its items are present. */
  ghost predicate AppliedMeansPresent<T(!new)>(db: Store<T>, s: Seed<T>) {
    ShouldRun(LoadSeedEntity(db.seeds, s.name), s.version)
    || forall i :: 0 <= i < |s.data| ==> Copies(db.rows, s.same, s.data[i]) > 0
  }

  lemma SameDataKeepsPresent<T(!new)>(db: Store<T>, s: Seed<T>, d: Seed<T>, writes: nat)
    requires Proper(s) && d == s.(version := d.version) && AppliedMeansPresent(db, s)
    ensures AppliedMeansPresent(Run(db, d, writes), s)
  {
    if Saves(db, d, writes) || !ShouldRun(LoadSeedEntity(db.seeds, s.name), s.version) {
      forall i | 0 <= i < |s.data| ensures Copies(Run(db, d, writes).rows, s.same, s.data[i]) > 0 {
        RunCopies(db, d, writes, i);
      }
    }
  }

  /** A run at a lower version does not make the seed count as applied. */
  lemma LowerVersionKeepsPresent<T(!new)>(db: Store<T>, s: Seed<T>, d: Seed<T>, writes: nat)
    requires d.name == s.name && d.version < s.version && AppliedMeansPresent(db, s)
    ensures AppliedMeansPresent(Run(db, d, writes), s)
  {
    LoadAppended(db.seeds, SeedRow(d.name, d.version), s.name);
    LoadUpdated(db.seeds, d.name, d.version);
  }

  /** Each item ends with the copies it had, or with one where it had none and a run got to save. */
  lemma {:induction false} DeploymentsCopies<T(!new)>(db: Store<T>, s: Seed<T>, ds: seq<(Seed<T>, nat)>, i: nat)
    requires Proper(s) && AppliedMeansPresent(db, s) && i < |s.data|
    requires UniqueNames(db.seeds) && VersionsFromOne(db.seeds)
    requires forall d <- ds :: Earlier(d.0, s)
    ensures var end, n := RunAll(db, ds), Copies(db.rows, s.same, s.data[i]);
            && AppliedMeansPresent(end, s) && VersionsFromOne(end.seeds)
            && (Copies(end.rows, s.same, s.data[i]) == n || (n == 0 && Copies(end.rows, s.same, s.data[i]) == 1))
    decreases |ds|
  {
    if ds != [] {
      var d, writes := ds[0].0, ds[0].1;
      assert Earlier(d, s);
      if d == s.(version := d.version) {
        SameDataKeepsPresent(db, s, d, writes);
        RunCopies(db, d, writes, i);
      } else {
        LowerVersionKeepsPresent(db, s, d, writes);
        AnyRunCopies(db, d, writes, s.data[i]);
      }
      RunKeepsTables(db, d, writes);
      DeploymentsCopies(Run(db, d, writes), s, ds[1..], i);
    }
  }

  /** Crash recovery: a seed not yet applied, after any number of deployments of other data at lower
      versions or of its own data at any, crashing anywhere, and then deployed once to its end, has
      exactly one row for every item that was missing and the old rows for the others. */
  lemma RerunConverges<T(!new)>(db: Store<T>, s: Seed<T>, ds: seq<(Seed<T>, nat)>, i: nat)
    requires Proper(s) && s.version >= 1 && i < |s.data|
    requires UniqueNames(db.seeds) && VersionsFromOne(db.seeds)
    requires ShouldRun(LoadSeedEntity(db.seeds, s.name), s.version)
    requires forall d <- ds :: Earlier(d.0, s)
    ensures var n := Copies(db.rows, s.same, s.data[i]);
            Copies(Run(RunAll(db, ds), s, 2).rows, s.same, s.data[i]) == if n == 0 then 1 else n
  {
    DeploymentsCopies(db, s, ds, i);
    RunCopies(RunAll(db, ds), s, 2, i);
  }

  /** After a completed run, running the same version again, to whatever point, changes nothing. */
  lemma SecondRunDoesNothing<T>(db: Store<T>, s: Seed<T>, writes: nat, again: nat)
    requires VersionsFromOne(db.seeds) && s.version >= 1 && writes >= 2
    ensures Run(Run(db, s, writes), s, again) == Run(db, s, writes)
  {
    CompletedRunIsRecorded(db, s, writes);
  }

  // ---- when a seed runs ----

  /** The table says that the seed, at its version or a later one, has been applied. */
  predicate IsApplied(seeds: seq<SeedRow>, name: string, version: int) {
    exists i :: 0 <= i < |seeds| && seeds[i].name == name && seeds[i].version >= version
  }

  lemma RunsUnlessApplied(seeds: seq<SeedRow>, name: string, version: int)
    requires UniqueNames(seeds)
    ensures ShouldRun(LoadSeedEntity(seeds, name), version) <==> !IsApplied(seeds, name, version)
  {
    LoadFinds(seeds, name);
  }

  /** A full run of a seed that has been applied changes nothing; of any other it saves the missing rows and
      leaves the seed recorded at its own version, on one row, and the rows of other seeds as they were. */
  lemma RunApplies<T>(db: Store<T>, s: Seed<T>)
    requires UniqueNames(db.seeds) && VersionsFromOne(db.seeds) && s.version >= 1
    ensures var d := Run(db, s, 2);
            if IsApplied(db.seeds, s.name, s.version) then d == db
            else
              && d.rows == db.rows + Missing(s, db.rows)
              && UniqueNames(d.seeds) && SeedRow(s.name, s.version) in d.seeds
              && forall row: SeedRow :: row.name != s.name ==> (row in d.seeds <==> row in db.seeds)
  {
    RunsUnlessApplied(db.seeds, s.name, s.version);
    LoadFinds(db.seeds, s.name);
    RunKeepsTables(db, s, 2);
    if !IsApplied(db.seeds, s.name, s.version) && LoadSeedEntity(db.seeds, s.name).Some? {
      UpdatedRows(db.seeds, s.name, s.version);
    }
  }

  lemma UpdatedRows(seeds: seq<SeedRow>, name: string, version: int)
    requires exists i :: 0 <= i < |seeds| && seeds[i].name == name
    ensures SeedRow(name, version) in SetVersion(seeds, name, version)
    ensures forall row: SeedRow :: row.name != name ==> (row in SetVersion(seeds, name, version) <==> row in seeds)
  {
    var after := SetVersion(seeds, name, version);
    var i :| 0 <= i < |seeds| && seeds[i].name == name;
    assert after[i] == SeedRow(name, version);
    forall row: SeedRow | row.name != name ensures row in after <==> row in seeds {
      if row in seeds {
        var j :| 0 <= j < |seeds| && seeds[j] == row;
        assert after[j] == row;
      }
    }
  }
}
