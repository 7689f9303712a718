/**
  The database as the migration sees it: an abstract schema (type names, tables, named
  foreign keys, named indexes) and the effect of each DDL statement `SchemaManager` sends
  on it, per backend. A statement either changes the schema or is refused with an error;
  a sequence of statements stops at the first refusal, as each call in `up` and `down` is
  followed by `?`.
*/
module Ddl {
  import opened Wrappers
  import opened Catalogue

  /** The database the migration runs against (`manager.get_database_backend()`). */
  datatype Backend = Postgres | MySql | Sqlite

  /** Why the database refuses a statement, named after the Postgres error classes. */
  datatype DbErr = FeatureNotSupported | DuplicateObject | UndefinedObject | DependentObjects

  /** The objects that exist: enumeration types by name, tables by module, foreign keys
      and indexes by name, each with the statement that created it. */
  datatype Schema = Schema(
    types: set<string>,
    tables: map<TableId, TableCreate>,
    foreignKeys: map<string, ForeignKeyCreate>,
    indexes: map<string, IndexCreate>)

  const EmptySchema: Schema := Schema({}, map[], map[], map[])

  /** Referential integrity of a schema: every object is filed under its own name, every
      foreign key joins two existing tables, every index is on an existing table and, on
      Postgres, the enumeration types of every table's columns exist. */
  ghost predicate Valid(b: Backend, s: Schema) {
    (forall t | t in s.tables ::
      s.tables[t].table == t && (b == Postgres ==> UsedTypes(s.tables[t]) <= s.types)) &&
    (forall n | n in s.foreignKeys ::
      s.foreignKeys[n].name == n && s.foreignKeys[n].from in s.tables && s.foreignKeys[n].to in s.tables) &&
    (forall n | n in s.indexes :: s.indexes[n].name == n && s.indexes[n].table in s.tables)
  }

  /** One call of `manager.create_*` or `manager.drop_*`. */
  datatype Step =
    | CreateType(TypeCreate)
    | CreateTable(TableCreate)
    | CreateForeignKey(ForeignKeyCreate)
    | CreateIndex(IndexCreate)
    | DropForeignKey(ForeignKeyDrop)
    | DropIndex(IndexDrop)
    | DropTable(TableDrop)
    | DropType(TypeDrop)

  /** Does some foreign key of another table refer to `t`? */
  predicate Referenced(s: Schema, t: TableId) {
    exists n | n in s.foreignKeys :: s.foreignKeys[n].to == t && s.foreignKeys[n].from != t
  }

  /** Does some table declare a column of the enumeration type `name`? */
  predicate TypeInUse(s: Schema, name: string) {
    exists t | t in s.tables :: name in UsedTypes(s.tables[t])
  }

  /** The effect of one statement. Enumeration types exist on Postgres only; SQLite cannot
      add or drop a foreign key on an existing table; `CREATE TABLE IF NOT EXISTS` leaves an
      existing table as it is; the other statements are refused when the object they create
      already exists or the object they need or remove does not. Dropping a table removes
      its own foreign keys and indexes and is refused while another table refers to it;
      dropping a type is refused while a column uses it. Foreign-key and index names are
      the model's choice of keys, one name space each for the whole database (Postgres
      scopes a constraint name to its table, and `DROP INDEX` does not use the table it is
      given); the declared names are pairwise distinct (Catalogue.ForeignKeyNamesDistinct,
      Catalogue.IndexNamesDistinct), so no outcome here depends on that choice. */
  function Apply(b: Backend, s: Schema, step: Step): (r: Result<Schema, DbErr>)
    ensures Valid(b, s) && r.Ok? ==> Valid(b, r.value)
  {
    match step
    case CreateType(t) =>
      if b != Postgres then Err(FeatureNotSupported)
      else if t.name in s.types then Err(DuplicateObject)
      else Ok(s.(types := s.types + {t.name}))
    case CreateTable(c) =>
      if c.table in s.tables then Ok(s)
      else if b == Postgres && !(UsedTypes(c) <= s.types) then Err(UndefinedObject)
      else Ok(s.(tables := s.tables[c.table := c]))
    case CreateForeignKey(f) =>
      if b == Sqlite then Err(FeatureNotSupported)
      else if f.from !in s.tables || f.to !in s.tables then Err(UndefinedObject)
      else if f.name in s.foreignKeys then Err(DuplicateObject)
      else Ok(s.(foreignKeys := s.foreignKeys[f.name := f]))
    case CreateIndex(x) =>
      if x.table !in s.tables then Err(UndefinedObject)
      else if x.name in s.indexes then Err(DuplicateObject)
      else Ok(s.(indexes := s.indexes[x.name := x]))
    case DropForeignKey(d) =>
      if b == Sqlite then Err(FeatureNotSupported)
      else if d.name !in s.foreignKeys || s.foreignKeys[d.name].from != d.table then Err(UndefinedObject)
      else Ok(s.(foreignKeys := s.foreignKeys - {d.name}))
    case DropIndex(d) =>
      if d.name !in s.indexes || s.indexes[d.name].table != d.table then Err(UndefinedObject)
      else Ok(s.(indexes := s.indexes - {d.name}))
    case DropTable(d) =>
      if d.table !in s.tables then Err(UndefinedObject)
      else if Referenced(s, d.table) then Err(DependentObjects)
      else DropTableKeepsValid(b, s, d.table); Ok(WithoutTable(s, d.table))
    case DropType(d) =>
      if b != Postgres then Err(FeatureNotSupported)
      else if d.name !in s.types then Err(UndefinedObject)
      else if TypeInUse(s, d.name) then Err(DependentObjects)
      else DropTypeKeepsValid(b, s, d.name); Ok(s.(types := s.types - {d.name}))
  }

  /** The schema without table `t` and the foreign keys and indexes declared on it. */
  function WithoutTable(s: Schema, t: TableId): Schema {
    Schema(
      s.types,
      s.tables - {t},
      map n | n in s.foreignKeys && s.foreignKeys[n].from != t :: s.foreignKeys[n],
      map n | n in s.indexes && s.indexes[n].table != t :: s.indexes[n])
  }

  lemma DropTableKeepsValid(b: Backend, s: Schema, t: TableId)
    ensures Valid(b, s) && !Referenced(s, t) ==> Valid(b, WithoutTable(s, t))
  {
    if Valid(b, s) && !Referenced(s, t) {
      var r := WithoutTable(s, t);
      forall u | u in r.tables
        ensures r.tables[u].table == u && (b == Postgres ==> UsedTypes(r.tables[u]) <= r.types)
      {
        assert r.tables[u] == s.tables[u];
      }
      DropTableKeepsForeignKeys(b, s, t);
      forall n | n in r.indexes ensures r.indexes[n].name == n && r.indexes[n].table in r.tables {
        assert r.indexes[n] == s.indexes[n];
      }
    }
  }

  /** The foreign keys left after dropping an unreferenced table join tables that are left. */
  lemma DropTableKeepsForeignKeys(b: Backend, s: Schema, t: TableId)
    requires Valid(b, s) && !Referenced(s, t)
    ensures forall n | n in WithoutTable(s, t).foreignKeys ::
      (WithoutTable(s, t).foreignKeys[n].name == n &&
       WithoutTable(s, t).foreignKeys[n].from in WithoutTable(s, t).tables &&
       WithoutTable(s, t).foreignKeys[n].to in WithoutTable(s, t).tables)
  {
    var r := WithoutTable(s, t);
    forall n | n in r.foreignKeys
      ensures r.foreignKeys[n].name == n && r.foreignKeys[n].from in r.tables && r.foreignKeys[n].to in r.tables
    {
      var f := s.foreignKeys[n];
      assert r.foreignKeys[n] == f && f.from != t;
      assert f.to != t;
    }
  }

  lemma DropTypeKeepsValid(b: Backend, s: Schema, name: string)
    ensures Valid(b, s) && !TypeInUse(s, name) ==> Valid(b, s.(types := s.types - {name}))
  {
  }

  /** The schema after a sequence of statements, and whether all of them succeeded. */
  datatype Run = Run(schema: Schema, outcome: Outcome<DbErr>)

  /** Runs `steps` in order from `s`; the first refused statement ends the run with its
      error, leaving the schema the earlier statements produced. */
  function Exec(b: Backend, s: Schema, steps: seq<Step>): Run
    decreases |steps|
  {
    if steps == [] then Run(s, Pass)
    else
      var prev := Exec(b, s, steps[..|steps| - 1]);
      if prev.outcome.Fail? then prev
      else match Apply(b, prev.schema, steps[|steps| - 1])
        case Ok(next) => Run(next, Pass)
        case Err(e) => Run(prev.schema, Fail(e))
  }

  /** A run keeps the schema's referential integrity, whether it succeeds or not. */
  lemma {:induction false} ExecKeepsValid(b: Backend, s: Schema, steps: seq<Step>)
    requires Valid(b, s)
    ensures Valid(b, Exec(b, s, steps).schema)
    decreases |steps|
  {
    if steps != [] {
      ExecKeepsValid(b, s, steps[..|steps| - 1]);
    }
  }

  /** Running `xs + ys` runs `xs`, and then `ys` only if `xs` succeeded. */
  lemma {:induction false} ExecAppend(b: Backend, s: Schema, xs: seq<Step>, ys: seq<Step>)
    ensures Exec(b, s, xs + ys) ==
      (var r := Exec(b, s, xs); if r.outcome.Fail? then r else Exec(b, r.schema, ys))
    decreases |ys|
  {
    if ys != [] {
      var n, zs := |ys| - 1, xs + ys;
      assert zs[..|zs| - 1] == xs + ys[..n] && zs[|zs| - 1] == ys[n];
      ExecAppend(b, s, xs, ys[..n]);
      var r := Exec(b, s, xs);
      if r.outcome.Pass? {
        assert Exec(b, s, zs[..|zs| - 1]) == Exec(b, r.schema, ys[..n]);
      }
    } else {
      assert xs + ys == xs;
    }
  }

  /** Every prefix of a successful run succeeds. */
  lemma {:induction false} ExecPrefixPasses(b: Backend, s: Schema, steps: seq<Step>, i: nat)
    requires i <= |steps| && Exec(b, s, steps).outcome == Pass
    ensures Exec(b, s, steps[..i]).outcome == Pass
    decreases |steps|
  {
    if i < |steps| {
      var n := |steps| - 1;
      assert steps[..n][..i] == steps[..i];
      ExecPrefixPasses(b, s, steps[..n], i);
    } else {
      assert steps[..i] == steps;
    }
  }

  /** A successful run succeeded at every statement, each applied to the schema the
      statements before it produced. */
  lemma {:induction false} ExecPassEachStep(b: Backend, s: Schema, steps: seq<Step>, i: nat)
    requires i < |steps| && Exec(b, s, steps).outcome == Pass
    ensures Exec(b, s, steps[..i]).outcome == Pass
    ensures Apply(b, Exec(b, s, steps[..i]).schema, steps[i]) == Ok(Exec(b, s, steps[..i + 1]).schema)
  {
    ExecPrefixPasses(b, s, steps, i + 1);
    assert steps[..i + 1][..i] == steps[..i];
  }

  /** A run that fails, fails at the first refused statement: every statement before it
      succeeded, and nothing after it changed the schema. */
  lemma {:induction false} ExecFailsAtFirstError(b: Backend, s: Schema, steps: seq<Step>)
    requires Exec(b, s, steps).outcome.Fail?
    ensures exists i :: (0 <= i < |steps| && Exec(b, s, steps[..i]).outcome == Pass &&
      Apply(b, Exec(b, s, steps[..i]).schema, steps[i]) == Err(Exec(b, s, steps).outcome.error) &&
      Exec(b, s, steps).schema == Exec(b, s, steps[..i]).schema)
  {
    var n := |steps| - 1;
    assert steps[..n + 1] == steps;
    var prev := Exec(b, s, steps[..n]);
    if prev.outcome.Fail? {
      ExecFailsAtFirstError(b, s, steps[..n]);
      var i :| 0 <= i < n && Exec(b, s, steps[..n][..i]).outcome == Pass &&
        Apply(b, Exec(b, s, steps[..n][..i]).schema, steps[..n][i]) == Err(prev.outcome.error) &&
        prev.schema == Exec(b, s, steps[..n][..i]).schema;
      assert steps[..n][..i] == steps[..i];
    }
  }

  /** After a successful `xs`, running `xs + ys` is running `ys` from where `xs` ended. */
  lemma ExecThen(b: Backend, s: Schema, xs: seq<Step>, ys: seq<Step>, mid: Schema)
    requires Exec(b, s, xs) == Run(mid, Pass)
    ensures Exec(b, s, xs + ys) == Exec(b, mid, ys)
  {
    ExecAppend(b, s, xs, ys);
  }

  /** After a failed `xs`, nothing in `ys` runs: `?` returns the first error. */
  lemma ExecStops(b: Backend, s: Schema, xs: seq<Step>, ys: seq<Step>)
    requires Exec(b, s, xs).outcome.Fail?
    ensures Exec(b, s, xs + ys) == Exec(b, s, xs)
  {
    ExecAppend(b, s, xs, ys);
  }

  /** A successful prefix extended by one statement runs that statement from where the
      prefix ended. */
  lemma ExecExtend(b: Backend, s: Schema, steps: seq<Step>, i: nat, mid: Schema)
    requires i < |steps| && Exec(b, s, steps[..i]) == Run(mid, Pass)
    ensures Exec(b, s, steps[..i + 1]) == Exec(b, mid, [steps[i]])
  {
    ExecThen(b, s, steps[..i], [steps[i]], mid);
    assert steps[..i] + [steps[i]] == steps[..i + 1];
  }

  /** Once a prefix of the statements has failed, the whole run ends as that prefix did. */
  lemma ExecAfterFailure(b: Backend, s: Schema, steps: seq<Step>, k: nat)
    requires k <= |steps| && Exec(b, s, steps[..k]).outcome.Fail?
    ensures Exec(b, s, steps) == Exec(b, s, steps[..k])
  {
    ExecStops(b, s, steps[..k], steps[k..]);
    assert steps[..k] + steps[k..] == steps;
  }

  /** What the database demands before it accepts a statement. */
  predicate Accepted(b: Backend, s: Schema, step: Step) {
    match step
    case CreateType(t) => b == Postgres && t.name !in s.types
    case CreateTable(c) => c.table in s.tables || b != Postgres || UsedTypes(c) <= s.types
    case CreateForeignKey(f) =>
      b != Sqlite && f.from in s.tables && f.to in s.tables && f.name !in s.foreignKeys
    case CreateIndex(x) => x.table in s.tables && x.name !in s.indexes
    case DropForeignKey(d) =>
      b != Sqlite && d.name in s.foreignKeys && s.foreignKeys[d.name].from == d.table
    case DropIndex(d) => d.name in s.indexes && s.indexes[d.name].table == d.table
    case DropTable(d) => d.table in s.tables && !Referenced(s, d.table)
    case DropType(d) => b == Postgres && d.name in s.types && !TypeInUse(s, d.name)
  }

  /** A statement succeeds exactly when the database's demands on it are met. */
  lemma ApplyAccepts(b: Backend, s: Schema, step: Step)
    ensures Apply(b, s, step).Ok? <==> Accepted(b, s, step)
  {
  }

  /** In a successful run, each statement met the database's demands on the schema the
      statements before it produced. */
  lemma ExecAcceptsEachStep(b: Backend, s: Schema, steps: seq<Step>, i: nat)
    requires i < |steps| && Exec(b, s, steps).outcome == Pass
    ensures Accepted(b, Exec(b, s, steps[..i]).schema, steps[i])
  {
    ExecPassEachStep(b, s, steps, i);
    ApplyAccepts(b, Exec(b, s, steps[..i]).schema, steps[i]);
  }

  // ------------------------------------------------ the database behind the schema manager

  /** The database `up` and `down` act on through the schema manager: the backend it runs
      and the schema it currently has. */
  class Database {
    const backend: Backend
    var schema: Schema

    constructor(backend: Backend, schema: Schema)
      ensures this.backend == backend && this.schema == schema
    {
      this.backend := backend;
      this.schema := schema;
    }

    /** One `manager.create_*` or `manager.drop_*` call: the database applies the statement
        when it accepts it, and otherwise leaves the schema as it was and reports why. */
    method Execute(step: Step) returns (r: Outcome<DbErr>)
      modifies this
      ensures r == Pass <==> Accepted(backend, old(schema), step)
      ensures Run(schema, r) == Exec(backend, old(schema), [step])
      ensures Valid(backend, old(schema)) ==> Valid(backend, schema)
    {
      ApplyAccepts(backend, schema, step);
      assert [step][..0] == [];
      match Apply(backend, schema, step)
      case Ok(next) =>
        schema := next;
        r := Pass;
      case Err(e) =>
        r := Fail(e);
    }
  }

  // ------------------------------------------------ the statement lists of a stage

  function TypeSteps(ts: seq<TypeCreate>): seq<Step> {
    seq(|ts|, i requires 0 <= i < |ts| => CreateType(ts[i]))
  }

  function TableSteps(cs: seq<TableCreate>): seq<Step> {
    seq(|cs|, i requires 0 <= i < |cs| => CreateTable(cs[i]))
  }

  function ForeignKeySteps(fs: seq<ForeignKeyCreate>): seq<Step> {
    seq(|fs|, i requires 0 <= i < |fs| => CreateForeignKey(fs[i]))
  }

  function IndexSteps(xs: seq<IndexCreate>): seq<Step> {
    seq(|xs|, i requires 0 <= i < |xs| => CreateIndex(xs[i]))
  }

  function DropForeignKeySteps(ds: seq<ForeignKeyDrop>): seq<Step> {
    seq(|ds|, i requires 0 <= i < |ds| => DropForeignKey(ds[i]))
  }

  function DropIndexSteps(ds: seq<IndexDrop>): seq<Step> {
    seq(|ds|, i requires 0 <= i < |ds| => DropIndex(ds[i]))
  }

  function DropTableSteps(ds: seq<TableDrop>): seq<Step> {
    seq(|ds|, i requires 0 <= i < |ds| => DropTable(ds[i]))
  }

  function DropTypeSteps(ds: seq<TypeDrop>): seq<Step> {
    seq(|ds|, i requires 0 <= i < |ds| => DropType(ds[i]))
  }

  // ------------------------------------------------ what a stage creates or removes

  /** The names of the types `ts` declares. */
  function TypeNames(ts: seq<TypeCreate>): set<string> {
    if ts == [] then {} else TypeNames(ts[..|ts| - 1]) + {ts[|ts| - 1].name}
  }

  lemma {:induction false} TypeNamesSpec(ts: seq<TypeCreate>)
    ensures forall i :: 0 <= i < |ts| ==> ts[i].name in TypeNames(ts)
    ensures forall x :: x in TypeNames(ts) ==> exists i :: 0 <= i < |ts| && ts[i].name == x
  {
    if ts != [] {
      var n := |ts| - 1;
      TypeNamesSpec(ts[..n]);
      assert forall i :: 0 <= i < n ==> ts[..n][i] == ts[i];
    }
  }

  /** A key no element of `ts` carries is not among those of `TypeNames(ts)`. */
  lemma {:induction false} TypeNamesFresh(ts: seq<TypeCreate>, k: string)
    requires forall i :: 0 <= i < |ts| ==> ts[i].name != k
    ensures k !in TypeNames(ts)
  {
    if ts != [] {
      TypeNamesFresh(ts[..|ts| - 1], k);
    }
  }

  /** The tables `cs` declares, each under its module; a later declaration wins. */
  function TableMap(cs: seq<TableCreate>): map<TableId, TableCreate> {
    if cs == [] then map[] else TableMap(cs[..|cs| - 1])[cs[|cs| - 1].table := cs[|cs| - 1]]
  }

  lemma {:induction false} TableMapSpec(cs: seq<TableCreate>)
    ensures forall i :: 0 <= i < |cs| ==> cs[i].table in TableMap(cs)
    ensures forall k :: k in TableMap(cs) ==> exists i :: 0 <= i < |cs| && cs[i].table == k && TableMap(cs)[k] == cs[i]
  {
    if cs != [] {
      var n := |cs| - 1;
      TableMapSpec(cs[..n]);
      assert forall i :: 0 <= i < n ==> cs[..n][i] == cs[i];
    }
  }

  /** When every declaration of `cs` for module `k` is `v`, and there is one, `TableMap(cs)`
      files `v` under `k`. */
  lemma {:induction false} TableMapValue(cs: seq<TableCreate>, k: TableId, v: TableCreate, i: nat)
    requires i < |cs| && cs[i].table == k
    requires forall j :: 0 <= j < |cs| && cs[j].table == k ==> cs[j] == v
    ensures k in TableMap(cs) && TableMap(cs)[k] == v
  {
    var n := |cs| - 1;
    if cs[n].table != k {
      assert forall j :: 0 <= j < n ==> cs[..n][j] == cs[j];
      TableMapValue(cs[..n], k, v, i);
    }
  }

  /** A key no element of `cs` carries is not among those of `TableMap(cs)`. */
  lemma {:induction false} TableMapFresh(cs: seq<TableCreate>, k: TableId)
    requires forall i :: 0 <= i < |cs| ==> cs[i].table != k
    ensures k !in TableMap(cs)
  {
    if cs != [] {
      TableMapFresh(cs[..|cs| - 1], k);
    }
  }

  /** The foreign keys `fs` declares, each under its name. */
  function ForeignKeyMap(fs: seq<ForeignKeyCreate>): map<string, ForeignKeyCreate> {
    if fs == [] then map[] else ForeignKeyMap(fs[..|fs| - 1])[fs[|fs| - 1].name := fs[|fs| - 1]]
  }

  lemma {:induction false} ForeignKeyMapSpec(fs: seq<ForeignKeyCreate>)
    ensures forall i :: 0 <= i < |fs| ==> fs[i].name in ForeignKeyMap(fs)
    ensures forall k :: k in ForeignKeyMap(fs) ==> exists i :: 0 <= i < |fs| && fs[i].name == k && ForeignKeyMap(fs)[k] == fs[i]
  {
    if fs != [] {
      var n := |fs| - 1;
      ForeignKeyMapSpec(fs[..n]);
      assert forall i :: 0 <= i < n ==> fs[..n][i] == fs[i];
    }
  }

  /** A key no element of `fs` carries is not among those of `ForeignKeyMap(fs)`. */
  lemma {:induction false} ForeignKeyMapFresh(fs: seq<ForeignKeyCreate>, k: string)
    requires forall i :: 0 <= i < |fs| ==> fs[i].name != k
    ensures k !in ForeignKeyMap(fs)
  {
    if fs != [] {
      ForeignKeyMapFresh(fs[..|fs| - 1], k);
    }
  }

  /** The indexes `xs` declares, each under its name. */
  function IndexMap(xs: seq<IndexCreate>): map<string, IndexCreate> {
    if xs == [] then map[] else IndexMap(xs[..|xs| - 1])[xs[|xs| - 1].name := xs[|xs| - 1]]
  }

  lemma {:induction false} IndexMapSpec(xs: seq<IndexCreate>)
    ensures forall i :: 0 <= i < |xs| ==> xs[i].name in IndexMap(xs)
    ensures forall k :: k in IndexMap(xs) ==> exists i :: 0 <= i < |xs| && xs[i].name == k && IndexMap(xs)[k] == xs[i]
  {
    if xs != [] {
      var n := |xs| - 1;
      IndexMapSpec(xs[..n]);
      assert forall i :: 0 <= i < n ==> xs[..n][i] == xs[i];
    }
  }

  /** A key no element of `xs` carries is not among those of `IndexMap(xs)`. */
  lemma {:induction false} IndexMapFresh(xs: seq<IndexCreate>, k: string)
    requires forall i :: 0 <= i < |xs| ==> xs[i].name != k
    ensures k !in IndexMap(xs)
  {
    if xs != [] {
      IndexMapFresh(xs[..|xs| - 1], k);
    }
  }

  function DroppedForeignKeys(ds: seq<ForeignKeyDrop>): set<string> {
    if ds == [] then {} else DroppedForeignKeys(ds[..|ds| - 1]) + {ds[|ds| - 1].name}
  }

  lemma {:induction false} DroppedForeignKeysSpec(ds: seq<ForeignKeyDrop>)
    ensures forall i :: 0 <= i < |ds| ==> ds[i].name in DroppedForeignKeys(ds)
    ensures forall x :: x in DroppedForeignKeys(ds) ==> exists i :: 0 <= i < |ds| && ds[i].name == x
  {
    if ds != [] {
      var n := |ds| - 1;
      DroppedForeignKeysSpec(ds[..n]);
      assert forall i :: 0 <= i < n ==> ds[..n][i] == ds[i];
    }
  }

  /** A key no element of `ds` carries is not among those of `DroppedForeignKeys(ds)`. */
  lemma {:induction false} DroppedForeignKeysFresh(ds: seq<ForeignKeyDrop>, k: string)
    requires forall i :: 0 <= i < |ds| ==> ds[i].name != k
    ensures k !in DroppedForeignKeys(ds)
  {
    if ds != [] {
      DroppedForeignKeysFresh(ds[..|ds| - 1], k);
    }
  }

  function DroppedIndexes(ds: seq<IndexDrop>): set<string> {
    if ds == [] then {} else DroppedIndexes(ds[..|ds| - 1]) + {ds[|ds| - 1].name}
  }

  lemma {:induction false} DroppedIndexesSpec(ds: seq<IndexDrop>)
    ensures forall i :: 0 <= i < |ds| ==> ds[i].name in DroppedIndexes(ds)
    ensures forall x :: x in DroppedIndexes(ds) ==> exists i :: 0 <= i < |ds| && ds[i].name == x
  {
    if ds != [] {
      var n := |ds| - 1;
      DroppedIndexesSpec(ds[..n]);
      assert forall i :: 0 <= i < n ==> ds[..n][i] == ds[i];
    }
  }

  /** A key no element of `ds` carries is not among those of `DroppedIndexes(ds)`. */
  lemma {:induction false} DroppedIndexesFresh(ds: seq<IndexDrop>, k: string)
    requires forall i :: 0 <= i < |ds| ==> ds[i].name != k
    ensures k !in DroppedIndexes(ds)
  {
    if ds != [] {
      DroppedIndexesFresh(ds[..|ds| - 1], k);
    }
  }

  function DroppedTables(ds: seq<TableDrop>): set<TableId> {
    if ds == [] then {} else DroppedTables(ds[..|ds| - 1]) + {ds[|ds| - 1].table}
  }

  lemma {:induction false} DroppedTablesSpec(ds: seq<TableDrop>)
    ensures forall i :: 0 <= i < |ds| ==> ds[i].table in DroppedTables(ds)
    ensures forall x :: x in DroppedTables(ds) ==> exists i :: 0 <= i < |ds| && ds[i].table == x
  {
    if ds != [] {
      var n := |ds| - 1;
      DroppedTablesSpec(ds[..n]);
      assert forall i :: 0 <= i < n ==> ds[..n][i] == ds[i];
    }
  }

  /** A key no element of `ds` carries is not among those of `DroppedTables(ds)`. */
  lemma {:induction false} DroppedTablesFresh(ds: seq<TableDrop>, k: TableId)
    requires forall i :: 0 <= i < |ds| ==> ds[i].table != k
    ensures k !in DroppedTables(ds)
  {
    if ds != [] {
      DroppedTablesFresh(ds[..|ds| - 1], k);
    }
  }

  function DroppedTypes(ds: seq<TypeDrop>): set<string> {
    if ds == [] then {} else DroppedTypes(ds[..|ds| - 1]) + {ds[|ds| - 1].name}
  }

  lemma {:induction false} DroppedTypesSpec(ds: seq<TypeDrop>)
    ensures forall i :: 0 <= i < |ds| ==> ds[i].name in DroppedTypes(ds)
    ensures forall x :: x in DroppedTypes(ds) ==> exists i :: 0 <= i < |ds| && ds[i].name == x
  {
    if ds != [] {
      var n := |ds| - 1;
      DroppedTypesSpec(ds[..n]);
      assert forall i :: 0 <= i < n ==> ds[..n][i] == ds[i];
    }
  }

  /** A key no element of `ds` carries is not among those of `DroppedTypes(ds)`. */
  lemma {:induction false} DroppedTypesFresh(ds: seq<TypeDrop>, k: string)
    requires forall i :: 0 <= i < |ds| ==> ds[i].name != k
    ensures k !in DroppedTypes(ds)
  {
    if ds != [] {
      DroppedTypesFresh(ds[..|ds| - 1], k);
    }
  }

  // ------------------------------------------------ the runs of whole stages

  lemma MapUnionUpdate<K, V>(m: map<K, V>, n: map<K, V>, k: K, v: V)
    ensures (m + n)[k := v] == m + n[k := v]
  {
  }

  lemma MapMinusTwice<K, V>(m: map<K, V>, ks: set<K>, k: K)
    ensures m - ks - {k} == m - (ks + {k})
  {
  }

  /** A foreign key between existing tables whose name is free is added as declared. */
  lemma AddForeignKeyOk(b: Backend, s: Schema, f: ForeignKeyCreate)
    requires b != Sqlite && f.from in s.tables && f.to in s.tables && f.name !in s.foreignKeys
    ensures Apply(b, s, CreateForeignKey(f)) == Ok(s.(foreignKeys := s.foreignKeys[f.name := f]))
  {
  }

  /** An existing foreign key dropped from the table it is declared on is removed. */
  lemma RemoveForeignKeyOk(b: Backend, s: Schema, d: ForeignKeyDrop)
    requires b != Sqlite && d.name in s.foreignKeys && s.foreignKeys[d.name].from == d.table
    ensures Apply(b, s, DropForeignKey(d)) == Ok(s.(foreignKeys := s.foreignKeys - {d.name}))
  {
  }

  /** An index on an existing table whose name is free is added as declared. */
  lemma AddIndexOk(b: Backend, s: Schema, x: IndexCreate)
    requires x.table in s.tables && x.name !in s.indexes
    ensures Apply(b, s, CreateIndex(x)) == Ok(s.(indexes := s.indexes[x.name := x]))
  {
  }

  /** An existing index dropped from the table it is declared on is removed. */
  lemma RemoveIndexOk(b: Backend, s: Schema, d: IndexDrop)
    requires d.name in s.indexes && s.indexes[d.name].table == d.table
    ensures Apply(b, s, DropIndex(d)) == Ok(s.(indexes := s.indexes - {d.name}))
  {
  }

  /** A run whose prefix succeeded and whose last statement is accepted succeeds. */
  lemma ExecLastOk(b: Backend, s: Schema, steps: seq<Step>, mid: Schema, next: Schema)
    requires steps != [] && Exec(b, s, steps[..|steps| - 1]) == Run(mid, Pass)
    requires Apply(b, mid, steps[|steps| - 1]) == Ok(next)
    ensures Exec(b, s, steps) == Run(next, Pass)
  {
  }

  /** The demands of `CreateTypesRun` hold of every prefix of the list. */
  lemma {:induction false} CreateTypesPrefix(s: Schema, ts: seq<TypeCreate>, n: nat)
    requires n <= |ts|
    requires forall i, j :: 0 <= i < j < |ts| ==> ts[i].name != ts[j].name
    requires forall i :: 0 <= i < |ts| ==> ts[i].name !in s.types
    ensures forall i, j :: 0 <= i < j < |ts[..n]| ==> ts[..n][i].name != ts[..n][j].name
    ensures forall i :: 0 <= i < |ts[..n]| ==> ts[..n][i].name !in s.types
  {
  }

  /** Creating types with distinct names none of which exists adds exactly those names. */
  lemma {:induction false} CreateTypesRun(s: Schema, ts: seq<TypeCreate>)
    requires forall i, j :: 0 <= i < j < |ts| ==> ts[i].name != ts[j].name
    requires forall i :: 0 <= i < |ts| ==> ts[i].name !in s.types
    ensures Exec(Postgres, s, TypeSteps(ts)) == Run(s.(types := s.types + TypeNames(ts)), Pass)
  {
    if ts != [] {
      var n := |ts| - 1;
      CreateTypesPrefix(s, ts, n);
      CreateTypesRun(s, ts[..n]);
      TypeNamesFresh(ts[..n], ts[n].name);
      CreateLastType(s, ts);
    }
  }

  /** The step of `CreateTypesRun` from all but the last type to all of them. */
  lemma {:induction false} CreateLastType(s: Schema, ts: seq<TypeCreate>)
    requires ts != []
    requires Exec(Postgres, s, TypeSteps(ts[..|ts| - 1])) ==
      Run(s.(types := s.types + TypeNames(ts[..|ts| - 1])), Pass)
    requires ts[|ts| - 1].name !in s.types + TypeNames(ts[..|ts| - 1])
    ensures Exec(Postgres, s, TypeSteps(ts)) == Run(s.(types := s.types + TypeNames(ts)), Pass)
  {
    var n, steps := |ts| - 1, TypeSteps(ts);
    assert steps[..n] == TypeSteps(ts[..n]) && steps[n] == CreateType(ts[n]);
    var mid := s.(types := s.types + TypeNames(ts[..n]));
    var next := mid.(types := mid.types + {ts[n].name});
    assert Apply(Postgres, mid, steps[n]) == Ok(next);
    ExecLastOk(Postgres, s, steps, mid, next);
  }

  /** The demands of `CreateTablesRun` hold of every prefix of the list. */
  lemma {:induction false} CreateTablesPrefix(b: Backend, s: Schema, cs: seq<TableCreate>, n: nat)
    requires n <= |cs|
    requires forall i, j :: 0 <= i < j < |cs| ==> cs[i].table != cs[j].table
    requires forall i :: 0 <= i < |cs| ==> cs[i].table !in s.tables
    requires b == Postgres ==> forall i :: 0 <= i < |cs| ==> UsedTypes(cs[i]) <= s.types
    ensures forall i, j :: 0 <= i < j < |cs[..n]| ==> cs[..n][i].table != cs[..n][j].table
    ensures forall i :: 0 <= i < |cs[..n]| ==> cs[..n][i].table !in s.tables
    ensures b == Postgres ==> forall i :: 0 <= i < |cs[..n]| ==> UsedTypes(cs[..n][i]) <= s.types
  {
  }

  /** Creating tables for distinct modules none of which has a table adds exactly those
      tables, provided on Postgres that the types of their columns exist. */
  lemma {:induction false} CreateTablesRun(b: Backend, s: Schema, cs: seq<TableCreate>)
    requires forall i, j :: 0 <= i < j < |cs| ==> cs[i].table != cs[j].table
    requires forall i :: 0 <= i < |cs| ==> cs[i].table !in s.tables
    requires b == Postgres ==> forall i :: 0 <= i < |cs| ==> UsedTypes(cs[i]) <= s.types
    ensures Exec(b, s, TableSteps(cs)) == Run(s.(tables := s.tables + TableMap(cs)), Pass)
  {
    if cs != [] {
      var n := |cs| - 1;
      CreateTablesPrefix(b, s, cs, n);
      CreateTablesRun(b, s, cs[..n]);
      TableMapFresh(cs[..n], cs[n].table);
      CreateLastTable(b, s, cs);
    }
  }

  /** The step of `CreateTablesRun` from all but the last table to all of them. */
  lemma {:induction false} CreateLastTable(b: Backend, s: Schema, cs: seq<TableCreate>)
    requires cs != []
    requires Exec(b, s, TableSteps(cs[..|cs| - 1])) ==
      Run(s.(tables := s.tables + TableMap(cs[..|cs| - 1])), Pass)
    requires cs[|cs| - 1].table !in s.tables && cs[|cs| - 1].table !in TableMap(cs[..|cs| - 1])
    requires b == Postgres ==> UsedTypes(cs[|cs| - 1]) <= s.types
    ensures Exec(b, s, TableSteps(cs)) == Run(s.(tables := s.tables + TableMap(cs)), Pass)
  {
    var n, steps := |cs| - 1, TableSteps(cs);
    assert steps[..n] == TableSteps(cs[..n]) && steps[n] == CreateTable(cs[n]);
    var mid := s.(tables := s.tables + TableMap(cs[..n]));
    var next := mid.(tables := mid.tables[cs[n].table := cs[n]]);
    assert Apply(b, mid, steps[n]) == Ok(next);
    ExecLastOk(b, s, steps, mid, next);
    MapUnionUpdate(s.tables, TableMap(cs[..n]), cs[n].table, cs[n]);
  }

  /** The demands of `CreateForeignKeysRun` hold of every prefix of the list. */
  lemma {:induction false} CreateForeignKeysPrefix(s: Schema, fs: seq<ForeignKeyCreate>, n: nat)
    requires n <= |fs|
    requires forall i, j :: 0 <= i < j < |fs| ==> fs[i].name != fs[j].name
    requires forall i :: 0 <= i < |fs| ==> fs[i].name !in s.foreignKeys
    requires forall i :: 0 <= i < |fs| ==> fs[i].from in s.tables && fs[i].to in s.tables
    ensures forall i, j :: 0 <= i < j < |fs[..n]| ==> fs[..n][i].name != fs[..n][j].name
    ensures forall i :: 0 <= i < |fs[..n]| ==> fs[..n][i].name !in s.foreignKeys
    ensures forall i :: 0 <= i < |fs[..n]| ==> fs[..n][i].from in s.tables && fs[..n][i].to in s.tables
  {
  }

  /** Adding foreign keys with distinct names none of which exists, between existing
      tables, adds exactly those foreign keys. */
  lemma {:induction false} CreateForeignKeysRun(b: Backend, s: Schema, fs: seq<ForeignKeyCreate>)
    requires b != Sqlite
    requires forall i, j :: 0 <= i < j < |fs| ==> fs[i].name != fs[j].name
    requires forall i :: 0 <= i < |fs| ==> fs[i].name !in s.foreignKeys
    requires forall i :: 0 <= i < |fs| ==> fs[i].from in s.tables && fs[i].to in s.tables
    ensures Exec(b, s, ForeignKeySteps(fs)) ==
      Run(s.(foreignKeys := s.foreignKeys + ForeignKeyMap(fs)), Pass)
  {
    if fs != [] {
      var n := |fs| - 1;
      CreateForeignKeysPrefix(s, fs, n);
      CreateForeignKeysRun(b, s, fs[..n]);
      ForeignKeyMapFresh(fs[..n], fs[n].name);
      CreateLastForeignKey(b, s, fs);
    }
  }

  /** The step of `CreateForeignKeysRun` from all but the last foreign key to all of them. */
  lemma {:induction false} CreateLastForeignKey(b: Backend, s: Schema, fs: seq<ForeignKeyCreate>)
    requires b != Sqlite && fs != []
    requires Exec(b, s, ForeignKeySteps(fs[..|fs| - 1])) ==
      Run(s.(foreignKeys := s.foreignKeys + ForeignKeyMap(fs[..|fs| - 1])), Pass)
    requires fs[|fs| - 1].name !in s.foreignKeys && fs[|fs| - 1].name !in ForeignKeyMap(fs[..|fs| - 1])
    requires fs[|fs| - 1].from in s.tables && fs[|fs| - 1].to in s.tables
    ensures Exec(b, s, ForeignKeySteps(fs)) ==
      Run(s.(foreignKeys := s.foreignKeys + ForeignKeyMap(fs)), Pass)
  {
    var n, steps := |fs| - 1, ForeignKeySteps(fs);
    assert steps[..n] == ForeignKeySteps(fs[..n]) && steps[n] == CreateForeignKey(fs[n]);
    var mid := s.(foreignKeys := s.foreignKeys + ForeignKeyMap(fs[..n]));
    var next := mid.(foreignKeys := mid.foreignKeys[fs[n].name := fs[n]]);
    AddForeignKeyOk(b, mid, fs[n]);
    ExecLastOk(b, s, steps, mid, next);
    MapUnionUpdate(s.foreignKeys, ForeignKeyMap(fs[..n]), fs[n].name, fs[n]);
  }

  /** The demands of `CreateIndexesRun` hold of every prefix of the list. */
  lemma {:induction false} CreateIndexesPrefix(s: Schema, xs: seq<IndexCreate>, n: nat)
    requires n <= |xs|
    requires forall i, j :: 0 <= i < j < |xs| ==> xs[i].name != xs[j].name
    requires forall i :: 0 <= i < |xs| ==> xs[i].name !in s.indexes
    requires forall i :: 0 <= i < |xs| ==> xs[i].table in s.tables
    ensures forall i, j :: 0 <= i < j < |xs[..n]| ==> xs[..n][i].name != xs[..n][j].name
    ensures forall i :: 0 <= i < |xs[..n]| ==> xs[..n][i].name !in s.indexes
    ensures forall i :: 0 <= i < |xs[..n]| ==> xs[..n][i].table in s.tables
  {
  }

  /** Creating indexes with distinct names none of which exists, on existing tables, adds
      exactly those indexes. */
  lemma {:induction false} CreateIndexesRun(b: Backend, s: Schema, xs: seq<IndexCreate>)
    requires forall i, j :: 0 <= i < j < |xs| ==> xs[i].name != xs[j].name
    requires forall i :: 0 <= i < |xs| ==> xs[i].name !in s.indexes
    requires forall i :: 0 <= i < |xs| ==> xs[i].table in s.tables
    ensures Exec(b, s, IndexSteps(xs)) == Run(s.(indexes := s.indexes + IndexMap(xs)), Pass)
  {
    if xs != [] {
      var n := |xs| - 1;
      CreateIndexesPrefix(s, xs, n);
      CreateIndexesRun(b, s, xs[..n]);
      IndexMapFresh(xs[..n], xs[n].name);
      CreateLastIndex(b, s, xs);
    }
  }

  /** The step of `CreateIndexesRun` from all but the last index to all of them. */
  lemma {:induction false} CreateLastIndex(b: Backend, s: Schema, xs: seq<IndexCreate>)
    requires xs != []
    requires Exec(b, s, IndexSteps(xs[..|xs| - 1])) ==
      Run(s.(indexes := s.indexes + IndexMap(xs[..|xs| - 1])), Pass)
    requires xs[|xs| - 1].name !in s.indexes && xs[|xs| - 1].name !in IndexMap(xs[..|xs| - 1])
    requires xs[|xs| - 1].table in s.tables
    ensures Exec(b, s, IndexSteps(xs)) == Run(s.(indexes := s.indexes + IndexMap(xs)), Pass)
  {
    var n, steps := |xs| - 1, IndexSteps(xs);
    assert steps[..n] == IndexSteps(xs[..n]) && steps[n] == CreateIndex(xs[n]);
    var mid := s.(indexes := s.indexes + IndexMap(xs[..n]));
    var next := mid.(indexes := mid.indexes[xs[n].name := xs[n]]);
    AddIndexOk(b, mid, xs[n]);
    ExecLastOk(b, s, steps, mid, next);
    MapUnionUpdate(s.indexes, IndexMap(xs[..n]), xs[n].name, xs[n]);
  }

  /** The demands of `DropForeignKeysRun` hold of every prefix of the list. */
  lemma {:induction false} DropForeignKeysPrefix(s: Schema, ds: seq<ForeignKeyDrop>, n: nat)
    requires n <= |ds|
    requires forall i, j :: 0 <= i < j < |ds| ==> ds[i].name != ds[j].name
    requires forall i :: 0 <= i < |ds| ==>
      ds[i].name in s.foreignKeys && s.foreignKeys[ds[i].name].from == ds[i].table
    ensures forall i, j :: 0 <= i < j < |ds[..n]| ==> ds[..n][i].name != ds[..n][j].name
    ensures forall i :: 0 <= i < |ds[..n]| ==>
      ds[..n][i].name in s.foreignKeys && s.foreignKeys[ds[..n][i].name].from == ds[..n][i].table
  {
  }

  /** Dropping distinct foreign keys, each of which exists on the table the drop names,
      removes exactly those foreign keys. */
  lemma {:induction false} DropForeignKeysRun(b: Backend, s: Schema, ds: seq<ForeignKeyDrop>)
    requires b != Sqlite
    requires forall i, j :: 0 <= i < j < |ds| ==> ds[i].name != ds[j].name
    requires forall i :: 0 <= i < |ds| ==>
      ds[i].name in s.foreignKeys && s.foreignKeys[ds[i].name].from == ds[i].table
    ensures Exec(b, s, DropForeignKeySteps(ds)) ==
      Run(s.(foreignKeys := s.foreignKeys - DroppedForeignKeys(ds)), Pass)
  {
    if ds != [] {
      var n := |ds| - 1;
      DropForeignKeysPrefix(s, ds, n);
      DropForeignKeysRun(b, s, ds[..n]);
      DroppedForeignKeysFresh(ds[..n], ds[n].name);
      DropLastForeignKey(b, s, ds);
    }
  }

  /** The step of `DropForeignKeysRun` from all but the last drop to all of them. */
  lemma {:induction false} DropLastForeignKey(b: Backend, s: Schema, ds: seq<ForeignKeyDrop>)
    requires b != Sqlite && ds != []
    requires Exec(b, s, DropForeignKeySteps(ds[..|ds| - 1])) ==
      Run(s.(foreignKeys := s.foreignKeys - DroppedForeignKeys(ds[..|ds| - 1])), Pass)
    requires ds[|ds| - 1].name in s.foreignKeys && ds[|ds| - 1].name !in DroppedForeignKeys(ds[..|ds| - 1])
    requires s.foreignKeys[ds[|ds| - 1].name].from == ds[|ds| - 1].table
    ensures Exec(b, s, DropForeignKeySteps(ds)) ==
      Run(s.(foreignKeys := s.foreignKeys - DroppedForeignKeys(ds)), Pass)
  {
    var n, steps := |ds| - 1, DropForeignKeySteps(ds);
    assert steps[..n] == DropForeignKeySteps(ds[..n]) && steps[n] == DropForeignKey(ds[n]);
    var mid := s.(foreignKeys := s.foreignKeys - DroppedForeignKeys(ds[..n]));
    var next := mid.(foreignKeys := mid.foreignKeys - {ds[n].name});
    RemoveForeignKeyOk(b, mid, ds[n]);
    ExecLastOk(b, s, steps, mid, next);
    MapMinusTwice(s.foreignKeys, DroppedForeignKeys(ds[..n]), ds[n].name);
  }

  /** The demands of `DropIndexesRun` hold of every prefix of the list. */
  lemma {:induction false} DropIndexesPrefix(s: Schema, ds: seq<IndexDrop>, n: nat)
    requires n <= |ds|
    requires forall i, j :: 0 <= i < j < |ds| ==> ds[i].name != ds[j].name
    requires forall i :: 0 <= i < |ds| ==>
      ds[i].name in s.indexes && s.indexes[ds[i].name].table == ds[i].table
    ensures forall i, j :: 0 <= i < j < |ds[..n]| ==> ds[..n][i].name != ds[..n][j].name
    ensures forall i :: 0 <= i < |ds[..n]| ==>
      ds[..n][i].name in s.indexes && s.indexes[ds[..n][i].name].table == ds[..n][i].table
  {
  }

  /** Dropping distinct indexes, each of which exists on the table the drop names, removes
      exactly those indexes. */
  lemma {:induction false} DropIndexesRun(b: Backend, s: Schema, ds: seq<IndexDrop>)
    requires forall i, j :: 0 <= i < j < |ds| ==> ds[i].name != ds[j].name
    requires forall i :: 0 <= i < |ds| ==>
      ds[i].name in s.indexes && s.indexes[ds[i].name].table == ds[i].table
    ensures Exec(b, s, DropIndexSteps(ds)) == Run(s.(indexes := s.indexes - DroppedIndexes(ds)), Pass)
  {
    if ds != [] {
      var n := |ds| - 1;
      DropIndexesPrefix(s, ds, n);
      DropIndexesRun(b, s, ds[..n]);
      DroppedIndexesFresh(ds[..n], ds[n].name);
      DropLastIndex(b, s, ds);
    }
  }

  /** The step of `DropIndexesRun` from all but the last drop to all of them. */
  lemma {:induction false} DropLastIndex(b: Backend, s: Schema, ds: seq<IndexDrop>)
    requires ds != []
    requires Exec(b, s, DropIndexSteps(ds[..|ds| - 1])) ==
      Run(s.(indexes := s.indexes - DroppedIndexes(ds[..|ds| - 1])), Pass)
    requires ds[|ds| - 1].name in s.indexes && ds[|ds| - 1].name !in DroppedIndexes(ds[..|ds| - 1])
    requires s.indexes[ds[|ds| - 1].name].table == ds[|ds| - 1].table
    ensures Exec(b, s, DropIndexSteps(ds)) == Run(s.(indexes := s.indexes - DroppedIndexes(ds)), Pass)
  {
    var n, steps := |ds| - 1, DropIndexSteps(ds);
    assert steps[..n] == DropIndexSteps(ds[..n]) && steps[n] == DropIndex(ds[n]);
    var mid := s.(indexes := s.indexes - DroppedIndexes(ds[..n]));
    var next := mid.(indexes := mid.indexes - {ds[n].name});
    RemoveIndexOk(b, mid, ds[n]);
    ExecLastOk(b, s, steps, mid, next);
    MapMinusTwice(s.indexes, DroppedIndexes(ds[..n]), ds[n].name);
  }

  /** The demands of `DropTablesRun` hold of every prefix of the list. */
  lemma {:induction false} DropTablesPrefix(s: Schema, ds: seq<TableDrop>, n: nat)
    requires n <= |ds|
    requires forall i, j :: 0 <= i < j < |ds| ==> ds[i].table != ds[j].table
    requires forall i :: 0 <= i < |ds| ==> ds[i].table in s.tables
    ensures forall i, j :: 0 <= i < j < |ds[..n]| ==> ds[..n][i].table != ds[..n][j].table
    ensures forall i :: 0 <= i < |ds[..n]| ==> ds[..n][i].table in s.tables
  {
  }

  /** Once no foreign key and no index is left, dropping distinct existing tables removes
      exactly those tables. */
  lemma {:induction false} DropTablesRun(b: Backend, s: Schema, ds: seq<TableDrop>)
    requires forall i, j :: 0 <= i < j < |ds| ==> ds[i].table != ds[j].table
    requires forall i :: 0 <= i < |ds| ==> ds[i].table in s.tables
    requires s.foreignKeys == map[] && s.indexes == map[]
    ensures Exec(b, s, DropTableSteps(ds)) == Run(s.(tables := s.tables - DroppedTables(ds)), Pass)
  {
    if ds != [] {
      var n := |ds| - 1;
      DropTablesPrefix(s, ds, n);
      DropTablesRun(b, s, ds[..n]);
      DroppedTablesFresh(ds[..n], ds[n].table);
      DropLastTable(b, s, ds);
    }
  }

  /** The step of `DropTablesRun` from all but the last drop to all of them. */
  lemma {:induction false} DropLastTable(b: Backend, s: Schema, ds: seq<TableDrop>)
    requires ds != [] && s.foreignKeys == map[] && s.indexes == map[]
    requires Exec(b, s, DropTableSteps(ds[..|ds| - 1])) ==
      Run(s.(tables := s.tables - DroppedTables(ds[..|ds| - 1])), Pass)
    requires ds[|ds| - 1].table in s.tables && ds[|ds| - 1].table !in DroppedTables(ds[..|ds| - 1])
    ensures Exec(b, s, DropTableSteps(ds)) == Run(s.(tables := s.tables - DroppedTables(ds)), Pass)
  {
    var n, steps := |ds| - 1, DropTableSteps(ds);
    assert steps[..n] == DropTableSteps(ds[..n]) && steps[n] == DropTable(ds[n]);
    var mid := s.(tables := s.tables - DroppedTables(ds[..n]));
    var next := s.(tables := s.tables - DroppedTables(ds));
    assert !Referenced(mid, ds[n].table);
    assert WithoutTable(mid, ds[n].table) == next;
    assert Apply(b, mid, steps[n]) == Ok(next);
    ExecLastOk(b, s, steps, mid, next);
  }

  /** The demands of `DropTypesRun` hold of every prefix of the list. */
  lemma {:induction false} DropTypesPrefix(s: Schema, ds: seq<TypeDrop>, n: nat)
    requires n <= |ds|
    requires forall i, j :: 0 <= i < j < |ds| ==> ds[i].name != ds[j].name
    requires forall i :: 0 <= i < |ds| ==> ds[i].name in s.types
    ensures forall i, j :: 0 <= i < j < |ds[..n]| ==> ds[..n][i].name != ds[..n][j].name
    ensures forall i :: 0 <= i < |ds[..n]| ==> ds[..n][i].name in s.types
  {
  }

  /** On Postgres, once no table is left, dropping distinct existing types removes exactly
      those types. */
  lemma {:induction false} DropTypesRun(s: Schema, ds: seq<TypeDrop>)
    requires forall i, j :: 0 <= i < j < |ds| ==> ds[i].name != ds[j].name
    requires forall i :: 0 <= i < |ds| ==> ds[i].name in s.types
    requires s.tables == map[]
    ensures Exec(Postgres, s, DropTypeSteps(ds)) == Run(s.(types := s.types - DroppedTypes(ds)), Pass)
  {
    if ds != [] {
      var n := |ds| - 1;
      DropTypesPrefix(s, ds, n);
      DropTypesRun(s, ds[..n]);
      DroppedTypesFresh(ds[..n], ds[n].name);
      DropLastType(s, ds);
    }
  }

  /** The step of `DropTypesRun` from all but the last drop to all of them. */
  lemma {:induction false} DropLastType(s: Schema, ds: seq<TypeDrop>)
    requires ds != [] && s.tables == map[]
    requires Exec(Postgres, s, DropTypeSteps(ds[..|ds| - 1])) ==
      Run(s.(types := s.types - DroppedTypes(ds[..|ds| - 1])), Pass)
    requires ds[|ds| - 1].name in s.types && ds[|ds| - 1].name !in DroppedTypes(ds[..|ds| - 1])
    ensures Exec(Postgres, s, DropTypeSteps(ds)) == Run(s.(types := s.types - DroppedTypes(ds)), Pass)
  {
    var n, steps := |ds| - 1, DropTypeSteps(ds);
    assert steps[..n] == DropTypeSteps(ds[..n]) && steps[n] == DropType(ds[n]);
    var mid := s.(types := s.types - DroppedTypes(ds[..n]));
    var next := mid.(types := mid.types - {ds[n].name});
    assert !TypeInUse(mid, ds[n].name);
    assert Apply(Postgres, mid, steps[n]) == Ok(next);
    ExecLastOk(Postgres, s, steps, mid, next);
  }
}
