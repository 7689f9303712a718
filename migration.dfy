/**
  The initial migration: `up` creates the enumeration types (Postgres only), the tables,
  the foreign keys (all backends but SQLite) and the indexes; `down` drops the foreign keys
  (all backends but SQLite), the indexes, the tables and the types (Postgres only). Each
  stage is a loop that sends one statement per element of its list to the schema manager
  and returns the first error.

  The run of `up` and `down` is proved for any `Plan` (the eight lists the two functions
  assemble) that is well formed and whose drops mirror its creates; `Declared` is the plan
  of the migration, and `DeclaredWellFormed` shows that it is one.
*/
module Migration {
  import opened Wrappers
  import opened Catalogue
  import opened Ddl
  import opened Enums

  /** The statement lists `up` and `down` build before their loops. */
  datatype Plan = Plan(
    types: seq<TypeCreate>,
    tables: seq<TableCreate>,
    foreignKeys: seq<ForeignKeyCreate>,
    indexes: seq<IndexCreate>,
    dropForeignKeys: seq<ForeignKeyDrop>,
    dropIndexes: seq<IndexDrop>,
    dropTables: seq<TableDrop>,
    dropTypes: seq<TypeDrop>)

  /** The lists of the initial migration. */
  const Declared: Plan := Plan(
    CreateTypeStmts, CreateTableStmts, CreateForeignKeyStmts, CreateIndexStmts,
    DropForeignKeyStmts, DropIndexStmts, DropTableStmts, DropTypeStmts)

  /** The creates of a plan fit together: names are distinct, every foreign key joins two
      tables of the plan, every index is on a table of the plan and every enumeration type
      a column uses is a type of the plan. */
  ghost predicate WellFormed(p: Plan) {
    (forall i, j :: 0 <= i < j < |p.types| ==> p.types[i].name != p.types[j].name) &&
    (forall i, j :: 0 <= i < j < |p.tables| ==> p.tables[i].table != p.tables[j].table) &&
    (forall i, j :: 0 <= i < j < |p.foreignKeys| ==> p.foreignKeys[i].name != p.foreignKeys[j].name) &&
    (forall i, j :: 0 <= i < j < |p.indexes| ==> p.indexes[i].name != p.indexes[j].name) &&
    (forall i :: 0 <= i < |p.tables| ==> UsedTypes(p.tables[i]) <= TypeNames(p.types)) &&
    (forall i :: 0 <= i < |p.foreignKeys| ==>
      p.foreignKeys[i].from in TableMap(p.tables) && p.foreignKeys[i].to in TableMap(p.tables)) &&
    (forall i :: 0 <= i < |p.indexes| ==> p.indexes[i].table in TableMap(p.tables))
  }

  /** The drops of a plan undo its creates, one for one and position by position. */
  ghost predicate Mirrors(p: Plan) {
    |p.dropForeignKeys| == |p.foreignKeys| &&
    (forall i :: 0 <= i < |p.foreignKeys| ==> p.dropForeignKeys[i] == ForeignKeyUndo(p.foreignKeys[i])) &&
    |p.dropIndexes| == |p.indexes| &&
    (forall i :: 0 <= i < |p.indexes| ==> p.dropIndexes[i] == IndexUndo(p.indexes[i])) &&
    |p.dropTables| == |p.tables| &&
    (forall i :: 0 <= i < |p.tables| ==> p.dropTables[i].table == p.tables[i].table) &&
    |p.dropTypes| == |p.types| &&
    (forall i :: 0 <= i < |p.types| ==> p.dropTypes[i].name == p.types[i].name)
  }

  // ------------------------------------------------ the statements `up` and `down` send

  function TypeStage(b: Backend, p: Plan): seq<Step> {
    if b == Postgres then TypeSteps(p.types) else []
  }

  function ForeignKeyStage(b: Backend, p: Plan): seq<Step> {
    if b != Sqlite then ForeignKeySteps(p.foreignKeys) else []
  }

  /** Every statement `up` sends on backend `b`, in order. */
  function UpPlan(b: Backend, p: Plan): seq<Step> {
    TypeStage(b, p) + TableSteps(p.tables) + ForeignKeyStage(b, p) + IndexSteps(p.indexes)
  }

  function DropForeignKeyStage(b: Backend, p: Plan): seq<Step> {
    if b != Sqlite then DropForeignKeySteps(p.dropForeignKeys) else []
  }

  function DropTypeStage(b: Backend, p: Plan): seq<Step> {
    if b == Postgres then DropTypeSteps(p.dropTypes) else []
  }

  /** Every statement `down` sends on backend `b`, in order. */
  function DownPlan(b: Backend, p: Plan): seq<Step> {
    DropForeignKeyStage(b, p) + DropIndexSteps(p.dropIndexes) + DropTableSteps(p.dropTables) +
    DropTypeStage(b, p)
  }

  // ------------------------------------------------ the schema between the stages

  function AfterTypes(b: Backend, p: Plan): Schema {
    EmptySchema.(types := if b == Postgres then TypeNames(p.types) else {})
  }

  function AfterTables(b: Backend, p: Plan): Schema {
    AfterTypes(b, p).(tables := TableMap(p.tables))
  }

  function AfterForeignKeys(b: Backend, p: Plan): Schema {
    AfterTables(b, p).(foreignKeys := if b != Sqlite then ForeignKeyMap(p.foreignKeys) else map[])
  }

  /** The schema `up` deploys on backend `b`. */
  function Deployed(b: Backend, p: Plan): Schema {
    AfterForeignKeys(b, p).(indexes := IndexMap(p.indexes))
  }

  // ------------------------------------------------ `up`, stage by stage

  /** Types are created on Postgres only; elsewhere the stage sends nothing. */
  lemma {:induction false} UpTypeStage(b: Backend, p: Plan)
    requires WellFormed(p)
    ensures Exec(b, EmptySchema, TypeStage(b, p)) == Run(AfterTypes(b, p), Pass)
  {
    if b == Postgres {
      CreateTypesRun(EmptySchema, p.types);
      assert EmptySchema.types + TypeNames(p.types) == TypeNames(p.types);
    }
  }

  /** Every table is created, on every backend; on Postgres the types its columns use
      already exist. */
  lemma {:induction false} UpTableStage(b: Backend, p: Plan)
    requires WellFormed(p)
    ensures Exec(b, AfterTypes(b, p), TableSteps(p.tables)) == Run(AfterTables(b, p), Pass)
  {
    CreateTablesRun(b, AfterTypes(b, p), p.tables);
    assert AfterTypes(b, p).tables + TableMap(p.tables) == TableMap(p.tables);
  }

  /** Foreign keys are created on every backend but SQLite, once both their tables exist. */
  lemma {:induction false} UpForeignKeyStage(b: Backend, p: Plan)
    requires WellFormed(p)
    ensures Exec(b, AfterTables(b, p), ForeignKeyStage(b, p)) == Run(AfterForeignKeys(b, p), Pass)
  {
    if b != Sqlite {
      CreateForeignKeysRun(b, AfterTables(b, p), p.foreignKeys);
      assert AfterTables(b, p).foreignKeys + ForeignKeyMap(p.foreignKeys) == ForeignKeyMap(p.foreignKeys);
    }
  }

  /** Indexes are created on every backend, once their tables exist. */
  lemma {:induction false} UpIndexStage(b: Backend, p: Plan)
    requires WellFormed(p)
    ensures Exec(b, AfterForeignKeys(b, p), IndexSteps(p.indexes)) == Run(Deployed(b, p), Pass)
  {
    CreateIndexesRun(b, AfterForeignKeys(b, p), p.indexes);
    assert AfterForeignKeys(b, p).indexes + IndexMap(p.indexes) == IndexMap(p.indexes);
  }

  /** On an empty database, `up` succeeds on every backend and deploys `Deployed(b, p)`. */
  lemma {:induction false} UpDeploys(b: Backend, p: Plan)
    requires WellFormed(p)
    ensures Exec(b, EmptySchema, UpPlan(b, p)) == Run(Deployed(b, p), Pass)
  {
    var t, tb, f := TypeStage(b, p), TableSteps(p.tables), ForeignKeyStage(b, p);
    UpTypeStage(b, p);
    UpTableStage(b, p);
    ExecThen(b, EmptySchema, t, tb, AfterTypes(b, p));
    UpForeignKeyStage(b, p);
    ExecThen(b, EmptySchema, t + tb, f, AfterTables(b, p));
    UpIndexStage(b, p);
    ExecThen(b, EmptySchema, t + tb + f, IndexSteps(p.indexes), AfterForeignKeys(b, p));
  }

  // ------------------------------------------------ `down`, stage by stage

  /** Drops that mirror foreign keys with distinct names have distinct names, each find
      its foreign key on its table, and together name every one of them. */
  lemma {:induction false} ForeignKeyDropsMatch(fs: seq<ForeignKeyCreate>, ds: seq<ForeignKeyDrop>)
    requires forall i, j :: 0 <= i < j < |fs| ==> fs[i].name != fs[j].name
    requires |ds| == |fs| && forall i :: 0 <= i < |fs| ==> ds[i] == ForeignKeyUndo(fs[i])
    ensures forall i, j :: 0 <= i < j < |ds| ==> ds[i].name != ds[j].name
    ensures forall i :: 0 <= i < |ds| ==>
      ds[i].name in ForeignKeyMap(fs) && ForeignKeyMap(fs)[ds[i].name].from == ds[i].table
    ensures ForeignKeyMap(fs).Keys <= DroppedForeignKeys(ds)
  {
    var m := ForeignKeyMap(fs);
    ForeignKeyMapSpec(fs);
    DroppedForeignKeysSpec(ds);
    forall i | 0 <= i < |ds| ensures ds[i].name in m && m[ds[i].name].from == ds[i].table {
      var j :| 0 <= j < |fs| && fs[j].name == fs[i].name && m[fs[i].name] == fs[j];
      assert i == j;
    }
  }

  /** The same for indexes. */
  lemma {:induction false} IndexDropsMatch(xs: seq<IndexCreate>, ds: seq<IndexDrop>)
    requires forall i, j :: 0 <= i < j < |xs| ==> xs[i].name != xs[j].name
    requires |ds| == |xs| && forall i :: 0 <= i < |xs| ==> ds[i] == IndexUndo(xs[i])
    ensures forall i, j :: 0 <= i < j < |ds| ==> ds[i].name != ds[j].name
    ensures forall i :: 0 <= i < |ds| ==> ds[i].name in IndexMap(xs) && IndexMap(xs)[ds[i].name].table == ds[i].table
    ensures IndexMap(xs).Keys <= DroppedIndexes(ds)
  {
    var m := IndexMap(xs);
    IndexMapSpec(xs);
    DroppedIndexesSpec(ds);
    forall i | 0 <= i < |ds| ensures ds[i].name in m && m[ds[i].name].table == ds[i].table {
      var j :| 0 <= j < |xs| && xs[j].name == xs[i].name && m[xs[i].name] == xs[j];
      assert i == j;
    }
  }

  /** Foreign keys are dropped on every backend but SQLite, where none was created. */
  lemma {:induction false} DownForeignKeyStage(b: Backend, p: Plan)
    requires WellFormed(p) && Mirrors(p)
    ensures Exec(b, Deployed(b, p), DropForeignKeyStage(b, p)) ==
      Run(Deployed(b, p).(foreignKeys := map[]), Pass)
  {
    if b != Sqlite {
      var s, ds := Deployed(b, p), p.dropForeignKeys;
      ForeignKeyDropsMatch(p.foreignKeys, ds);
      DropForeignKeysRun(b, s, ds);
      assert s.foreignKeys - DroppedForeignKeys(ds) == map[];
    }
  }

  /** Every index is dropped, on every backend. */
  lemma {:induction false} DownIndexStage(b: Backend, p: Plan)
    requires WellFormed(p) && Mirrors(p)
    ensures Exec(b, Deployed(b, p).(foreignKeys := map[]), DropIndexSteps(p.dropIndexes)) ==
      Run(AfterTables(b, p), Pass)
  {
    var s, ds := Deployed(b, p).(foreignKeys := map[]), p.dropIndexes;
    IndexDropsMatch(p.indexes, ds);
    DropIndexesRun(b, s, ds);
    assert s.indexes - DroppedIndexes(ds) == map[];
  }

  /** Every table is dropped, on every backend, once no foreign key refers to it. */
  lemma {:induction false} DownTableStage(b: Backend, p: Plan)
    requires WellFormed(p) && Mirrors(p)
    ensures Exec(b, AfterTables(b, p), DropTableSteps(p.dropTables)) == Run(AfterTypes(b, p), Pass)
  {
    var s, ds := AfterTables(b, p), p.dropTables;
    TableMapSpec(p.tables);
    DropTablesRun(b, s, ds);
    DroppedTablesSpec(ds);
    assert s.tables - DroppedTables(ds) == map[];
  }

  /** Types are dropped on Postgres only, once no table is left; elsewhere none exists. */
  lemma {:induction false} DownTypeStage(b: Backend, p: Plan)
    requires WellFormed(p) && Mirrors(p)
    ensures Exec(b, AfterTypes(b, p), DropTypeStage(b, p)) == Run(EmptySchema, Pass)
  {
    if b == Postgres {
      var s, ds := AfterTypes(b, p), p.dropTypes;
      TypeNamesSpec(p.types);
      DropTypesRun(s, ds);
      DroppedTypesSpec(ds);
      assert s.types - DroppedTypes(ds) == {};
    }
  }

  /** On the schema `up` deploys, `down` succeeds on every backend and leaves nothing. */
  lemma {:induction false} DownClears(b: Backend, p: Plan)
    requires WellFormed(p) && Mirrors(p)
    ensures Exec(b, Deployed(b, p), DownPlan(b, p)) == Run(EmptySchema, Pass)
  {
    var s, f, x, t := Deployed(b, p), DropForeignKeyStage(b, p), DropIndexSteps(p.dropIndexes),
      DropTableSteps(p.dropTables);
    DownForeignKeyStage(b, p);
    DownIndexStage(b, p);
    ExecThen(b, s, f, x, s.(foreignKeys := map[]));
    DownTableStage(b, p);
    ExecThen(b, s, f + x, t, AfterTables(b, p));
    DownTypeStage(b, p);
    ExecThen(b, s, f + x + t, DropTypeStage(b, p), AfterTypes(b, p));
  }

  /** `down` after `up` returns an empty database to empty, on every backend. */
  lemma {:induction false} UpThenDown(b: Backend, p: Plan)
    requires WellFormed(p) && Mirrors(p)
    ensures Exec(b, EmptySchema, UpPlan(b, p) + DownPlan(b, p)) == Run(EmptySchema, Pass)
  {
    UpDeploys(b, p);
    DownClears(b, p);
    ExecThen(b, EmptySchema, UpPlan(b, p), DownPlan(b, p), Deployed(b, p));
  }

  // ------------------------------------------------ gating and order

  /** The stage of `up` a statement belongs to, and of `down`; 4 for statements the
      function never sends. */
  function UpStage(step: Step): nat {
    match step
    case CreateType(_) => 0
    case CreateTable(_) => 1
    case CreateForeignKey(_) => 2
    case CreateIndex(_) => 3
    case _ => 4
  }

  function DownStage(step: Step): nat {
    match step
    case DropForeignKey(_) => 0
    case DropIndex(_) => 1
    case DropTable(_) => 2
    case DropType(_) => 3
    case _ => 4
  }

  /** The stage of a statement in `up` (when `up` holds) or in `down`. */
  function StageIn(up: bool, step: Step): nat {
    if up then UpStage(step) else DownStage(step)
  }

  /** The stages of `steps` never go back. */
  ghost predicate StagesRise(steps: seq<Step>, up: bool) {
    forall i, j :: 0 <= i < j < |steps| ==> StageIn(up, steps[i]) <= StageIn(up, steps[j])
  }

  /** Every statement of `steps` is of stage `k`. */
  ghost predicate AllOfStage(steps: seq<Step>, up: bool, k: nat) {
    forall i :: 0 <= i < |steps| ==> StageIn(up, steps[i]) == k
  }

  /** Appending statements of a stage no earlier than any so far keeps the stages rising. */
  lemma {:induction false} StagesRiseAppend(xs: seq<Step>, ys: seq<Step>, up: bool, k: nat)
    requires StagesRise(xs, up) && AllOfStage(ys, up, k)
    requires forall i :: 0 <= i < |xs| ==> StageIn(up, xs[i]) <= k
    ensures StagesRise(xs + ys, up)
    ensures forall i :: 0 <= i < |xs + ys| ==> StageIn(up, (xs + ys)[i]) <= k
  {
    var zs := xs + ys;
    forall i, j | 0 <= i < j < |zs| ensures StageIn(up, zs[i]) <= StageIn(up, zs[j]) {
      if j < |xs| {
        assert zs[i] == xs[i] && zs[j] == xs[j];
      } else if i < |xs| {
        assert zs[i] == xs[i] && zs[j] == ys[j - |xs|];
      } else {
        assert zs[i] == ys[i - |xs|] && zs[j] == ys[j - |xs|];
      }
    }
  }

  /** Each of `up`'s four lists holds statements of one stage only. */
  lemma UpStagesOf(b: Backend, p: Plan)
    ensures AllOfStage(TypeStage(b, p), true, 0) && AllOfStage(TableSteps(p.tables), true, 1)
    ensures AllOfStage(ForeignKeyStage(b, p), true, 2) && AllOfStage(IndexSteps(p.indexes), true, 3)
  {
  }

  /** Each of `down`'s four lists holds statements of one stage only. */
  lemma DownStagesOf(b: Backend, p: Plan)
    ensures AllOfStage(DropForeignKeyStage(b, p), false, 0) && AllOfStage(DropIndexSteps(p.dropIndexes), false, 1)
    ensures AllOfStage(DropTableSteps(p.dropTables), false, 2) && AllOfStage(DropTypeStage(b, p), false, 3)
  {
  }

  /** `up` sends all its types, then all its tables, then all its foreign keys, then all its
      indexes, and nothing but these. */
  lemma {:induction false} UpInStageOrder(b: Backend, p: Plan)
    ensures StagesRise(UpPlan(b, p), true)
    ensures forall i :: 0 <= i < |UpPlan(b, p)| ==> UpStage(UpPlan(b, p)[i]) < 4
  {
    var t, tb, f, x := TypeStage(b, p), TableSteps(p.tables), ForeignKeyStage(b, p), IndexSteps(p.indexes);
    UpStagesOf(b, p);
    StagesRiseAppend([], t, true, 0);
    assert [] + t == t;
    StagesRiseAppend(t, tb, true, 1);
    StagesRiseAppend(t + tb, f, true, 2);
    StagesRiseAppend(t + tb + f, x, true, 3);
  }

  /** `down` sends all its foreign key drops, then its index drops, then its table drops,
      then its type drops, and nothing but these. */
  lemma {:induction false} DownInStageOrder(b: Backend, p: Plan)
    ensures StagesRise(DownPlan(b, p), false)
    ensures forall i :: 0 <= i < |DownPlan(b, p)| ==> DownStage(DownPlan(b, p)[i]) < 4
  {
    var f, x, tb, t := DropForeignKeyStage(b, p), DropIndexSteps(p.dropIndexes),
      DropTableSteps(p.dropTables), DropTypeStage(b, p);
    DownStagesOf(b, p);
    StagesRiseAppend([], f, false, 0);
    assert [] + f == f;
    StagesRiseAppend(f, x, false, 1);
    StagesRiseAppend(f + x, tb, false, 2);
    StagesRiseAppend(f + x + tb, t, false, 3);
  }

  /** Which statements `up` sends: a type only on Postgres, a foreign key on every backend
      but SQLite, and every table and index on every backend. */
  lemma {:induction false} UpSends(b: Backend, p: Plan)
    ensures forall t :: CreateType(t) in UpPlan(b, p) <==> b == Postgres && t in p.types
    ensures forall c :: CreateTable(c) in UpPlan(b, p) <==> c in p.tables
    ensures forall f :: CreateForeignKey(f) in UpPlan(b, p) <==> b != Sqlite && f in p.foreignKeys
    ensures forall x :: CreateIndex(x) in UpPlan(b, p) <==> x in p.indexes
  {
    var t, tb, f, x := TypeStage(b, p), TableSteps(p.tables), ForeignKeyStage(b, p), IndexSteps(p.indexes);
    assert UpPlan(b, p) == t + tb + f + x;
    forall ty ensures CreateType(ty) in t <==> b == Postgres && ty in p.types {
      if ty in p.types && b == Postgres {
        var i :| 0 <= i < |p.types| && p.types[i] == ty;
        assert t[i] == CreateType(ty);
      }
    }
    forall c ensures CreateTable(c) in tb <==> c in p.tables {
      if c in p.tables {
        var i :| 0 <= i < |p.tables| && p.tables[i] == c;
        assert tb[i] == CreateTable(c);
      }
    }
    forall fk ensures CreateForeignKey(fk) in f <==> b != Sqlite && fk in p.foreignKeys {
      if fk in p.foreignKeys && b != Sqlite {
        var i :| 0 <= i < |p.foreignKeys| && p.foreignKeys[i] == fk;
        assert f[i] == CreateForeignKey(fk);
      }
    }
    forall ix ensures CreateIndex(ix) in x <==> ix in p.indexes {
      if ix in p.indexes {
        var i :| 0 <= i < |p.indexes| && p.indexes[i] == ix;
        assert x[i] == CreateIndex(ix);
      }
    }
  }

  /** Which statements `down` sends: a type drop only on Postgres, a foreign key drop on
      every backend but SQLite, and every table and index drop on every backend. */
  lemma {:induction false} DownSends(b: Backend, p: Plan)
    ensures forall d :: DropForeignKey(d) in DownPlan(b, p) <==> b != Sqlite && d in p.dropForeignKeys
    ensures forall d :: DropIndex(d) in DownPlan(b, p) <==> d in p.dropIndexes
    ensures forall d :: DropTable(d) in DownPlan(b, p) <==> d in p.dropTables
    ensures forall d :: DropType(d) in DownPlan(b, p) <==> b == Postgres && d in p.dropTypes
  {
    var f, x, tb, t := DropForeignKeyStage(b, p), DropIndexSteps(p.dropIndexes),
      DropTableSteps(p.dropTables), DropTypeStage(b, p);
    assert DownPlan(b, p) == f + x + tb + t;
    forall d ensures DropForeignKey(d) in f <==> b != Sqlite && d in p.dropForeignKeys {
      if d in p.dropForeignKeys && b != Sqlite {
        var i :| 0 <= i < |p.dropForeignKeys| && p.dropForeignKeys[i] == d;
        assert f[i] == DropForeignKey(d);
      }
    }
    forall d ensures DropIndex(d) in x <==> d in p.dropIndexes {
      if d in p.dropIndexes {
        var i :| 0 <= i < |p.dropIndexes| && p.dropIndexes[i] == d;
        assert x[i] == DropIndex(d);
      }
    }
    forall d ensures DropTable(d) in tb <==> d in p.dropTables {
      if d in p.dropTables {
        var i :| 0 <= i < |p.dropTables| && p.dropTables[i] == d;
        assert tb[i] == DropTable(d);
      }
    }
    forall d ensures DropType(d) in t <==> b == Postgres && d in p.dropTypes {
      if d in p.dropTypes && b == Postgres {
        var i :| 0 <= i < |p.dropTypes| && p.dropTypes[i] == d;
        assert t[i] == DropType(d);
      }
    }
  }

  /** A run whose first statement is refused stops there with its error. */
  lemma {:induction false} FirstStepRefused(b: Backend, s: Schema, steps: seq<Step>)
    requires steps != [] && Apply(b, s, steps[0]).Err?
    ensures Exec(b, s, steps) == Run(s, Fail(Apply(b, s, steps[0]).error))
  {
    assert [steps[0]][..0] == [];
    ExecStops(b, s, [steps[0]], steps[1..]);
    assert [steps[0]] + steps[1..] == steps;
  }

  /** Why the type stages are gated: off Postgres the database refuses the first type
      statement, so an ungated stage would end the migration with an error. */
  lemma {:induction false} UngatedTypesRefused(b: Backend, s: Schema, p: Plan)
    requires b != Postgres
    ensures p.types != [] ==> Exec(b, s, TypeSteps(p.types)) == Run(s, Fail(FeatureNotSupported))
    ensures p.dropTypes != [] ==> Exec(b, s, DropTypeSteps(p.dropTypes)) == Run(s, Fail(FeatureNotSupported))
  {
    if p.types != [] {
      FirstStepRefused(b, s, TypeSteps(p.types));
    }
    if p.dropTypes != [] {
      FirstStepRefused(b, s, DropTypeSteps(p.dropTypes));
    }
  }

  /** Why the foreign key stages are gated: SQLite refuses to add or drop a foreign key on
      an existing table. */
  lemma {:induction false} UngatedForeignKeysRefused(s: Schema, p: Plan)
    ensures p.foreignKeys != [] ==>
      Exec(Sqlite, s, ForeignKeySteps(p.foreignKeys)) == Run(s, Fail(FeatureNotSupported))
    ensures p.dropForeignKeys != [] ==>
      Exec(Sqlite, s, DropForeignKeySteps(p.dropForeignKeys)) == Run(s, Fail(FeatureNotSupported))
  {
    if p.foreignKeys != [] {
      FirstStepRefused(Sqlite, s, ForeignKeySteps(p.foreignKeys));
    }
    if p.dropForeignKeys != [] {
      FirstStepRefused(Sqlite, s, DropForeignKeySteps(p.dropForeignKeys));
    }
  }

  /** Every statement `up` sends to an empty database meets the database's demands on the
      schema the statements before it produced: both tables of a foreign key and the table
      of an index exist, and on Postgres the types of a table's columns exist. */
  lemma UpStepsAccepted(b: Backend, p: Plan, i: nat)
    requires WellFormed(p) && i < |UpPlan(b, p)|
    ensures Accepted(b, Exec(b, EmptySchema, UpPlan(b, p)[..i]).schema, UpPlan(b, p)[i])
  {
    UpDeploys(b, p);
    ExecAcceptsEachStep(b, EmptySchema, UpPlan(b, p), i);
  }

  /** Every statement `down` sends to the deployed schema meets the database's demands: no
      table is dropped while another table's foreign key refers to it and no type while a
      column uses it. */
  lemma DownStepsAccepted(b: Backend, p: Plan, i: nat)
    requires WellFormed(p) && Mirrors(p) && i < |DownPlan(b, p)|
    ensures Accepted(b, Exec(b, Deployed(b, p), DownPlan(b, p)[..i]).schema, DownPlan(b, p)[i])
  {
    DownClears(b, p);
    ExecAcceptsEachStep(b, Deployed(b, p), DownPlan(b, p), i);
  }

  // ------------------------------------------------ the plan of the migration

  /** Creating the tables of modules `ms` files under each module its own `create()`. */
  lemma {:induction false} TableMapOfCreateAll(ms: seq<TableId>, t: TableId, i: nat)
    requires i < |ms| && ms[i] == t
    ensures t in TableMap(CreateAll(ms)) && TableMap(CreateAll(ms))[t] == Create(t)
  {
    var cs := CreateAll(ms);
    forall j | 0 <= j < |cs| && cs[j].table == t
      ensures cs[j] == Create(t)
    {
      assert cs[j] == Create(ms[j]);
    }
    TableMapValue(cs, t, Create(t), i);
  }

  /** The table of module `t` is among those `up` creates, as `t.create()` declares it. */
  lemma TableDeclared(t: TableId)
    ensures t in TableMap(CreateTableStmts) && TableMap(CreateTableStmts)[t] == Create(t)
  {
    TableMapOfCreateAll(TableModules, t, ModuleIndex(t));
  }

  /** `up` creates the table of every module, once each, and `down` drops them in the
      same order. */
  lemma DeclaredTables()
    ensures forall i, j :: 0 <= i < j < |CreateTableStmts| ==> CreateTableStmts[i].table != CreateTableStmts[j].table
    ensures forall t: TableId :: t in TableMap(CreateTableStmts)
    ensures |DropTableStmts| == |CreateTableStmts|
    ensures forall i :: 0 <= i < |CreateTableStmts| ==> DropTableStmts[i].table == CreateTableStmts[i].table
  {
    TableListsComplete();
    forall t: TableId ensures t in TableMap(CreateTableStmts) {
      TableDeclared(t);
    }
  }

  /** `up` creates on Postgres the database type of every enumeration. */
  lemma EnumTypesDeclared(e: EnumType)
    ensures EnumTypeName(e) in TypeNames(CreateTypeStmts)
  {
    TypeNamesSpec(CreateTypeStmts);
    var i := match e
      case RankStatusEnum => 0
      case GameModeEnum => 1
      case ScoreGradeEnum => 2
      case PpVersionEnum => 3
      case ScoreVersionEnum => 4
      case RankingTypeEnum => 5
      case ChannelTypeEnum => 6
      case ChannelHandleTypeEnum => 7;
    assert CreateTypeStmts[i].name == EnumTypeName(e);
  }

  /** Every enumeration type a column can be declared with is one `up` creates. */
  lemma ColumnTypesDeclared(c: TableCreate)
    ensures UsedTypes(c) <= TypeNames(CreateTypeStmts)
  {
    forall x | x in UsedTypes(c) ensures x in TypeNames(CreateTypeStmts) {
      var col :| col in c.columns && col.enumType.Some? && x == EnumTypeName(col.enumType.value);
      EnumTypesDeclared(col.enumType.value);
    }
  }

  /** The types of the migration have distinct names, every column's type is among them,
      and `down` drops them in the order `up` creates them. */
  lemma DeclaredTypes()
    ensures forall i, j :: 0 <= i < j < |CreateTypeStmts| ==> CreateTypeStmts[i].name != CreateTypeStmts[j].name
    ensures forall i :: 0 <= i < |CreateTableStmts| ==> UsedTypes(CreateTableStmts[i]) <= TypeNames(CreateTypeStmts)
    ensures |DropTypeStmts| == |CreateTypeStmts|
    ensures forall i :: 0 <= i < |CreateTypeStmts| ==> DropTypeStmts[i].name == CreateTypeStmts[i].name
  {
    TypeListsMirror();
    forall i | 0 <= i < |CreateTableStmts| ensures UsedTypes(CreateTableStmts[i]) <= TypeNames(CreateTypeStmts) {
      ColumnTypesDeclared(CreateTableStmts[i]);
    }
  }

  /** The foreign keys of the migration have distinct names. */
  lemma DeclaredForeignKeyNames()
    ensures forall i, j :: 0 <= i < j < |CreateForeignKeyStmts| ==>
      CreateForeignKeyStmts[i].name != CreateForeignKeyStmts[j].name
  {
    ForeignKeyNamesDistinct();
    forall i, j | 0 <= i < j < |CreateForeignKeyStmts|
      ensures CreateForeignKeyStmts[i].name != CreateForeignKeyStmts[j].name
    {
      assert ForeignKeyName(CreateForeignKeyStmts[i]) != ForeignKeyName(CreateForeignKeyStmts[j]);
    }
  }

  /** Where every table exists, every foreign key joins existing tables. */
  lemma ForeignKeysWithin(fs: seq<ForeignKeyCreate>, m: map<TableId, TableCreate>)
    requires forall t: TableId :: t in m
    ensures forall i :: 0 <= i < |fs| ==> fs[i].from in m && fs[i].to in m
  {
  }

  /** The foreign keys of the migration join tables the migration creates. */
  lemma DeclaredForeignKeyTables()
    ensures forall i :: 0 <= i < |CreateForeignKeyStmts| ==>
      CreateForeignKeyStmts[i].from in TableMap(CreateTableStmts) && CreateForeignKeyStmts[i].to in TableMap(CreateTableStmts)
  {
    DeclaredTables();
    ForeignKeysWithin(CreateForeignKeyStmts, TableMap(CreateTableStmts));
  }

  /** The indexes of the migration have distinct names, are on declared tables, and
      `down` drops each one at its position in `up`'s list. */
  lemma DeclaredIndexes()
    ensures forall i, j :: 0 <= i < j < |CreateIndexStmts| ==> CreateIndexStmts[i].name != CreateIndexStmts[j].name
    ensures forall i :: 0 <= i < |CreateIndexStmts| ==> CreateIndexStmts[i].table in TableMap(CreateTableStmts)
    ensures |DropIndexStmts| == |CreateIndexStmts|
    ensures forall i :: 0 <= i < |CreateIndexStmts| ==> DropIndexStmts[i] == IndexUndo(CreateIndexStmts[i])
  {
    IndexNamesDistinct();
    IndexListsMirror();
    DeclaredTables();
    forall i, j | 0 <= i < j < |CreateIndexStmts| ensures CreateIndexStmts[i].name != CreateIndexStmts[j].name {
      assert IndexName(CreateIndexStmts[i]) != IndexName(CreateIndexStmts[j]);
    }
  }

  /** A plan whose lists have the properties `WellFormed` names is well formed, whatever
      its drops. */
  lemma WellFormedOf(ty: seq<TypeCreate>, tb: seq<TableCreate>, fk: seq<ForeignKeyCreate>, ix: seq<IndexCreate>,
                     p: Plan)
    requires p.types == ty && p.tables == tb && p.foreignKeys == fk && p.indexes == ix
    requires forall i, j :: 0 <= i < j < |ty| ==> ty[i].name != ty[j].name
    requires forall i, j :: 0 <= i < j < |tb| ==> tb[i].table != tb[j].table
    requires forall i, j :: 0 <= i < j < |fk| ==> fk[i].name != fk[j].name
    requires forall i, j :: 0 <= i < j < |ix| ==> ix[i].name != ix[j].name
    requires forall i :: 0 <= i < |tb| ==> UsedTypes(tb[i]) <= TypeNames(ty)
    requires forall i :: 0 <= i < |fk| ==> fk[i].from in TableMap(tb) && fk[i].to in TableMap(tb)
    requires forall i :: 0 <= i < |ix| ==> ix[i].table in TableMap(tb)
    ensures WellFormed(p)
  {
  }

  /** A plan whose drops undo its creates position by position mirrors them. */
  lemma MirrorsOf(ty: seq<TypeCreate>, tb: seq<TableCreate>, fk: seq<ForeignKeyCreate>, ix: seq<IndexCreate>,
                  p: Plan)
    requires p.types == ty && p.tables == tb && p.foreignKeys == fk && p.indexes == ix
    requires |p.dropForeignKeys| == |fk| && forall i :: 0 <= i < |fk| ==> p.dropForeignKeys[i] == ForeignKeyUndo(fk[i])
    requires |p.dropIndexes| == |ix| && forall i :: 0 <= i < |ix| ==> p.dropIndexes[i] == IndexUndo(ix[i])
    requires |p.dropTables| == |tb| && forall i :: 0 <= i < |tb| ==> p.dropTables[i].table == tb[i].table
    requires |p.dropTypes| == |ty| && forall i :: 0 <= i < |ty| ==> p.dropTypes[i].name == ty[i].name
    ensures Mirrors(p)
  {
  }

  /** The plan of the migration is well formed. */
  lemma DeclaredWellFormed()
    ensures WellFormed(Declared)
  {
    DeclaredTables();
    DeclaredTypes();
    DeclaredForeignKeyNames();
    DeclaredForeignKeyTables();
    DeclaredIndexes();
    WellFormedOf(CreateTypeStmts, CreateTableStmts, CreateForeignKeyStmts, CreateIndexStmts, Declared);
  }

  /** The drops of the migration's plan mirror its creates. */
  lemma DeclaredMirrors()
    ensures Mirrors(Declared)
  {
    DeclaredTables();
    DeclaredTypes();
    ForeignKeyListsMirror();
    DeclaredIndexes();
    MirrorsOf(CreateTypeStmts, CreateTableStmts, CreateForeignKeyStmts, CreateIndexStmts, Declared);
  }

  // ------------------------------------------------ `up` and `down` as they run

  /** One `for stmt in stmts { manager.x(stmt).await?; }` loop: sends the statements in
      order and returns the first error, without sending the statements after it. */
  method RunSteps(db: Database, steps: seq<Step>) returns (r: Outcome<DbErr>)
    modifies db
    ensures Run(db.schema, r) == Exec(db.backend, old(db.schema), steps)
  {
    ghost var s0 := db.schema;
    for i := 0 to |steps|
      invariant Exec(db.backend, s0, steps[..i]) == Run(db.schema, Pass)
    {
      ghost var mid := db.schema;
      r := db.Execute(steps[i]);
      ExecExtend(db.backend, s0, steps, i, mid);
      if r.Fail? {
        ExecAfterFailure(db.backend, s0, steps, i + 1);
        return;
      }
    }
    assert steps[..|steps|] == steps;
    r := Pass;
  }

  /** Once the statements `a` have failed, the stages after them do not change the run. */
  lemma {:induction false} FailureEndsRun(b: Backend, s: Schema, a: seq<Step>, c: seq<Step>, d: seq<Step>, e: seq<Step>)
    requires Exec(b, s, a).outcome.Fail?
    ensures Exec(b, s, a + c + d + e) == Exec(b, s, a)
  {
    ExecStops(b, s, a, c);
    ExecStops(b, s, a + c, d);
    ExecStops(b, s, a + c + d, e);
  }

  /** The four loops of `Migration::up` over the lists of plan `p`: the types on Postgres,
      then the tables, then the foreign keys on every backend but SQLite, then the indexes;
      the first error ends the run. */
  method UpStages(db: Database, p: Plan) returns (r: Outcome<DbErr>)
    modifies db
    ensures Run(db.schema, r) == Exec(db.backend, old(db.schema), UpPlan(db.backend, p))
    ensures WellFormed(p) && old(db.schema) == EmptySchema ==> r == Pass && db.schema == Deployed(db.backend, p)
  {
    if WellFormed(p) {
      UpDeploys(db.backend, p);
    }
    var b := db.backend;
    ghost var s0 := db.schema;
    ghost var t, tb, f, x := TypeStage(b, p), TableSteps(p.tables), ForeignKeyStage(b, p), IndexSteps(p.indexes);
    r := Pass;
    if b == Postgres {
      r := RunSteps(db, TypeSteps(p.types));
    }
    if r.Fail? {
      FailureEndsRun(b, s0, t, tb, f, x);
      return;
    }
    ghost var m1 := db.schema;
    r := RunSteps(db, TableSteps(p.tables));
    ExecThen(b, s0, t, tb, m1);
    if r.Fail? {
      FailureEndsRun(b, s0, t + tb, [], f, x);
      assert t + tb + [] == t + tb;
      return;
    }
    ghost var m2 := db.schema;
    if b != Sqlite {
      r := RunSteps(db, ForeignKeySteps(p.foreignKeys));
    }
    ExecThen(b, s0, t + tb, f, m2);
    if r.Fail? {
      ExecStops(b, s0, t + tb + f, x);
      return;
    }
    ghost var m3 := db.schema;
    r := RunSteps(db, IndexSteps(p.indexes));
    ExecThen(b, s0, t + tb + f, x, m3);
  }

  /** The four loops of `Migration::down` over the lists of plan `p`: the foreign keys on
      every backend but SQLite, then the indexes, then the tables, then the types on
      Postgres; the first error ends the run. */
  method DownStages(db: Database, p: Plan) returns (r: Outcome<DbErr>)
    modifies db
    ensures Run(db.schema, r) == Exec(db.backend, old(db.schema), DownPlan(db.backend, p))
    ensures WellFormed(p) && Mirrors(p) && old(db.schema) == Deployed(db.backend, p) ==>
      r == Pass && db.schema == EmptySchema
  {
    if WellFormed(p) && Mirrors(p) {
      DownClears(db.backend, p);
    }
    var b := db.backend;
    ghost var s0 := db.schema;
    ghost var f, x, tb, t := DropForeignKeyStage(b, p), DropIndexSteps(p.dropIndexes),
      DropTableSteps(p.dropTables), DropTypeStage(b, p);
    r := Pass;
    if b != Sqlite {
      r := RunSteps(db, DropForeignKeySteps(p.dropForeignKeys));
    }
    if r.Fail? {
      FailureEndsRun(b, s0, f, x, tb, t);
      return;
    }
    ghost var m1 := db.schema;
    r := RunSteps(db, DropIndexSteps(p.dropIndexes));
    ExecThen(b, s0, f, x, m1);
    if r.Fail? {
      FailureEndsRun(b, s0, f + x, [], tb, t);
      assert f + x + [] == f + x;
      return;
    }
    ghost var m2 := db.schema;
    r := RunSteps(db, DropTableSteps(p.dropTables));
    ExecThen(b, s0, f + x, tb, m2);
    if r.Fail? {
      ExecStops(b, s0, f + x + tb, t);
      return;
    }
    ghost var m3 := db.schema;
    if b == Postgres {
      r := RunSteps(db, DropTypeSteps(p.dropTypes));
    }
    ExecThen(b, s0, f + x + tb, t, m3);
  }

  /** On an empty database, the migration's `up` succeeds on every backend. */
  lemma DeclaredUpDeploys(b: Backend)
    ensures Exec(b, EmptySchema, UpPlan(b, Declared)) == Run(Deployed(b, Declared), Pass)
  {
    DeclaredWellFormed();
    UpDeploys(b, Declared);
  }

  /** On the schema the migration's `up` deploys, its `down` succeeds on every backend and
      leaves the database empty. */
  lemma DeclaredDownClears(b: Backend)
    ensures Exec(b, Deployed(b, Declared), DownPlan(b, Declared)) == Run(EmptySchema, Pass)
  {
    DeclaredWellFormed();
    DeclaredMirrors();
    DownClears(b, Declared);
  }

  /** `Migration::up` on the lists of the initial migration: it leaves the database as
      running the up plan does, so by `DeclaredUpDeploys` it succeeds on an empty database
      and deploys the declared schema. */
  method Up(db: Database) returns (r: Outcome<DbErr>)
    modifies db
    ensures Run(db.schema, r) == Exec(db.backend, old(db.schema), UpPlan(db.backend, Declared))
  {
    r := UpStages(db, Declared);
  }

  /** `Migration::down` on the lists of the initial migration: it leaves the database as
      running the down plan does, so by `DeclaredDownClears` it succeeds on the schema `up`
      deploys and leaves the database empty. */
  method Down(db: Database) returns (r: Outcome<DbErr>)
    modifies db
    ensures Run(db.schema, r) == Exec(db.backend, old(db.schema), DownPlan(db.backend, Declared))
  {
    r := DownStages(db, Declared);
  }
}
