/**
  The rows of the score, leaderboard and pp entities, as the ORM declares them: one
  datatype per `Model`, the primary key of each, the columns the ORM reads and writes, and
  the `belongs_to` relations. Every relation here is declared with ON UPDATE CASCADE and
  ON DELETE CASCADE; what those actions do to the stored rows is in module `Tables`.

  Storage details are opaque: decimals, JSON payloads and timestamps are carried as text,
  and no arithmetic is done on any field.
*/
module Entities {
  import opened Wrappers
  import opened Enums
  import opened Catalogue

  /** `i32` and `i64` columns. */
  newtype int32 = x: int | -0x8000_0000 <= x < 0x8000_0000
  newtype int64 = x: int | -0x8000_0000_0000_0000 <= x < 0x8000_0000_0000_0000

  /** A `Decimal` column value, kept as its text. */
  datatype Decimal = Decimal(text: string)

  /** A `Json` column value, kept as its text. */
  datatype Json = Json(text: string)

  /** A `DateTimeWithTimeZone` column value, kept as its text. */
  datatype Timestamp = Timestamp(text: string)

  /** Which extension table holds a score's mode-specific payload. Only the classic member
      is known; the others are carried by their stored text. */
  datatype ScoreKind = ClassicKind | OtherKind(text: string)

  /** The extension table a score of kind `k` keeps its payload in, when it is known. */
  function PayloadTable(k: ScoreKind): Option<TableId> {
    match k
    case ClassicKind => Some(ScoresClassic)
    case OtherKind(_) => None
  }

  // ------------------------------------------------ the rows

  /** A row of `scores`: the data common to every score. */
  datatype ScoreRow = ScoreRow(
    id: int64,
    mapHash: string,
    userId: int32,
    cksm: string,
    kind: ScoreKind,
    playtime: int32,
    completed: bool,
    invisible: bool,
    verifiedAt: Option<Timestamp>,
    createdAt: Timestamp,
    updatedAt: Timestamp)

  /** A score is verified exactly when it carries the time it was verified at. */
  predicate Verified(r: ScoreRow) {
    r.verifiedAt.Some?
  }

  /** A row of `scores_classic`: the classic payload of the score with the same id. */
  datatype ClassicRow = ClassicRow(
    id: int64,
    mode: GameMode,
    scoreVersion: ScoreVersion,
    score: int32,
    accuracy: Decimal,
    combo: int32,
    mods: int32,
    n300: int32,
    n100: int32,
    n50: int32,
    miss: int32,
    geki: int32,
    katu: int32,
    perfect: bool,
    grade: ScoreGrade,
    clientFlags: int32,
    clientVersion: string)

  /** A row of `scores_generic`: the generic payload of the score with the same id. */
  datatype GenericRow = GenericRow(id: int64, score: int32, json: Json)

  /** A row of `leaderboard`: the score holding one slot, per beatmap, mode and ranking. */
  datatype LeaderboardRow = LeaderboardRow(
    beatmapId: int32,
    mode: GameMode,
    rankingType: RankingType,
    userId: int32,
    scoreId: int64)

  /** A row of `user_stats`: a user's totals in one mode. */
  datatype UserStatsRow = UserStatsRow(
    userId: int32,
    mode: GameMode,
    totalScore: int64,
    rankedScore: int64,
    playcount: int32,
    totalHits: int32,
    accuracy: Decimal,
    maxCombo: int32,
    totalSecondsPlayed: int32,
    count300: int32,
    count100: int32,
    count50: int32,
    countMiss: int32,
    countFailed: int32,
    countQuit: int32,
    updatedAt: Timestamp)

  /** A row of `score_pp`: the pp of one score in one mode under one pp version. */
  datatype ScorePpRow = ScorePpRow(
    scoreId: int64,
    mode: GameMode,
    ppVersion: PpVersion,
    pp: Decimal,
    rawPp: Option<Json>)

  /** A row of `user_pp`: the pp of one user in one mode under one pp version. */
  datatype UserPpRow = UserPpRow(
    userId: int32,
    mode: GameMode,
    ppVersion: PpVersion,
    pp: Decimal,
    rawPp: Option<Json>)

  // ------------------------------------------------ the primary keys

  /** The key of a leaderboard slot; none of its columns auto-increments. */
  datatype SlotKey = SlotKey(beatmapId: int32, mode: GameMode, rankingType: RankingType)

  /** The key of a stats row. */
  datatype StatsKey = StatsKey(userId: int32, mode: GameMode)

  /** The key of a score's pp row. */
  datatype ScorePpKey = ScorePpKey(scoreId: int64, mode: GameMode, ppVersion: PpVersion)

  /** The key of a user's pp row. */
  datatype UserPpKey = UserPpKey(userId: int32, mode: GameMode, ppVersion: PpVersion)

  function SlotOf(r: LeaderboardRow): SlotKey {
    SlotKey(r.beatmapId, r.mode, r.rankingType)
  }

  function StatsKeyOf(r: UserStatsRow): StatsKey {
    StatsKey(r.userId, r.mode)
  }

  function ScorePpKeyOf(r: ScorePpRow): ScorePpKey {
    ScorePpKey(r.scoreId, r.mode, r.ppVersion)
  }

  function UserPpKeyOf(r: UserPpRow): UserPpKey {
    UserPpKey(r.userId, r.mode, r.ppVersion)
  }

  // ------------------------------------------------ what the ORM declares per entity

  /** The seven entities of the score subsystem. */
  datatype Entity =
    | ScoresEntity | LeaderboardEntity | ScoresClassicEntity | UserStatsEntity
    | ScorePpEntity | UserPpEntity | ScoresGenericEntity

  /** The `table_name` each entity declares. */
  function EntityTable(e: Entity): string {
    match e
    case ScoresEntity => "scores"
    case LeaderboardEntity => "leaderboard"
    case ScoresClassicEntity => "scores_classic"
    case UserStatsEntity => "user_stats"
    case ScorePpEntity => "score_pp"
    case UserPpEntity => "user_pp"
    case ScoresGenericEntity => "scores_generic"
  }

  /** The migration module that creates the table the entity is meant to map. */
  function MigrationTable(e: Entity): TableId {
    match e
    case ScoresEntity => Scores
    case LeaderboardEntity => Leaderboard
    case ScoresClassicEntity => ScoresClassic
    case UserStatsEntity => UserStats
    case ScorePpEntity => ScorePp
    case UserPpEntity => UserPp
    case ScoresGenericEntity => ScoresGeneric
  }

  /** The columns each entity reads and writes: its fields, in snake case. */
  function EntityColumns(e: Entity): seq<string> {
    match e
    case ScoresEntity =>
      ["id", "map_hash", "user_id", "cksm", "kind", "playtime", "completed", "invisible",
        "verified_at", "created_at", "updated_at"]
    case LeaderboardEntity => ["beatmap_id", "mode", "ranking_type", "user_id", "score_id"]
    case ScoresClassicEntity =>
      ["id", "mode", "score_version", "score", "accuracy", "combo", "mods", "n300", "n100",
        "n50", "miss", "geki", "katu", "perfect", "grade", "client_flags", "client_version"]
    case UserStatsEntity =>
      ["user_id", "mode", "total_score", "ranked_score", "playcount", "total_hits", "accuracy",
        "max_combo", "total_seconds_played", "count300", "count100", "count50", "count_miss",
        "count_failed", "count_quit", "updated_at"]
    case ScorePpEntity => ["score_id", "mode", "pp_version", "pp", "raw_pp"]
    case UserPpEntity => ["user_id", "mode", "pp_version", "pp", "raw_pp"]
    case ScoresGenericEntity => ["id", "score", "json"]
  }

  /** The fields each entity marks `primary_key`, in order. */
  function EntityPrimaryKey(e: Entity): seq<string> {
    match e
    case ScoresEntity => ["id"]
    case LeaderboardEntity => ["beatmap_id", "mode", "ranking_type"]
    case ScoresClassicEntity => ["id"]
    case UserStatsEntity => ["user_id", "mode"]
    case ScorePpEntity => ["score_id", "mode", "pp_version"]
    case UserPpEntity => ["user_id", "mode", "pp_version"]
    case ScoresGenericEntity => ["id"]
  }

  /** A `belongs_to` relation: the column of this entity and the column of the parent it
      refers to, with cascade on update and on delete. */
  datatype BelongsTo = BelongsTo(from: string, to: TableId, toColumn: string)

  /** The `belongs_to` relations each entity declares. */
  function Relations(e: Entity): seq<BelongsTo> {
    match e
    case ScoresEntity => [BelongsTo("user_id", Users, "id")]
    case LeaderboardEntity =>
      [BelongsTo("beatmap_id", Beatmaps, "bid"), BelongsTo("score_id", Scores, "id"),
        BelongsTo("user_id", Users, "id")]
    case ScoresClassicEntity => [BelongsTo("id", Scores, "id")]
    case UserStatsEntity => [BelongsTo("user_id", Users, "id")]
    case ScorePpEntity => [BelongsTo("score_id", Scores, "id")]
    case UserPpEntity => [BelongsTo("user_id", Users, "id")]
    case ScoresGenericEntity => [BelongsTo("id", Scores, "id")]
  }

  /** The relation a foreign key constraint of the migration enforces. */
  function Enforces(f: ForeignKeyCreate): BelongsTo {
    BelongsTo(f.fromColumn, f.to, f.toColumn)
  }

  // ------------------------------------------------ entities against the migration

  /** Every relation an entity declares is enforced by a foreign key the migration creates
      on the entity's table, and every foreign key of that table enforces a declared
      relation, in the same order. */
  lemma RelationsEnforced(e: Entity)
    ensures |Relations(e)| == |CreateForeignKeys(MigrationTable(e))|
    ensures forall i :: 0 <= i < |Relations(e)| ==>
      Relations(e)[i] == Enforces(CreateForeignKeys(MigrationTable(e))[i])
  {
  }

  /** The identifiers of `cols`, in order. */
  function Names(cols: seq<Column>): seq<string> {
    seq(|cols|, i requires 0 <= i < |cols| => cols[i].name)
  }

  /** The leaderboard entity maps the `leaderboard` table exactly: same table name, same
      columns in the same order, same primary key. */
  lemma LeaderboardMatchesTable()
    ensures EntityTable(LeaderboardEntity) == TableName(Leaderboard)
    ensures EntityColumns(LeaderboardEntity) == Names(LeaderboardColumns())
    ensures EntityPrimaryKey(LeaderboardEntity) == PrimaryKey(Leaderboard)
  {
  }

  /** The classic extension maps the `scores_classic` table exactly. */
  lemma ClassicMatchesTable()
    ensures EntityTable(ScoresClassicEntity) == TableName(ScoresClassic)
    ensures EntityColumns(ScoresClassicEntity) == Names(ScoresClassicColumns())
    ensures EntityPrimaryKey(ScoresClassicEntity) == PrimaryKey(ScoresClassic)
  {
  }

  /** The stats entity maps the `user_stats` table exactly. */
  lemma UserStatsMatchesTable()
    ensures EntityTable(UserStatsEntity) == TableName(UserStats)
    ensures EntityColumns(UserStatsEntity) == Names(UserStatsColumns())
    ensures EntityPrimaryKey(UserStatsEntity) == PrimaryKey(UserStats)
  {
  }

  /** The score pp entity maps the `score_pp` table exactly. */
  lemma ScorePpMatchesTable()
    ensures EntityTable(ScorePpEntity) == TableName(ScorePp)
    ensures EntityColumns(ScorePpEntity) == Names(ScorePpColumns())
    ensures EntityPrimaryKey(ScorePpEntity) == PrimaryKey(ScorePp)
  {
  }

  /** The user pp entity maps the `user_pp` table exactly. */
  lemma UserPpMatchesTable()
    ensures EntityTable(UserPpEntity) == TableName(UserPp)
    ensures EntityColumns(UserPpEntity) == Names(UserPpColumns())
    ensures EntityPrimaryKey(UserPpEntity) == PrimaryKey(UserPp)
  {
  }

  /** The `scores` entity and the `scores` table disagree: the entity's `invisible` column
      does not exist in the table, and the entity's `playtime` is the table's `play_time`.
      The table name and the primary key agree. */
  lemma ScoresEntityDisagrees()
    ensures EntityTable(ScoresEntity) == TableName(Scores)
    ensures EntityPrimaryKey(ScoresEntity) == PrimaryKey(Scores)
    ensures "invisible" in EntityColumns(ScoresEntity) && "invisible" !in Names(ScoresColumns())
    ensures "playtime" in EntityColumns(ScoresEntity) && "playtime" !in Names(ScoresColumns())
    ensures "play_time" in Names(ScoresColumns()) && "play_time" !in EntityColumns(ScoresEntity)
  {
    ScoresTableColumns();
  }

  /** Apart from those two, the entity's columns are the table's, in the same order: the
      table's list is the entity's without `invisible`, with `playtime` spelled `play_time`. */
  lemma ScoresEntityAgreesOtherwise()
    ensures var es := EntityColumns(ScoresEntity);
      Names(ScoresColumns()) == es[..5] + ["play_time"] + es[6..7] + es[8..]
  {
    ScoresTableColumns();
  }

  lemma ScoresTableColumns()
    ensures Names(ScoresColumns()) == ["id", "map_hash", "user_id", "cksm", "kind", "play_time",
      "completed", "verified_at", "created_at", "updated_at"]
  {
  }

  /** The generic extension disagrees with its migration table: the migration names the
      table `score_generic` (from its `ScoreGeneric` enum) where the entity says
      `scores_generic`, and creates `mode` where the entity has `score`. */
  lemma ScoresGenericEntityDisagrees()
    ensures EntityTable(ScoresGenericEntity) != TableName(ScoresGeneric)
    ensures TableName(ScoresGeneric) == "score_generic"
    ensures EntityPrimaryKey(ScoresGenericEntity) == PrimaryKey(ScoresGeneric)
    ensures "score" in EntityColumns(ScoresGenericEntity) && "score" !in Names(ScoresGenericColumns())
    ensures "mode" in Names(ScoresGenericColumns()) && "mode" !in EntityColumns(ScoresGenericEntity)
    ensures "json" in EntityColumns(ScoresGenericEntity) && "json" in Names(ScoresGenericColumns())
  {
    assert Names(ScoresGenericColumns()) == ["id", "mode", "json"];
  }

  /** The `user_privileges` table is keyed by `user_id` alone, so it can hold at most one
      privilege per user; and the index on `chat_messages.channel_id` is unique, so it admits
      at most one message per channel. */
  lemma MigrationKeyOddities()
    ensures PrimaryKey(UserPrivileges) == ["user_id"] && "privilege_id" in Names(UserPrivilegesColumns())
    ensures exists i :: (0 <= i < |CreateIndexes(ChatMessages)| &&
      CreateIndexes(ChatMessages)[i].column == "channel_id" && CreateIndexes(ChatMessages)[i].unique)
  {
    assert Names(UserPrivilegesColumns())[1] == "privilege_id";
    assert CreateIndexes(ChatMessages)[0].column == "channel_id";
  }
}
