/**
  The schema catalogue of the initial migration: for every table module, the statement
  values its builders return (`create`, `drop`, `create_foreign_keys`, `drop_foreign_keys`,
  `create_indexes`, `drop_indexes`), and the eight lists that `up` and `down` assemble from
  them. A statement is represented by the names it carries and the tables and types it
  refers to; storage types, widths, defaults and nullability are not represented.
*/
module Catalogue {
  import opened Wrappers
  import opened Enums

  /** The database type of each enumeration (`RankStatus::Enum` and so on). */
  datatype EnumType =
    | RankStatusEnum | GameModeEnum | ScoreGradeEnum | PpVersionEnum | ScoreVersionEnum
    | RankingTypeEnum | ChannelTypeEnum | ChannelHandleTypeEnum

  function EnumTypeName(e: EnumType): string {
    match e
    case RankStatusEnum => RankStatusTypeName
    case GameModeEnum => GameModeTypeName
    case ScoreGradeEnum => ScoreGradeTypeName
    case PpVersionEnum => PpVersionTypeName
    case ScoreVersionEnum => ScoreVersionTypeName
    case RankingTypeEnum => RankingTypeTypeName
    case ChannelTypeEnum => ChannelTypeTypeName
    case ChannelHandleTypeEnum => ChannelHandleTypeTypeName
  }

  /** A column: its identifier, the enumeration type it is declared with (if any) and
      whether it carries a column-level unique key. */
  datatype Column = Column(name: string, enumType: Option<EnumType>, unique: bool)

  function Col(name: string): Column { Column(name, None, false) }
  function UniqueCol(name: string): Column { Column(name, None, true) }
  function EnumCol(name: string, e: EnumType): Column { Column(name, Some(e), false) }

  /** Tables are referred to by the module that declares them; `TableName` gives the
      identifier the database sees, and distinct modules have distinct identifiers
      (`TableNamesDistinct`). */
  datatype TableCreate = TableCreate(table: TableId, columns: seq<Column>, primaryKey: seq<string>)
  datatype TableDrop = TableDrop(table: TableId)
  datatype ForeignKeyCreate = ForeignKeyCreate(
    name: string, from: TableId, fromColumn: string, to: TableId, toColumn: string)
  datatype ForeignKeyDrop = ForeignKeyDrop(name: string, table: TableId)
  datatype IndexCreate = IndexCreate(name: string, table: TableId, column: string, unique: bool)
  datatype IndexDrop = IndexDrop(name: string, table: TableId)
  datatype TypeCreate = TypeCreate(name: string, values: seq<string>)
  datatype TypeDrop = TypeDrop(name: string)

  /** The enumeration types the columns of a table are declared with. */
  function UsedTypes(t: TableCreate): set<string> {
    set c | c in t.columns && c.enumType.Some? :: EnumTypeName(c.enumType.value)
  }

  function ColumnNames(t: TableCreate): seq<string> {
    seq(|t.columns|, i requires 0 <= i < |t.columns| => t.columns[i].name)
  }

  /** The concatenation of `gs`, as `into_iter().flatten()` produces it. */
  function Flatten<T>(gs: seq<seq<T>>): seq<T> {
    if gs == [] then [] else gs[0] + Flatten(gs[1..])
  }

  /** One value per table module of the migration. */
  datatype TableId =
    | Users | Privileges | UserPrivileges | BanchoClientHardwareRecords | FavouriteBeatmaps
    | Followers | UserSettings | Beatmaps | BeatmapRatings | Channels | ChannelUsers
    | ChannelPrivileges | ChatMessages | Scores | ScoresClassic | ScoresGeneric | Leaderboard
    | ScorePp | UserPp | UserStats

  /** The table identifier each module derives from its `Table` variant. The generic
      extension's enum is named `ScoreGeneric`, so its table is `score_generic`. */
  function TableName(t: TableId): string {
    match t
    case Users => "users"
    case Privileges => "privileges"
    case UserPrivileges => "user_privileges"
    case BanchoClientHardwareRecords => "bancho_client_hardware_records"
    case FavouriteBeatmaps => "favourite_beatmaps"
    case Followers => "followers"
    case UserSettings => "user_settings"
    case Beatmaps => "beatmaps"
    case BeatmapRatings => "beatmap_ratings"
    case Channels => "channels"
    case ChannelUsers => "channel_users"
    case ChannelPrivileges => "channel_privileges"
    case ChatMessages => "chat_messages"
    case Scores => "scores"
    case ScoresClassic => "scores_classic"
    case ScoresGeneric => "score_generic"
    case Leaderboard => "leaderboard"
    case ScorePp => "score_pp"
    case UserPp => "user_pp"
    case UserStats => "user_stats"
  }

  /** Each module's `create()`: every table is created with IF NOT EXISTS. */
  function Create(t: TableId): TableCreate {
    TableCreate(t, Columns(t), PrimaryKey(t))
  }

  /** The columns each module's `create()` declares, in order. */
  function Columns(t: TableId): seq<Column> {
    match t
    case Users => UsersColumns()
    case Privileges => PrivilegesColumns()
    case UserPrivileges => UserPrivilegesColumns()
    case BanchoClientHardwareRecords => BanchoClientHardwareRecordsColumns()
    case FavouriteBeatmaps => FavouriteBeatmapsColumns()
    case Followers => FollowersColumns()
    case UserSettings => UserSettingsColumns()
    case Beatmaps => BeatmapsColumns()
    case BeatmapRatings => BeatmapRatingsColumns()
    case Channels => ChannelsColumns()
    case ChannelUsers => ChannelUsersColumns()
    case ChannelPrivileges => ChannelPrivilegesColumns()
    case ChatMessages => ChatMessagesColumns()
    case Scores => ScoresColumns()
    case ScoresClassic => ScoresClassicColumns()
    case ScoresGeneric => ScoresGenericColumns()
    case Leaderboard => LeaderboardColumns()
    case ScorePp => ScorePpColumns()
    case UserPp => UserPpColumns()
    case UserStats => UserStatsColumns()
  }

  function UsersColumns(): seq<Column> {
    [Col("id"), UniqueCol("name"), UniqueCol("name_safe"), UniqueCol("name_unicode"),
      UniqueCol("name_unicode_safe"), Col("password"), UniqueCol("email"), Col("country"),
      Col("created_at"), Col("updated_at")]
  }

  function PrivilegesColumns(): seq<Column> {
    [Col("id"), UniqueCol("name"), Col("description"), Col("priority"), Col("creator_id"),
      Col("created_at")]
  }

  function UserPrivilegesColumns(): seq<Column> {
    [Col("user_id"), Col("privilege_id"), Col("grantor_id"), Col("created_at")]
  }

  function BanchoClientHardwareRecordsColumns(): seq<Column> {
    [Col("user_id"), Col("time_offset"), Col("path_hash"), Col("adapters"),
      Col("adapters_hash"), Col("uninstall_id"), Col("disk_id"), Col("used_times"),
      Col("created_at"), Col("updated_at")]
  }

  function FavouriteBeatmapsColumns(): seq<Column> {
    [Col("user_id"), Col("beatmapset_id"), Col("comment"), Col("created_at")]
  }

  function FollowersColumns(): seq<Column> {
    [Col("user_id"), Col("follow_id"), Col("remark"), Col("created_at")]
  }

  function UserSettingsColumns(): seq<Column> {
    [Col("user_id"), Col("display_unicode_name"), EnumCol("scoreboard_ranking_type",
      RankingTypeEnum), Col("invisible_online")]
  }

  function BeatmapsColumns(): seq<Column> {
    [Col("bid"), Col("sid"), UniqueCol("md5"), Col("title"), Col("file_name"), Col("artist"),
      Col("diff_name"), Col("origin_server"), Col("mapper_name"), Col("mapper_id"),
      EnumCol("rank_status", RankStatusEnum), EnumCol("game_mode", GameModeEnum), Col("stars"),
      Col("bpm"), Col("cs"), Col("od"), Col("ar"), Col("hp"), Col("length"),
      Col("length_drain"), Col("source"), Col("tags"), Col("genre_id"), Col("language_id"),
      Col("storyboard"), Col("video"), Col("object_count"), Col("slider_count"),
      Col("spinner_count"), Col("max_combo"), Col("immutable"), Col("last_update"),
      Col("upload_time"), Col("approved_time"), Col("updated_at")]
  }

  function BeatmapRatingsColumns(): seq<Column> {
    [Col("user_id"), Col("map_md5"), Col("rating"), Col("updated_at")]
  }

  function ChannelsColumns(): seq<Column> {
    [Col("id"), EnumCol("channel_type", ChannelTypeEnum), UniqueCol("name"),
      Col("description"), Col("icon"), Col("auto_join"), Col("creator_id")]
  }

  function ChannelUsersColumns(): seq<Column> {
    [Col("channel_id"), Col("user_id")]
  }

  function ChannelPrivilegesColumns(): seq<Column> {
    [Col("channel_id"), EnumCol("handle", ChannelHandleTypeEnum), Col("required_privilege_id")]
  }

  function ChatMessagesColumns(): seq<Column> {
    [Col("id"), Col("sender_id"), Col("channel_id"), Col("timestamp"), Col("content_string"),
      Col("content_html"), Col("is_action")]
  }

  function ScoresColumns(): seq<Column> {
    [Col("id"), Col("map_hash"), Col("user_id"), UniqueCol("cksm"), Col("kind"),
      Col("play_time"), Col("completed"), Col("verified_at"), Col("created_at"),
      Col("updated_at")]
  }

  function ScoresClassicColumns(): seq<Column> {
    [Col("id"), EnumCol("mode", GameModeEnum), EnumCol("score_version", ScoreVersionEnum),
      Col("score"), Col("accuracy"), Col("combo"), Col("mods"), Col("n300"), Col("n100"),
      Col("n50"), Col("miss"), Col("geki"), Col("katu"), Col("perfect"), EnumCol("grade",
      ScoreGradeEnum), Col("client_flags"), Col("client_version")]
  }

  function ScoresGenericColumns(): seq<Column> {
    [Col("id"), Col("mode"), Col("json")]
  }

  function LeaderboardColumns(): seq<Column> {
    [Col("beatmap_id"), Col("mode"), Col("ranking_type"), Col("user_id"), Col("score_id")]
  }

  function ScorePpColumns(): seq<Column> {
    [Col("score_id"), Col("mode"), Col("pp_version"), Col("pp"), Col("raw_pp")]
  }

  function UserPpColumns(): seq<Column> {
    [Col("user_id"), Col("mode"), Col("pp_version"), Col("pp"), Col("raw_pp")]
  }

  function UserStatsColumns(): seq<Column> {
    [Col("user_id"), Col("mode"), Col("total_score"), Col("ranked_score"), Col("playcount"),
      Col("total_hits"), Col("accuracy"), Col("max_combo"), Col("total_seconds_played"),
      Col("count300"), Col("count100"), Col("count50"), Col("count_miss"), Col("count_failed"),
      Col("count_quit"), Col("updated_at")]
  }

  /** The primary key each module's `create()` declares, column-level or table-level. */
  function PrimaryKey(t: TableId): seq<string> {
    match t
    case Users => ["id"]
    case Privileges => ["id"]
    case UserPrivileges => ["user_id"]
    case BanchoClientHardwareRecords => ["user_id", "path_hash", "adapters_hash", "uninstall_id", "disk_id"]
    case FavouriteBeatmaps => ["user_id", "beatmapset_id"]
    case Followers => ["user_id", "follow_id"]
    case UserSettings => ["user_id"]
    case Beatmaps => ["bid"]
    case BeatmapRatings => ["user_id", "map_md5"]
    case Channels => ["id"]
    case ChannelUsers => ["channel_id", "user_id"]
    case ChannelPrivileges => ["channel_id", "handle"]
    case ChatMessages => ["id"]
    case Scores => ["id"]
    case ScoresClassic => ["id"]
    case ScoresGeneric => ["id"]
    case Leaderboard => ["beatmap_id", "mode", "ranking_type"]
    case ScorePp => ["score_id", "mode", "pp_version"]
    case UserPp => ["user_id", "mode", "pp_version"]
    case UserStats => ["user_id", "mode"]
  }

  /** Each module's `drop()`. */
  function Drop(t: TableId): TableDrop {
    TableDrop(t)
  }

  function Fk(name: string, from: TableId, fromColumn: string, to: TableId, toColumn: string): ForeignKeyCreate {
    ForeignKeyCreate(name, from, fromColumn, to, toColumn)
  }

  function FkDrop(name: string, table: TableId): ForeignKeyDrop {
    ForeignKeyDrop(name, table)
  }

  /** Each module's `create_foreign_keys()` (empty for modules that have none). Every one of
      these constraints is declared ON DELETE CASCADE and ON UPDATE CASCADE. */
  function CreateForeignKeys(t: TableId): seq<ForeignKeyCreate> {
    match t
    case UserPrivileges => [
      Fk("FK_user_priv_user_id", UserPrivileges, "user_id", Users, "id"),
      Fk("FK_user_priv_priv_id", UserPrivileges, "privilege_id", Privileges, "id"),
      Fk("FK_user_priv_grantor_id", UserPrivileges, "grantor_id", Users, "id")]
    case BanchoClientHardwareRecords => [
      Fk("FK_bancho_client_hardware_records_user_id", BanchoClientHardwareRecords, "user_id", Users, "id")]
    case FavouriteBeatmaps => [
      Fk("FK_favourite_beatmaps_user_id", FavouriteBeatmaps, "user_id", Users, "id")]
    case Followers => [
      Fk("FK_followers_user_id", Followers, "user_id", Users, "id"),
      Fk("FK_followers_follow_id", Followers, "follow_id", Users, "id")]
    case UserSettings => [
      Fk("FK_user_settings_user_id", UserSettings, "user_id", Users, "id")]
    case BeatmapRatings => [
      Fk("FK_beatmap_ratings_user_id", BeatmapRatings, "user_id", Users, "id"),
      Fk("FK_beatmap_ratings_map_md5", BeatmapRatings, "map_md5", Beatmaps, "md5")]
    case ChannelUsers => [
      Fk("FK_channel_users_channel_id", ChannelUsers, "channel_id", Channels, "id"),
      Fk("FK_channel_users_user_id", ChannelUsers, "user_id", Users, "id")]
    case ChannelPrivileges => [
      Fk("FK_channel_priv_channel_id", ChannelPrivileges, "channel_id", Channels, "id"),
      Fk("FK_channel_priv_priv_id", ChannelPrivileges, "required_privilege_id", Privileges, "id")]
    case ChatMessages => [
      Fk("FK_chat_msg_channel_id", ChatMessages, "channel_id", Channels, "id"),
      Fk("FK_chat_msg_user_id", ChatMessages, "sender_id", Users, "id")]
    case Scores => [
      Fk("FK_scores_user_id", Scores, "user_id", Users, "id")]
    case ScoresClassic => [
      Fk("FK_scores_classic_scores_id", ScoresClassic, "id", Scores, "id")]
    case ScoresGeneric => [
      Fk("FK_scores_generic_scores_id", ScoresGeneric, "id", Scores, "id")]
    case Leaderboard => [
      Fk("FK_leaderboard_beatmap_id", Leaderboard, "beatmap_id", Beatmaps, "bid"),
      Fk("FK_leaderboard_score_id", Leaderboard, "score_id", Scores, "id"),
      Fk("FK_leaderboard_user_id", Leaderboard, "user_id", Users, "id")]
    case ScorePp => [
      Fk("FK_score_pp_scores_id", ScorePp, "score_id", Scores, "id")]
    case UserPp => [
      Fk("FK_user_pp_user_id", UserPp, "user_id", Users, "id")]
    case UserStats => [
      Fk("FK_user_stats_user_id", UserStats, "user_id", Users, "id")]
    case _ => []
  }

  /** Each module's `drop_foreign_keys()`, written out separately as in the source. */
  function DropForeignKeys(t: TableId): seq<ForeignKeyDrop> {
    match t
    case UserPrivileges => [
      FkDrop("FK_user_priv_user_id", UserPrivileges),
      FkDrop("FK_user_priv_priv_id", UserPrivileges),
      FkDrop("FK_user_priv_grantor_id", UserPrivileges)]
    case BanchoClientHardwareRecords => [
      FkDrop("FK_bancho_client_hardware_records_user_id", BanchoClientHardwareRecords)]
    case FavouriteBeatmaps => [FkDrop("FK_favourite_beatmaps_user_id", FavouriteBeatmaps)]
    case Followers => [
      FkDrop("FK_followers_user_id", Followers),
      FkDrop("FK_followers_follow_id", Followers)]
    case UserSettings => [FkDrop("FK_user_settings_user_id", UserSettings)]
    case BeatmapRatings => [
      FkDrop("FK_beatmap_ratings_user_id", BeatmapRatings),
      FkDrop("FK_beatmap_ratings_map_md5", BeatmapRatings)]
    case ChannelUsers => [
      FkDrop("FK_channel_users_channel_id", ChannelUsers),
      FkDrop("FK_channel_users_user_id", ChannelUsers)]
    case ChannelPrivileges => [
      FkDrop("FK_channel_priv_channel_id", ChannelPrivileges),
      FkDrop("FK_channel_priv_priv_id", ChannelPrivileges)]
    case ChatMessages => [
      FkDrop("FK_chat_msg_channel_id", ChatMessages),
      FkDrop("FK_chat_msg_user_id", ChatMessages)]
    case Scores => [FkDrop("FK_scores_user_id", Scores)]
    case ScoresClassic => [FkDrop("FK_scores_classic_scores_id", ScoresClassic)]
    case ScoresGeneric => [FkDrop("FK_scores_generic_scores_id", ScoresGeneric)]
    case Leaderboard => [
      FkDrop("FK_leaderboard_beatmap_id", Leaderboard),
      FkDrop("FK_leaderboard_score_id", Leaderboard),
      FkDrop("FK_leaderboard_user_id", Leaderboard)]
    case ScorePp => [FkDrop("FK_score_pp_scores_id", ScorePp)]
    case UserPp => [FkDrop("FK_user_pp_user_id", UserPp)]
    case UserStats => [FkDrop("FK_user_stats_user_id", UserStats)]
    case _ => []
  }

  function Ix(name: string, table: TableId, column: string, unique: bool): IndexCreate {
    IndexCreate(name, table, column, unique)
  }

  function IxDrop(name: string, table: TableId): IndexDrop {
    IndexDrop(name, table)
  }

  /** Each module's `create_indexes()` (empty for modules that have none). */
  function CreateIndexes(t: TableId): seq<IndexCreate> {
    match t
    case Users => [
      Ix("IDX_users_name_safe", Users, "name_safe", true),
      Ix("IDX_users_name_unicode_safe", Users, "name_unicode_safe", true),
      Ix("IDX_users_email", Users, "email", true)]
    case Privileges => [Ix("IDX_privileges_name", Privileges, "name", true)]
    case UserPrivileges => [Ix("IDX_user_priv_priv_id", UserPrivileges, "privilege_id", false)]
    case FavouriteBeatmaps => [Ix("IDX_favourite_beatmaps_user_id", FavouriteBeatmaps, "user_id", false)]
    case Followers => [Ix("IDX_followers_user_id", Followers, "user_id", false)]
    case Beatmaps => [
      Ix("IDX_beatmaps_sid", Beatmaps, "sid", false),
      Ix("IDX_beatmaps_md5", Beatmaps, "md5", true),
      Ix("IDX_beatmaps_file_name", Beatmaps, "file_name", false),
      Ix("IDX_beatmaps_rank_status", Beatmaps, "rank_status", false)]
    case BeatmapRatings => [Ix("IDX_beatmap_ratings_map_md5", BeatmapRatings, "map_md5", false)]
    case Channels => [Ix("IDX_channel_name", Channels, "name", false)]
    case ChannelUsers => [Ix("IDX_channel_users_user_id", ChannelUsers, "user_id", false)]
    case ChannelPrivileges => [Ix("IDX_channel_priv_priv_id", ChannelPrivileges, "required_privilege_id", false)]
    case ChatMessages => [Ix("IDX_chat_msg_channel_id", ChatMessages, "channel_id", true)]
    case Scores => [
      Ix("IDX_scores_cksm", Scores, "cksm", true),
      Ix("IDX_scores_user_id", Scores, "user_id", false)]
    case _ => []
  }

  /** Each module's `drop_indexes()`, written out separately as in the source. */
  function DropIndexes(t: TableId): seq<IndexDrop> {
    match t
    case Users => [
      IxDrop("IDX_users_name_safe", Users),
      IxDrop("IDX_users_name_unicode_safe", Users),
      IxDrop("IDX_users_email", Users)]
    case Privileges => [IxDrop("IDX_privileges_name", Privileges)]
    case UserPrivileges => [IxDrop("IDX_user_priv_priv_id", UserPrivileges)]
    case FavouriteBeatmaps => [IxDrop("IDX_favourite_beatmaps_user_id", FavouriteBeatmaps)]
    case Followers => [IxDrop("IDX_followers_user_id", Followers)]
    case Beatmaps => [
      IxDrop("IDX_beatmaps_sid", Beatmaps),
      IxDrop("IDX_beatmaps_md5", Beatmaps),
      IxDrop("IDX_beatmaps_file_name", Beatmaps),
      IxDrop("IDX_beatmaps_rank_status", Beatmaps)]
    case BeatmapRatings => [IxDrop("IDX_beatmap_ratings_map_md5", BeatmapRatings)]
    case Channels => [IxDrop("IDX_channel_name", Channels)]
    case ChannelUsers => [IxDrop("IDX_channel_users_user_id", ChannelUsers)]
    case ChannelPrivileges => [IxDrop("IDX_channel_priv_priv_id", ChannelPrivileges)]
    case ChatMessages => [IxDrop("IDX_chat_msg_channel_id", ChatMessages)]
    case Scores => [
      IxDrop("IDX_scores_cksm", Scores),
      IxDrop("IDX_scores_user_id", Scores)]
    case _ => []
  }

  // ------------------------------------------------ the lists `up` and `down` assemble

  /** `create()` of each module of `ms`, in order. */
  function CreateAll(ms: seq<TableId>): seq<TableCreate> {
    seq(|ms|, i requires 0 <= i < |ms| => Create(ms[i]))
  }

  /** `create_indexes()` of each module of `ms`, in order. */
  function CreateIndexesAll(ms: seq<TableId>): seq<seq<IndexCreate>> {
    seq(|ms|, i requires 0 <= i < |ms| => CreateIndexes(ms[i]))
  }

  /** `drop()` of each module of `ms`, in order. */
  function DropAll(ms: seq<TableId>): seq<TableDrop> {
    seq(|ms|, i requires 0 <= i < |ms| => Drop(ms[i]))
  }

  /** `drop_indexes()` of each module of `ms`, in order. */
  function DropIndexesAll(ms: seq<TableId>): seq<seq<IndexDrop>> {
    seq(|ms|, i requires 0 <= i < |ms| => DropIndexes(ms[i]))
  }

  /** The modules in the order of `create_table_stmts`. */
  const TableModules: seq<TableId> := [
    Users, Privileges, UserPrivileges, BanchoClientHardwareRecords, FavouriteBeatmaps, Followers,
    UserSettings, Beatmaps, BeatmapRatings, Channels, ChannelUsers, ChannelPrivileges, ChatMessages,
    Scores, ScoresClassic, ScoresGeneric, Leaderboard, ScorePp, UserPp, UserStats]

  const CreateTableStmts: seq<TableCreate> :=
    CreateAll(TableModules)

  /** The per-module lists of `create_foreign_key_stmts`, before flattening. */
  const ForeignKeyGroups: seq<seq<ForeignKeyCreate>> := [
    CreateForeignKeys(UserPrivileges), CreateForeignKeys(BanchoClientHardwareRecords),
    CreateForeignKeys(FavouriteBeatmaps), CreateForeignKeys(Followers),
    CreateForeignKeys(UserSettings), CreateForeignKeys(BeatmapRatings),
    CreateForeignKeys(ChannelUsers), CreateForeignKeys(ChannelPrivileges),
    CreateForeignKeys(ChatMessages), CreateForeignKeys(Scores), CreateForeignKeys(ScoresClassic),
    CreateForeignKeys(ScoresGeneric), CreateForeignKeys(Leaderboard), CreateForeignKeys(ScorePp),
    CreateForeignKeys(UserPp), CreateForeignKeys(UserStats)]

  /** `create_foreign_key_stmts` after `into_iter().flatten()`. */
  const CreateForeignKeyStmts: seq<ForeignKeyCreate> := Flatten(ForeignKeyGroups)

  /** The modules in the order of `create_index_stmts`. */
  const IndexModules: seq<TableId> := [
    Users, Privileges, UserPrivileges, FavouriteBeatmaps, Followers, Beatmaps, BeatmapRatings,
    Channels, ChannelUsers, ChannelPrivileges, ChatMessages, Scores, ScoresClassic, ScoresGeneric,
    Leaderboard, ScorePp, UserPp, UserStats]

  /** The per-module lists of `create_index_stmts`, before flattening. */
  const IndexGroups: seq<seq<IndexCreate>> :=
    CreateIndexesAll(IndexModules)

  /** `create_index_stmts` after `into_iter().flatten()`. */
  const CreateIndexStmts: seq<IndexCreate> := Flatten(IndexGroups)

  /** One `CREATE TYPE ... AS ENUM` per enumeration, listing its members' texts. */
  const RankStatusType: TypeCreate := TypeCreate(RankStatusTypeName, Texts(AllRankStatuses, RankStatusText))
  const GameModeType: TypeCreate := TypeCreate(GameModeTypeName, Texts(AllGameModes, GameModeText))
  const ScoreGradeType: TypeCreate := TypeCreate(ScoreGradeTypeName, Texts(AllScoreGrades, ScoreGradeText))
  const PpVersionType: TypeCreate := TypeCreate(PpVersionTypeName, Texts(AllPpVersions, PpVersionText))
  const ScoreVersionType: TypeCreate :=
    TypeCreate(ScoreVersionTypeName, Texts(AllScoreVersions, ScoreVersionText))
  const RankingTypeType: TypeCreate :=
    TypeCreate(RankingTypeTypeName, Texts(AllRankingTypes, RankingTypeText))
  const ChannelTypeType: TypeCreate :=
    TypeCreate(ChannelTypeTypeName, Texts(AllChannelTypes, ChannelTypeText))
  const ChannelHandleTypeType: TypeCreate :=
    TypeCreate(ChannelHandleTypeTypeName, Texts(AllChannelHandleTypes, ChannelHandleTypeText))

  const CreateTypeStmts: seq<TypeCreate> := [
    RankStatusType, GameModeType, ScoreGradeType, PpVersionType, ScoreVersionType,
    RankingTypeType, ChannelTypeType, ChannelHandleTypeType]

  /** The modules in the order of `drop_table_stmts`. */
  const DropTableModules: seq<TableId> := [
    Users, Privileges, UserPrivileges, BanchoClientHardwareRecords, FavouriteBeatmaps, Followers,
    UserSettings, Beatmaps, BeatmapRatings, Channels, ChannelUsers, ChannelPrivileges, ChatMessages,
    Scores, ScoresClassic, ScoresGeneric, Leaderboard, ScorePp, UserPp, UserStats]

  const DropTableStmts: seq<TableDrop> :=
    DropAll(DropTableModules)

  /** The per-module lists of `drop_foreign_key_stmts`, before flattening. */
  const DropForeignKeyGroups: seq<seq<ForeignKeyDrop>> := [
    DropForeignKeys(UserPrivileges), DropForeignKeys(BanchoClientHardwareRecords),
    DropForeignKeys(FavouriteBeatmaps), DropForeignKeys(Followers), DropForeignKeys(UserSettings),
    DropForeignKeys(BeatmapRatings), DropForeignKeys(ChannelUsers),
    DropForeignKeys(ChannelPrivileges), DropForeignKeys(ChatMessages), DropForeignKeys(Scores),
    DropForeignKeys(ScoresClassic), DropForeignKeys(ScoresGeneric), DropForeignKeys(Leaderboard),
    DropForeignKeys(ScorePp), DropForeignKeys(UserPp), DropForeignKeys(UserStats)]

  /** `drop_foreign_key_stmts` after `into_iter().flatten()`. */
  const DropForeignKeyStmts: seq<ForeignKeyDrop> := Flatten(DropForeignKeyGroups)

  /** The modules in the order of `drop_index_stmts`. */
  const DropIndexModules: seq<TableId> := [
    Users, Privileges, UserPrivileges, FavouriteBeatmaps, Followers, Beatmaps, BeatmapRatings,
    Channels, ChannelUsers, ChannelPrivileges, ChatMessages, Scores, ScoresClassic, ScoresGeneric,
    Leaderboard, ScorePp, UserPp, UserStats]

  /** The per-module lists of `drop_index_stmts`, before flattening. */
  const DropIndexGroups: seq<seq<IndexDrop>> :=
    DropIndexesAll(DropIndexModules)

  /** `drop_index_stmts` after `into_iter().flatten()`. */
  const DropIndexStmts: seq<IndexDrop> := Flatten(DropIndexGroups)

  const DropTypeStmts: seq<TypeDrop> := [
    TypeDrop(RankStatusTypeName), TypeDrop(GameModeTypeName), TypeDrop(ScoreGradeTypeName),
    TypeDrop(PpVersionTypeName), TypeDrop(ScoreVersionTypeName), TypeDrop(RankingTypeTypeName),
    TypeDrop(ChannelTypeTypeName), TypeDrop(ChannelHandleTypeTypeName)]

  // ------------------------------------------------ facts about the declared catalogue

  /** Distinct modules declare distinct table identifiers. */
  lemma TableNamesDistinct()
    ensures forall a, b :: a != b ==> TableName(a) != TableName(b)
  {
  }

  /** Where module `t` stands in the list of table modules. */
  function ModuleIndex(t: TableId): (i: nat)
    ensures i < |TableModules| && TableModules[i] == t
  {
    match t
    case Users => 0
    case Privileges => 1
    case UserPrivileges => 2
    case BanchoClientHardwareRecords => 3
    case FavouriteBeatmaps => 4
    case Followers => 5
    case UserSettings => 6
    case Beatmaps => 7
    case BeatmapRatings => 8
    case Channels => 9
    case ChannelUsers => 10
    case ChannelPrivileges => 11
    case ChatMessages => 12
    case Scores => 13
    case ScoresClassic => 14
    case ScoresGeneric => 15
    case Leaderboard => 16
    case ScorePp => 17
    case UserPp => 18
    case UserStats => 19
  }

  /** `up` creates and `down` drops the table of every module exactly once, in the same order. */
  lemma TableListsComplete()
    ensures |TableModules| == 20 && DropTableModules == TableModules
    ensures forall i, j :: 0 <= i < j < |TableModules| ==> TableModules[i] != TableModules[j]
    ensures forall t: TableId :: t in TableModules
  {
    forall t: TableId ensures t in TableModules {
      assert TableModules[ModuleIndex(t)] == t;
    }
  }

  // ------------------------------------------------ flattening

  ghost predicate KeysDistinct<T>(xs: seq<T>, key: T -> string) {
    forall i, j :: 0 <= i < j < |xs| ==> key(xs[i]) != key(xs[j])
  }

  /** Keys are distinct inside each group and between any two groups. */
  ghost predicate GroupKeysDistinct<T>(gs: seq<seq<T>>, key: T -> string) {
    (forall k :: 0 <= k < |gs| ==> KeysDistinct(gs[k], key)) &&
    (forall k1, k2, a, b :: 0 <= k1 < k2 < |gs| && 0 <= a < |gs[k1]| && 0 <= b < |gs[k2]| ==>
      key(gs[k1][a]) != key(gs[k2][b]))
  }

  /** Every element of a flattened list sits in one of its groups. */
  lemma {:induction false} FlattenMember<T>(gs: seq<seq<T>>, x: T)
    requires x in Flatten(gs)
    ensures exists k, a :: 0 <= k < |gs| && 0 <= a < |gs[k]| && gs[k][a] == x
  {
    if x in gs[0] {
      var a :| 0 <= a < |gs[0]| && gs[0][a] == x;
      assert gs[0][a] == x;
    } else {
      FlattenMember(gs[1..], x);
      var k, a :| 0 <= k < |gs[1..]| && 0 <= a < |gs[1..][k]| && gs[1..][k][a] == x;
      assert gs[k + 1][a] == x;
    }
  }

  /** Flattening groups whose keys are distinct within and across groups keeps them distinct. */
  lemma {:induction false} FlattenKeysDistinct<T>(gs: seq<seq<T>>, key: T -> string)
    requires GroupKeysDistinct(gs, key)
    ensures KeysDistinct(Flatten(gs), key)
  {
    if gs != [] {
      var rest := gs[1..];
      assert GroupKeysDistinct(rest, key) by {
        forall k1, k2, a, b | 0 <= k1 < k2 < |rest| && 0 <= a < |rest[k1]| && 0 <= b < |rest[k2]|
          ensures key(rest[k1][a]) != key(rest[k2][b])
        {
          assert rest[k1] == gs[k1 + 1] && rest[k2] == gs[k2 + 1];
        }
        forall k | 0 <= k < |rest| ensures KeysDistinct(rest[k], key) {
          assert rest[k] == gs[k + 1];
        }
      }
      FlattenKeysDistinct(rest, key);
      var f, g := Flatten(gs), gs[0];
      assert f == g + Flatten(rest);
      forall i, j | 0 <= i < j < |f| ensures key(f[i]) != key(f[j]) {
        if j < |g| {
          assert KeysDistinct(gs[0], key);
        } else if i < |g| {
          assert f[j] == Flatten(rest)[j - |g|];
          FlattenMember(rest, f[j]);
          var k, b :| 0 <= k < |rest| && 0 <= b < |rest[k]| && rest[k][b] == f[j];
          assert gs[k + 1][b] == f[j];
        } else {
          assert f[i] == Flatten(rest)[i - |g|] && f[j] == Flatten(rest)[j - |g|];
        }
      }
    }
  }

  /** Flattening two group lists related element by element by `undo` relates the results
      element by element. */
  lemma {:induction false} FlattenUndo<A, B>(cs: seq<seq<A>>, ds: seq<seq<B>>, undo: A -> B)
    requires |ds| == |cs|
    requires forall k :: 0 <= k < |cs| ==> |ds[k]| == |cs[k]|
    requires forall k, a :: 0 <= k < |cs| && 0 <= a < |cs[k]| ==> ds[k][a] == undo(cs[k][a])
    ensures |Flatten(ds)| == |Flatten(cs)|
    ensures forall i :: 0 <= i < |Flatten(cs)| ==> Flatten(ds)[i] == undo(Flatten(cs)[i])
  {
    if cs != [] {
      assert forall k :: 0 <= k < |cs[1..]| ==> cs[1..][k] == cs[k + 1] && ds[1..][k] == ds[k + 1];
      FlattenUndo(cs[1..], ds[1..], undo);
      assert Flatten(cs) == cs[0] + Flatten(cs[1..]);
      assert Flatten(ds) == ds[0] + Flatten(ds[1..]);
    }
  }

  // ------------------------------------------------ foreign keys and indexes

  function ForeignKeyName(f: ForeignKeyCreate): string { f.name }

  /** The drop statement that removes the constraint `f` adds. */
  function ForeignKeyUndo(f: ForeignKeyCreate): ForeignKeyDrop { ForeignKeyDrop(f.name, f.from) }

  function IndexName(x: IndexCreate): string { x.name }

  /** The drop statement that removes the index `x` adds. */
  function IndexUndo(x: IndexCreate): IndexDrop { IndexDrop(x.name, x.table) }

  /** The first ten tables in declaration order; case splits over all twenty are done in
      two halves to keep each proof small. */
  predicate FirstHalf(t: TableId) {
    t.Users? || t.Privileges? || t.UserPrivileges? || t.BanchoClientHardwareRecords? ||
    t.FavouriteBeatmaps? || t.Followers? || t.UserSettings? || t.Beatmaps? ||
    t.BeatmapRatings? || t.Channels?
  }

  /** Each module's `drop_foreign_keys` drops exactly the constraints its
      `create_foreign_keys` adds, in the same order. */
  lemma ModuleForeignKeys(t: TableId)
    ensures |DropForeignKeys(t)| == |CreateForeignKeys(t)|
    ensures forall a :: 0 <= a < |CreateForeignKeys(t)| ==> DropForeignKeys(t)[a] == ForeignKeyUndo(CreateForeignKeys(t)[a])
  {
    if FirstHalf(t) {
      ModuleForeignKeysEarly(t);
    } else {
      ModuleForeignKeysLate(t);
    }
  }

  lemma ModuleForeignKeysEarly(t: TableId)
    requires FirstHalf(t)
    ensures |DropForeignKeys(t)| == |CreateForeignKeys(t)|
    ensures forall a :: 0 <= a < |CreateForeignKeys(t)| ==> DropForeignKeys(t)[a] == ForeignKeyUndo(CreateForeignKeys(t)[a])
  {
    match t
    case Users =>
    case Privileges =>
    case UserPrivileges =>
    case BanchoClientHardwareRecords =>
    case FavouriteBeatmaps =>
    case Followers =>
    case UserSettings =>
    case Beatmaps =>
    case BeatmapRatings =>
    case Channels =>
    case _ => assert false;
  }

  lemma ModuleForeignKeysLate(t: TableId)
    requires !FirstHalf(t)
    ensures |DropForeignKeys(t)| == |CreateForeignKeys(t)|
    ensures forall a :: 0 <= a < |CreateForeignKeys(t)| ==> DropForeignKeys(t)[a] == ForeignKeyUndo(CreateForeignKeys(t)[a])
  {
    match t
    case ChannelUsers =>
    case ChannelPrivileges =>
    case ChatMessages =>
    case Scores =>
    case ScoresClassic =>
    case ScoresGeneric =>
    case Leaderboard =>
    case ScorePp =>
    case UserPp =>
    case UserStats =>
    case _ => assert false;
  }

  /** Each module's `drop_indexes` drops exactly the indexes its `create_indexes` adds, in
      the same order. */
  lemma ModuleIndexes(t: TableId)
    ensures |DropIndexes(t)| == |CreateIndexes(t)|
    ensures forall a :: 0 <= a < |CreateIndexes(t)| ==> DropIndexes(t)[a] == IndexUndo(CreateIndexes(t)[a])
  {
    match t
    case Users =>
    case Privileges =>
    case UserPrivileges =>
    case BanchoClientHardwareRecords =>
    case FavouriteBeatmaps =>
    case Followers =>
    case UserSettings =>
    case Beatmaps =>
    case BeatmapRatings =>
    case Channels =>
    case ChannelUsers =>
    case ChannelPrivileges =>
    case ChatMessages =>
    case Scores =>
    case ScoresClassic =>
    case ScoresGeneric =>
    case Leaderboard =>
    case ScorePp =>
    case UserPp =>
    case UserStats =>
  }

  /** The constraint names each module declares, module by module in `up`'s order. */
  ghost const ForeignKeyNameGroups: seq<seq<string>> := [
    ["FK_user_priv_user_id", "FK_user_priv_priv_id", "FK_user_priv_grantor_id"],
    ["FK_bancho_client_hardware_records_user_id"], ["FK_favourite_beatmaps_user_id"],
    ["FK_followers_user_id", "FK_followers_follow_id"], ["FK_user_settings_user_id"],
    ["FK_beatmap_ratings_user_id", "FK_beatmap_ratings_map_md5"],
    ["FK_channel_users_channel_id", "FK_channel_users_user_id"],
    ["FK_channel_priv_channel_id", "FK_channel_priv_priv_id"],
    ["FK_chat_msg_channel_id", "FK_chat_msg_user_id"], ["FK_scores_user_id"],
    ["FK_scores_classic_scores_id"], ["FK_scores_generic_scores_id"],
    ["FK_leaderboard_beatmap_id", "FK_leaderboard_score_id", "FK_leaderboard_user_id"],
    ["FK_score_pp_scores_id"], ["FK_user_pp_user_id"], ["FK_user_stats_user_id"]]

  /** The index names each module declares, module by module in `up`'s order. */
  ghost const IndexNameGroups: seq<seq<string>> := [
    ["IDX_users_name_safe", "IDX_users_name_unicode_safe", "IDX_users_email"],
    ["IDX_privileges_name"], ["IDX_user_priv_priv_id"], ["IDX_favourite_beatmaps_user_id"],
    ["IDX_followers_user_id"],
    ["IDX_beatmaps_sid", "IDX_beatmaps_md5", "IDX_beatmaps_file_name", "IDX_beatmaps_rank_status"],
    ["IDX_beatmap_ratings_map_md5"], ["IDX_channel_name"], ["IDX_channel_users_user_id"],
    ["IDX_channel_priv_priv_id"], ["IDX_chat_msg_channel_id"],
    ["IDX_scores_cksm", "IDX_scores_user_id"], [], [], [], [], [], []]

  /** Names are distinct inside each group. */
  ghost predicate NamesDistinctWithin(ns: seq<seq<string>>) {
    forall k, a, b :: 0 <= k < |ns| && 0 <= a < b < |ns[k]| ==> ns[k][a] != ns[k][b]
  }

  /** No name occurs in two groups. */
  ghost predicate NamesDistinctAcross(ns: seq<seq<string>>) {
    forall k1, k2, a, b :: 0 <= k1 < k2 < |ns| && 0 <= a < |ns[k1]| && 0 <= b < |ns[k2]| ==>
      ns[k1][a] != ns[k2][b]
  }

  /** No name of a group from `lo` to `hi` occurs in a later group. */
  ghost predicate NamesDistinctAfter(ns: seq<seq<string>>, lo: int, hi: int) {
    forall k1, k2, a, b :: 0 <= lo <= k1 < hi && k1 < k2 < |ns| && 0 <= a < |ns[k1]| && 0 <= b < |ns[k2]| ==>
      ns[k1][a] != ns[k2][b]
  }

  lemma ForeignKeyNamesListed()
    ensures |ForeignKeyGroups| == |ForeignKeyNameGroups|
    ensures forall k :: 0 <= k < |ForeignKeyNameGroups| ==> (|ForeignKeyGroups[k]| == |ForeignKeyNameGroups[k]| &&
      forall a :: 0 <= a < |ForeignKeyNameGroups[k]| ==> ForeignKeyGroups[k][a].name == ForeignKeyNameGroups[k][a])
  {
  }

  lemma IndexNamesListedFirst()
    ensures |IndexGroups| == |IndexNameGroups|
    ensures forall k :: 0 <= k < 5 ==> (|IndexGroups[k]| == |IndexNameGroups[k]| &&
      forall a :: 0 <= a < |IndexNameGroups[k]| ==> IndexGroups[k][a].name == IndexNameGroups[k][a])
  {
  }

  lemma IndexNamesListedMiddle()
    ensures |IndexGroups| == |IndexNameGroups|
    ensures forall k :: 5 <= k < 9 ==> (|IndexGroups[k]| == |IndexNameGroups[k]| &&
      forall a :: 0 <= a < |IndexNameGroups[k]| ==> IndexGroups[k][a].name == IndexNameGroups[k][a])
  {
  }

  lemma IndexNamesListedLast()
    ensures forall k :: 9 <= k < |IndexNameGroups| ==> (|IndexGroups[k]| == |IndexNameGroups[k]| &&
      forall a :: 0 <= a < |IndexNameGroups[k]| ==> IndexGroups[k][a].name == IndexNameGroups[k][a])
  {
  }

  lemma IndexNamesListed()
    ensures |IndexGroups| == |IndexNameGroups|
    ensures forall k :: 0 <= k < |IndexNameGroups| ==> (|IndexGroups[k]| == |IndexNameGroups[k]| &&
      forall a :: 0 <= a < |IndexNameGroups[k]| ==> IndexGroups[k][a].name == IndexNameGroups[k][a])
  {
    IndexNamesListedFirst();
    IndexNamesListedMiddle();
    IndexNamesListedLast();
  }

  lemma ForeignKeyNamesDistinctWithin()
    ensures NamesDistinctWithin(ForeignKeyNameGroups)
  {
  }

  lemma ForeignKeyNamesDistinctAcrossFirst()
    ensures NamesDistinctAfter(ForeignKeyNameGroups, 0, 4)
  {
  }

  lemma ForeignKeyNamesDistinctAcrossSecond()
    ensures NamesDistinctAfter(ForeignKeyNameGroups, 4, 8)
  {
  }

  lemma ForeignKeyNamesDistinctAcrossThird()
    ensures NamesDistinctAfter(ForeignKeyNameGroups, 8, 16)
  {
  }

  lemma ForeignKeyNamesDistinctAcross()
    ensures NamesDistinctAcross(ForeignKeyNameGroups)
  {
    ForeignKeyNamesDistinctAcrossFirst();
    ForeignKeyNamesDistinctAcrossSecond();
    ForeignKeyNamesDistinctAcrossThird();
  }

  lemma IndexNamesDistinctWithin()
    ensures NamesDistinctWithin(IndexNameGroups)
  {
  }

  lemma IndexNamesDistinctAcrossFirst()
    ensures NamesDistinctAfter(IndexNameGroups, 0, 4)
  {
  }

  lemma IndexNamesDistinctAcrossSecond()
    ensures NamesDistinctAfter(IndexNameGroups, 4, 8)
  {
  }

  lemma IndexNamesDistinctAcrossThird()
    ensures NamesDistinctAfter(IndexNameGroups, 8, 18)
  {
  }

  lemma IndexNamesDistinctAcross()
    ensures NamesDistinctAcross(IndexNameGroups)
  {
    IndexNamesDistinctAcrossFirst();
    IndexNamesDistinctAcrossSecond();
    IndexNamesDistinctAcrossThird();
  }

  /** Groups whose keys coincide with those of distinct name groups have distinct keys. */
  lemma GroupKeysTransfer<T>(gs: seq<seq<T>>, key: T -> string, ns: seq<seq<string>>)
    requires |gs| == |ns| && forall k :: 0 <= k < |ns| ==> |gs[k]| == |ns[k]|
    requires forall k, a :: 0 <= k < |ns| && 0 <= a < |ns[k]| ==> key(gs[k][a]) == ns[k][a]
    requires NamesDistinctWithin(ns) && NamesDistinctAcross(ns)
    ensures GroupKeysDistinct(gs, key)
  {
  }

  lemma ForeignKeyGroupsMirror()
    ensures |DropForeignKeyGroups| == |ForeignKeyGroups|
    ensures forall k :: 0 <= k < |ForeignKeyGroups| ==> (|DropForeignKeyGroups[k]| == |ForeignKeyGroups[k]| &&
      forall a :: 0 <= a < |ForeignKeyGroups[k]| ==> DropForeignKeyGroups[k][a] == ForeignKeyUndo(ForeignKeyGroups[k][a]))
  {
    forall t ensures |DropForeignKeys(t)| == |CreateForeignKeys(t)| &&
      forall a :: 0 <= a < |CreateForeignKeys(t)| ==> DropForeignKeys(t)[a] == ForeignKeyUndo(CreateForeignKeys(t)[a])
    {
      ModuleForeignKeys(t);
    }
  }

  /** The foreign keys `up` creates have pairwise distinct names. */
  lemma ForeignKeyNamesDistinct()
    ensures KeysDistinct(CreateForeignKeyStmts, ForeignKeyName)
  {
    ForeignKeyNamesListed();
    ForeignKeyNamesDistinctWithin();
    ForeignKeyNamesDistinctAcross();
    GroupKeysTransfer(ForeignKeyGroups, ForeignKeyName, ForeignKeyNameGroups);
    FlattenKeysDistinct(ForeignKeyGroups, ForeignKeyName);
  }

  /** `down` drops each foreign key `up` adds, from the table it was added to, at the same
      position of its list. */
  lemma ForeignKeyListsMirror()
    ensures |DropForeignKeyStmts| == |CreateForeignKeyStmts|
    ensures forall i :: 0 <= i < |CreateForeignKeyStmts| ==>
      DropForeignKeyStmts[i] == ForeignKeyUndo(CreateForeignKeyStmts[i])
  {
    ForeignKeyGroupsMirror();
    FlattenUndo(ForeignKeyGroups, DropForeignKeyGroups, ForeignKeyUndo);
  }

  lemma IndexGroupsMirror()
    ensures |DropIndexGroups| == |IndexGroups|
    ensures forall k :: 0 <= k < |IndexGroups| ==> (|DropIndexGroups[k]| == |IndexGroups[k]| &&
      forall a :: 0 <= a < |IndexGroups[k]| ==> DropIndexGroups[k][a] == IndexUndo(IndexGroups[k][a]))
  {
    assert DropIndexModules == IndexModules;
    forall k | 0 <= k < |IndexGroups| ensures |DropIndexGroups[k]| == |IndexGroups[k]| &&
      forall a :: 0 <= a < |IndexGroups[k]| ==> DropIndexGroups[k][a] == IndexUndo(IndexGroups[k][a])
    {
      ModuleIndexes(IndexModules[k]);
    }
  }

  /** The indexes `up` creates have pairwise distinct names. */
  lemma IndexNamesDistinct()
    ensures KeysDistinct(CreateIndexStmts, IndexName)
  {
    IndexNamesListed();
    IndexNamesDistinctWithin();
    IndexNamesDistinctAcross();
    GroupKeysTransfer(IndexGroups, IndexName, IndexNameGroups);
    FlattenKeysDistinct(IndexGroups, IndexName);
  }

  /** `down` drops each index `up` creates, on the table it was created on, at the same
      position of its list. */
  lemma IndexListsMirror()
    ensures |DropIndexStmts| == |CreateIndexStmts|
    ensures forall i :: 0 <= i < |CreateIndexStmts| ==> DropIndexStmts[i] == IndexUndo(CreateIndexStmts[i])
  {
    IndexGroupsMirror();
    FlattenUndo(IndexGroups, DropIndexGroups, IndexUndo);
  }

  /** `stmt` creates the enumeration type `name` whose value list holds the texts of `members`
      in declaration order, and accepts exactly the texts that read back as a member. */
  ghost predicate CreatesEnum<E>(stmt: TypeCreate, name: string, members: seq<E>,
                                 ofText: string -> Option<E>)
  {
    && stmt.name == name
    && |stmt.values| == |members|
    && (forall i :: 0 <= i < |members| ==> ofText(stmt.values[i]) == Some(members[i]))
    && (forall s :: s in stmt.values <==> ofText(s).Some?)
  }

  /** Each `CREATE TYPE` of `up` carries the full member list of its enumeration, in
      declaration order, so the database type admits exactly the texts the entity reads back. */
  lemma TypeValuesDeclared()
    ensures CreatesEnum(RankStatusType, RankStatusTypeName, AllRankStatuses, RankStatusOfText)
    ensures CreatesEnum(GameModeType, GameModeTypeName, AllGameModes, GameModeOfText)
    ensures CreatesEnum(ScoreGradeType, ScoreGradeTypeName, AllScoreGrades, ScoreGradeOfText)
    ensures CreatesEnum(PpVersionType, PpVersionTypeName, AllPpVersions, PpVersionOfText)
    ensures CreatesEnum(ScoreVersionType, ScoreVersionTypeName, AllScoreVersions, ScoreVersionOfText)
    ensures CreatesEnum(RankingTypeType, RankingTypeTypeName, AllRankingTypes, RankingTypeOfText)
    ensures CreatesEnum(ChannelTypeType, ChannelTypeTypeName, AllChannelTypes, ChannelTypeOfText)
    ensures CreatesEnum(ChannelHandleTypeType, ChannelHandleTypeTypeName, AllChannelHandleTypes,
                        ChannelHandleTypeOfText)
  {
    RankStatusTextsDistinct();
    EnumCreated(AllRankStatuses, RankStatusText, RankStatusOfText, RankStatusTypeName);
    GameModeTextsDistinct();
    EnumCreated(AllGameModes, GameModeText, GameModeOfText, GameModeTypeName);
    ScoreGradeTextsDistinct();
    EnumCreated(AllScoreGrades, ScoreGradeText, ScoreGradeOfText, ScoreGradeTypeName);
    PpVersionTextsDistinct();
    EnumCreated(AllPpVersions, PpVersionText, PpVersionOfText, PpVersionTypeName);
    ScoreVersionTextsDistinct();
    EnumCreated(AllScoreVersions, ScoreVersionText, ScoreVersionOfText, ScoreVersionTypeName);
    RankingTypeTextsDistinct();
    EnumCreated(AllRankingTypes, RankingTypeText, RankingTypeOfText, RankingTypeTypeName);
    ChannelTypeTextsDistinct();
    EnumCreated(AllChannelTypes, ChannelTypeText, ChannelTypeOfText, ChannelTypeTypeName);
    ChannelHandleTypeTextsDistinct();
    EnumCreated(AllChannelHandleTypes, ChannelHandleTypeText, ChannelHandleTypeOfText,
                ChannelHandleTypeTypeName);
  }

  /** The `CREATE TYPE` built from an enumeration with distinct texts lists it faithfully. */
  lemma EnumCreated<E>(members: seq<E>, text: E -> string, ofText: string -> Option<E>, name: string)
    requires TextsDistinct(members, text)
    requires forall s :: ofText(s) == Lookup(members, text, s)
    ensures CreatesEnum(TypeCreate(name, Texts(members, text)), name, members, ofText)
  {
    forall s ensures s in Texts(members, text) <==> ofText(s).Some? {
      TextsAccepted(members, text, s);
    }
  }

  /** The eight enumeration types have distinct names, and `down` drops each of them at the
      position `up` created it. */
  lemma TypeListsMirror()
    ensures |CreateTypeStmts| == 8 && |DropTypeStmts| == 8
    ensures forall i, j :: 0 <= i < j < |CreateTypeStmts| ==> CreateTypeStmts[i].name != CreateTypeStmts[j].name
    ensures forall i :: 0 <= i < |CreateTypeStmts| ==> DropTypeStmts[i].name == CreateTypeStmts[i].name
  {
  }
}
