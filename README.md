# peace: the initial schema migration and the score data model

This project models two parts of the database layer of the peace osu! server, and proves
properties about each.

- **The initial migration** (`init_tables.rs`):
  - the eight enumerations and their stored texts;
  - the catalogue of what each table module declares: its table, its foreign keys, its
    indexes and the matching drop statements;
  - `Migration::up` and `Migration::down`, modelled as methods. Each runs its four `for`
    loops over the declared lists against a `Database` object whose schema changes statement
    by statement. The enumeration-type stages run on Postgres only, and the foreign-key
    stages run everywhere but SQLite.
  - Each DDL statement has a precondition mirroring what the database enforces. The `?`
    after each call ends the run at the first refusal.
- **The score data model** (the `scores`, `scores_classic`, `scores_generic`,
  `leaderboard`, `score_pp`, `user_pp` and `user_stats` entities):
  - one row datatype per `Model`;
  - one map per table, keyed by the declared primary key;
  - writes as functions over the whole store. Inserts check keys, the unique checksum and
    the referenced rows. Deletes and key updates apply the declared ON DELETE CASCADE and
    ON UPDATE CASCADE.

Modules, in dependency order:

| file | module | contents |
|---|---|---|
| wrappers.dfy | `Wrappers` | `Option`, `Result`, `Outcome` |
| enums.dfy | `Enums` | the eight enumerations, member-to-text and text-to-member, round trips |
| catalogue.dfy | `Catalogue` | statement values of the 20 table modules; the eight lists `up` and `down` build |
| ddl.dfy | `Ddl` | abstract schema, effect of each statement per backend, runs that stop at the first error, the `Database` class |
| migration.dfy | `Migration` | `up`/`down` as loops, their stage order and gating, deploy and clear theorems |
| entities.dfy | `Entities` | row datatypes and keys, entity metadata compared with the migration's tables |
| tables.dfy | `Tables` | the stored rows, inserts, cascading deletes and key updates, invariants, round trips |

The migration theorems are proved for any plan, meaning the eight lists `up` and `down`
assemble, provided the plan is well formed and its drops mirror its creates.
`DeclaredWellFormed` and `DeclaredMirrors` establish both for the concrete lists of
`init_tables.rs`.

`Up` and `Down` guarantee that the database ends up exactly as running those lists does.
With `DeclaredUpDeploys` and `DeclaredDownClears`, this means:
- `up` on an empty database succeeds on every backend;
- `down` on what `up` deployed succeeds and leaves the database empty.

Where the ORM entities and the migration disagree, the model keeps both as written and
states each disagreement as a lemma:
- `Entities.ScoresEntityDisagrees`: the entity's `invisible` has no column in the table,
  and the entity's `playtime` is the table's `play_time`.
- `Entities.ScoresGenericEntityDisagrees`: the table is named `score_generic` and has a
  `mode` column where the entity names `scores_generic` and `score`.
- `Entities.MigrationKeyOddities`:
  - `user_privileges` is keyed by `user_id` alone;
  - the index on `chat_messages.channel_id` is unique.

## Model

| member | source | states |
|---|---|---|
| Enums.Lookup | core/db/src/peace/migration/versions/init_tables.rs:4-124 | reading a text finds a member whose text it is, or reports that no member has that text |
| Enums.LookupText | core/db/src/peace/migration/versions/init_tables.rs:4-124 | when the texts of an enumeration are distinct, reading back a member's text yields that member |
| Enums.LookupEachText | core/db/src/peace/migration/versions/init_tables.rs:4-124 | with distinct texts, every member of an enumeration reads back from its own text |
| Enums.TextsAccepted | core/db/src/peace/migration/versions/init_tables.rs:201-273 | when an enumeration's texts are distinct, a text is in its `CREATE TYPE` value list exactly when it reads back as a member |
| Enums.GameModeText | core/db/src/peace/migration/versions/init_tables.rs:4-16 | definition without a contract of its own: the text each game mode is stored as (its identifier); the read-back is stated by Enums.GameModeRoundTrip |
| Enums.GameModeOfText | core/db/src/peace/migration/versions/init_tables.rs:4-16 | definition without a contract of its own: the game mode a stored text names, if any; inverse of Enums.GameModeText by Enums.GameModeRoundTrip |
| Enums.GameModeTextsDistinct | core/db/src/peace/migration/versions/init_tables.rs:4-16 | no two game modes are stored as the same text |
| Enums.GameModeRoundTrip | core/db/src/peace/migration/versions/init_tables.rs:4-16 | the text of a game mode reads back as that mode, and the only text that reads as a mode is that mode's |
| Enums.ScoreGradeText | core/db/src/peace/migration/versions/init_tables.rs:18-40 | definition without a contract of its own: the text each score grade is stored as (its identifier); the read-back is stated by Enums.ScoreGradeRoundTrip |
| Enums.ScoreGradeOfText | core/db/src/peace/migration/versions/init_tables.rs:18-40 | definition without a contract of its own: the score grade a stored text names, if any; inverse of Enums.ScoreGradeText by Enums.ScoreGradeRoundTrip |
| Enums.ScoreGradeTextsDistinct | core/db/src/peace/migration/versions/init_tables.rs:18-40 | the nine grades have pairwise distinct texts |
| Enums.ScoreGradeRoundTrip | core/db/src/peace/migration/versions/init_tables.rs:18-40 | grade to text to grade is the identity, and each grade has one text |
| Enums.RankStatusText | core/db/src/peace/migration/versions/init_tables.rs:42-60 | definition without a contract of its own: the text each rank status is stored as (its identifier); the read-back is stated by Enums.RankStatusRoundTrip |
| Enums.RankStatusOfText | core/db/src/peace/migration/versions/init_tables.rs:42-60 | definition without a contract of its own: the rank status a stored text names, if any; inverse of Enums.RankStatusText by Enums.RankStatusRoundTrip |
| Enums.RankStatusTextsDistinct | core/db/src/peace/migration/versions/init_tables.rs:42-60 | the seven rank statuses have pairwise distinct texts |
| Enums.RankStatusRoundTrip | core/db/src/peace/migration/versions/init_tables.rs:42-60 | status to text to status is the identity, and each status has one text |
| Enums.RankStatusOrdinal | core/db/src/peace/migration/versions/init_tables.rs:45-59 | definition without a contract of its own: the explicit discriminants -2 to 4 of the rank statuses; Enums.RankStatusOrdinalsRise states that they rise strictly in declaration order |
| Enums.RankStatusOrdinalsRise | core/db/src/peace/migration/versions/init_tables.rs:45-59 | the discriminants rise strictly in declaration order from -2 to 4; exactly Graveyard and Wip lie below Pending; all lie above the `Enum` pseudo-member's -3 |
| Enums.PpVersionText | core/db/src/peace/migration/versions/init_tables.rs:62-70 | definition without a contract of its own: the text each pp version is stored as (its identifier); the read-back is stated by Enums.PpVersionRoundTrip |
| Enums.PpVersionOfText | core/db/src/peace/migration/versions/init_tables.rs:62-70 | definition without a contract of its own: the pp version a stored text names, if any; inverse of Enums.PpVersionText by Enums.PpVersionRoundTrip |
| Enums.PpVersionTextsDistinct | core/db/src/peace/migration/versions/init_tables.rs:62-70 | no two pp versions are stored as the same text |
| Enums.PpVersionRoundTrip | core/db/src/peace/migration/versions/init_tables.rs:62-70 | pp version to text to pp version is the identity, and each version has one text |
| Enums.ScoreVersionText | core/db/src/peace/migration/versions/init_tables.rs:72-80 | definition without a contract of its own: the text each score version is stored as (its identifier); the read-back is stated by Enums.ScoreVersionRoundTrip |
| Enums.ScoreVersionOfText | core/db/src/peace/migration/versions/init_tables.rs:72-80 | definition without a contract of its own: the score version a stored text names, if any; inverse of Enums.ScoreVersionText by Enums.ScoreVersionRoundTrip |
| Enums.ScoreVersionTextsDistinct | core/db/src/peace/migration/versions/init_tables.rs:72-80 | no two score versions are stored as the same text |
| Enums.ScoreVersionRoundTrip | core/db/src/peace/migration/versions/init_tables.rs:72-80 | score version to text to score version is the identity, and each version has one text |
| Enums.RankingTypeText | core/db/src/peace/migration/versions/init_tables.rs:82-94 | definition without a contract of its own: the text each ranking type is stored as (its identifier); the read-back is stated by Enums.RankingTypeRoundTrip |
| Enums.RankingTypeOfText | core/db/src/peace/migration/versions/init_tables.rs:82-94 | definition without a contract of its own: the ranking type a stored text names, if any; inverse of Enums.RankingTypeText by Enums.RankingTypeRoundTrip |
| Enums.RankingTypeTextsDistinct | core/db/src/peace/migration/versions/init_tables.rs:82-94 | no two ranking types are stored as the same text |
| Enums.RankingTypeRoundTrip | core/db/src/peace/migration/versions/init_tables.rs:82-94 | ranking type to text to ranking type is the identity, and each type has one text |
| Enums.ChannelTypeText | core/db/src/peace/migration/versions/init_tables.rs:96-110 | definition without a contract of its own: the text each channel type is stored as (its identifier); the read-back is stated by Enums.ChannelTypeRoundTrip |
| Enums.ChannelTypeOfText | core/db/src/peace/migration/versions/init_tables.rs:96-110 | definition without a contract of its own: the channel type a stored text names, if any; inverse of Enums.ChannelTypeText by Enums.ChannelTypeRoundTrip |
| Enums.ChannelTypeTextsDistinct | core/db/src/peace/migration/versions/init_tables.rs:96-110 | no two channel types are stored as the same text |
| Enums.ChannelTypeRoundTrip | core/db/src/peace/migration/versions/init_tables.rs:96-110 | channel type to text to channel type is the identity (with the text `spectaor` as written), and each type has one text |
| Enums.ChannelHandleTypeText | core/db/src/peace/migration/versions/init_tables.rs:112-124 | definition without a contract of its own: the text each channel handle type is stored as (its identifier); the read-back is stated by Enums.ChannelHandleTypeRoundTrip |
| Enums.ChannelHandleTypeOfText | core/db/src/peace/migration/versions/init_tables.rs:112-124 | definition without a contract of its own: the channel handle type a stored text names, if any; inverse of Enums.ChannelHandleTypeText by Enums.ChannelHandleTypeRoundTrip |
| Enums.ChannelHandleTypeTextsDistinct | core/db/src/peace/migration/versions/init_tables.rs:112-124 | no two channel handle types are stored as the same text |
| Enums.ChannelHandleTypeRoundTrip | core/db/src/peace/migration/versions/init_tables.rs:112-124 | handle type to text to handle type is the identity, and each type has one text |
| Catalogue.EnumTypeName | core/db/src/peace/migration/versions/init_tables.rs:4-124 | definition without a contract of its own: the database type name each enumeration's `Enum` pseudo-member carries; Catalogue.TypeValuesDeclared and Migration.EnumTypesDeclared state that `up` creates a type of that name with the enumeration's members |
| Catalogue.TableName | core/db/src/peace/migration/versions/init_tables.rs:419-431 | definition without a contract of its own: the identifier each module's `Table` variant gives the database; Catalogue.TableNamesDistinct states that no two modules share one |
| Catalogue.Create | core/db/src/peace/migration/versions/init_tables.rs:433-2392 | definition without a contract of its own: each module's `create()` as its table, columns and primary key; Migration.TableDeclared states that `up` creates exactly this table |
| Catalogue.Drop | core/db/src/peace/migration/versions/init_tables.rs:496-2396 | definition without a contract of its own: each module's `drop()`; Catalogue.TableListsComplete states that `down` drops every table `up` creates |
| Catalogue.UsersColumns | core/db/src/peace/migration/versions/init_tables.rs:433-495 | definition without a contract of its own: the columns `users` is created with, in order, with their enumeration types and unique flags |
| Catalogue.PrivilegesColumns | core/db/src/peace/migration/versions/init_tables.rs:557-590 | definition without a contract of its own: the columns `privileges` is created with, in order, with their enumeration types and unique flags |
| Catalogue.UserPrivilegesColumns | core/db/src/peace/migration/versions/init_tables.rs:632-656 | definition without a contract of its own: the columns `user_privileges` is created with, in order, with their enumeration types and unique flags |
| Catalogue.BanchoClientHardwareRecordsColumns | core/db/src/peace/migration/versions/init_tables.rs:743-814 | definition without a contract of its own: the columns `bancho_client_hardware_records` is created with, in order, with their enumeration types and unique flags |
| Catalogue.FavouriteBeatmapsColumns | core/db/src/peace/migration/versions/init_tables.rs:857-886 | definition without a contract of its own: the columns `favourite_beatmaps` is created with, in order, with their enumeration types and unique flags |
| Catalogue.FollowersColumns | core/db/src/peace/migration/versions/init_tables.rs:942-967 | definition without a contract of its own: the columns `followers` is created with, in order, with their enumeration types and unique flags |
| Catalogue.UserSettingsColumns | core/db/src/peace/migration/versions/init_tables.rs:1036-1074 | definition without a contract of its own: the columns `user_settings` is created with, in order, with their enumeration types and unique flags |
| Catalogue.BeatmapsColumns | core/db/src/peace/migration/versions/init_tables.rs:1147-1282 | definition without a contract of its own: the columns `beatmaps` is created with, in order, with their enumeration types and unique flags |
| Catalogue.BeatmapRatingsColumns | core/db/src/peace/migration/versions/init_tables.rs:1353-1382 | definition without a contract of its own: the columns `beatmap_ratings` is created with, in order, with their enumeration types and unique flags |
| Catalogue.ChannelsColumns | core/db/src/peace/migration/versions/init_tables.rs:1454-1486 | definition without a contract of its own: the columns `channels` is created with, in order, with their enumeration types and unique flags |
| Catalogue.ChannelUsersColumns | core/db/src/peace/migration/versions/init_tables.rs:1523-1540 | definition without a contract of its own: the columns `channel_users` is created with, in order, with their enumeration types and unique flags |
| Catalogue.ChannelPrivilegesColumns | core/db/src/peace/migration/versions/init_tables.rs:1613-1647 | definition without a contract of its own: the columns `channel_privileges` is created with, in order, with their enumeration types and unique flags |
| Catalogue.ChatMessagesColumns | core/db/src/peace/migration/versions/init_tables.rs:1724-1757 | definition without a contract of its own: the columns `chat_messages` is created with, in order, with their enumeration types and unique flags |
| Catalogue.ScoresColumns | core/db/src/peace/migration/versions/init_tables.rs:1835-1876 | definition without a contract of its own: the columns `scores` is created with, in order, with their enumeration types and unique flags |
| Catalogue.ScoresClassicColumns | core/db/src/peace/migration/versions/init_tables.rs:1957-2037 | definition without a contract of its own: the columns `scores_classic` is created with, in order, with their enumeration types and unique flags |
| Catalogue.ScoresGenericColumns | core/db/src/peace/migration/versions/init_tables.rs:2083-2097 | definition without a contract of its own: the columns `score_generic` is created with, in order, with their enumeration types and unique flags |
| Catalogue.LeaderboardColumns | core/db/src/peace/migration/versions/init_tables.rs:2147-2164 | definition without a contract of its own: the columns `leaderboard` is created with, in order, with their enumeration types and unique flags |
| Catalogue.ScorePpColumns | core/db/src/peace/migration/versions/init_tables.rs:2238-2250 | definition without a contract of its own: the columns `score_pp` is created with, in order, with their enumeration types and unique flags |
| Catalogue.UserPpColumns | core/db/src/peace/migration/versions/init_tables.rs:2298-2310 | definition without a contract of its own: the columns `user_pp` is created with, in order, with their enumeration types and unique flags |
| Catalogue.UserStatsColumns | core/db/src/peace/migration/versions/init_tables.rs:2369-2392 | definition without a contract of its own: the columns `user_stats` is created with, in order, with their enumeration types and unique flags |
| Catalogue.PrimaryKey | core/db/src/peace/migration/versions/init_tables.rs:433-2392 | definition without a contract of its own: the column-level or table-level primary key of each module's `create()`; Entities.LeaderboardMatchesTable and its siblings state that it is the entity's key |
| Catalogue.CreateForeignKeys | core/db/src/peace/migration/versions/init_tables.rs:661-2406 | definition without a contract of its own: each module's foreign keys, all ON DELETE and ON UPDATE CASCADE; Catalogue.ModuleForeignKeys pairs them with the drops |
| Catalogue.DropForeignKeys | core/db/src/peace/migration/versions/init_tables.rs:687-2413 | definition without a contract of its own: each module's foreign-key drops; Catalogue.ModuleForeignKeys states that they undo exactly the module's creates |
| Catalogue.CreateIndexes | core/db/src/peace/migration/versions/init_tables.rs:500-2417 | definition without a contract of its own: each module's indexes with their unique flags; Catalogue.ModuleIndexes pairs them with the drops |
| Catalogue.DropIndexes | core/db/src/peace/migration/versions/init_tables.rs:523-2420 | definition without a contract of its own: each module's index drops; Catalogue.ModuleIndexes states that they undo exactly the module's creates |
| Catalogue.TableNamesDistinct | core/db/src/peace/migration/versions/init_tables.rs:132-153 | distinct table modules declare distinct table names |
| Catalogue.TableListsComplete | core/db/src/peace/migration/versions/init_tables.rs:299-320 | `up` creates and `down` drops the tables of all 20 modules, each once, in the same order |
| Catalogue.ModuleForeignKeys | core/db/src/peace/migration/versions/init_tables.rs:661-702 | each module's `drop_foreign_keys` drops exactly the constraints its `create_foreign_keys` adds, one for one and in order |
| Catalogue.ModuleIndexes | core/db/src/peace/migration/versions/init_tables.rs:500-538 | each module's `drop_indexes` drops exactly the indexes its `create_indexes` adds, one for one and in order |
| Catalogue.ForeignKeyNamesDistinct | core/db/src/peace/migration/versions/init_tables.rs:155-175 | the foreign keys `up` adds have pairwise distinct names |
| Catalogue.ForeignKeyListsMirror | core/db/src/peace/migration/versions/init_tables.rs:322-342 | position by position, `down`'s foreign-key drops remove the constraints of `up`'s list, from the tables they were added to |
| Catalogue.IndexNamesDistinct | core/db/src/peace/migration/versions/init_tables.rs:177-199 | the indexes `up` creates have pairwise distinct names |
| Catalogue.IndexListsMirror | core/db/src/peace/migration/versions/init_tables.rs:344-366 | position by position, `down`'s index drops remove the indexes of `up`'s list, from the tables they were created on |
| Catalogue.TypeValuesDeclared | core/db/src/peace/migration/versions/init_tables.rs:201-273 | each of the eight `CREATE TYPE` statements carries its enumeration's name and every member's text at its declaration position, so the database type admits exactly the texts the entity reads back |
| Catalogue.EnumCreated | core/db/src/peace/migration/versions/init_tables.rs:201-273 | a `CREATE TYPE` built from an enumeration with distinct texts lists every member in order and admits no other text |
| Catalogue.TypeListsMirror | core/db/src/peace/migration/versions/init_tables.rs:368-385 | the eight types have distinct names, and `down` drops each one at the position `up` created it |
| Ddl.Apply | core/db/src/peace/migration/versions/init_tables.rs:275-293 | a statement the database accepts keeps the schema's referential integrity |
| Ddl.ApplyAccepts | core/db/src/peace/migration/versions/init_tables.rs:275-293 | a statement succeeds exactly when the database's demands on it are met |
| Ddl.DropTableKeepsValid | core/db/src/peace/migration/versions/init_tables.rs:397-399 | dropping a table no other table refers to keeps referential integrity |
| Ddl.DropTableKeepsForeignKeys | core/db/src/peace/migration/versions/init_tables.rs:397-399 | after such a drop, every remaining foreign key joins remaining tables |
| Ddl.DropTypeKeepsValid | core/db/src/peace/migration/versions/init_tables.rs:401-405 | dropping a type no column uses keeps referential integrity |
| Ddl.Exec | core/db/src/peace/migration/versions/init_tables.rs:275-293 | definition without a contract of its own: the statements run in order, the first refusal ending the run; its properties are the Ddl.Exec lemmas below |
| Ddl.ExecKeepsValid | core/db/src/peace/migration/versions/init_tables.rs:281-283 | a run of statements keeps referential integrity, whether it succeeds or stops at an error |
| Ddl.ExecAppend | core/db/src/peace/migration/versions/init_tables.rs:281-293 | running two lists in sequence runs the second only if the first succeeded, from where it ended |
| Ddl.ExecPrefixPasses | core/db/src/peace/migration/versions/init_tables.rs:281-283 | every prefix of a successful run succeeds |
| Ddl.ExecPassEachStep | core/db/src/peace/migration/versions/init_tables.rs:281-283 | a successful run applied each statement to the schema the earlier ones left |
| Ddl.ExecFailsAtFirstError | core/db/src/peace/migration/versions/init_tables.rs:281-283 | a failed run failed at a first refused statement: everything before it succeeded, nothing after it changed the schema, and the error is that statement's |
| Ddl.ExecThen | core/db/src/peace/migration/versions/init_tables.rs:281-293 | after a successful list, the next list runs from the schema it left |
| Ddl.ExecStops | core/db/src/peace/migration/versions/init_tables.rs:281-293 | after a failed list nothing more runs, and the run reports that failure |
| Ddl.ExecAfterFailure | core/db/src/peace/migration/versions/init_tables.rs:281-283 | once a prefix has failed, the whole loop ends as that prefix did |
| Ddl.ExecAcceptsEachStep | core/db/src/peace/migration/versions/init_tables.rs:281-283 | in a successful run, every statement met the database's demands at the moment it was sent |
| Ddl.Database.Execute | core/db/src/peace/migration/versions/init_tables.rs:282 | one `manager.create_*`/`drop_*` call: it passes exactly when the database accepts the statement, and the schema becomes what applying it gives, or stays the same on refusal |
| Ddl.CreateTypesRun | core/db/src/peace/migration/versions/init_tables.rs:275-279 | on Postgres, creating types with fresh, distinct names adds exactly those names |
| Ddl.CreateTablesRun | core/db/src/peace/migration/versions/init_tables.rs:281-283 | creating tables for distinct, absent modules adds exactly those tables, provided on Postgres that their columns' types exist |
| Ddl.CreateForeignKeysRun | core/db/src/peace/migration/versions/init_tables.rs:285-289 | off SQLite, adding foreign keys with fresh distinct names between existing tables adds exactly those constraints |
| Ddl.CreateIndexesRun | core/db/src/peace/migration/versions/init_tables.rs:291-293 | creating indexes with fresh distinct names on existing tables adds exactly those indexes |
| Ddl.DropForeignKeysRun | core/db/src/peace/migration/versions/init_tables.rs:387-391 | off SQLite, dropping distinct existing constraints, each from its own table, removes exactly those constraints |
| Ddl.DropIndexesRun | core/db/src/peace/migration/versions/init_tables.rs:393-395 | dropping distinct existing indexes, each from its own table, removes exactly those indexes |
| Ddl.DropTablesRun | core/db/src/peace/migration/versions/init_tables.rs:397-399 | with no foreign key and no index left, dropping distinct existing tables removes exactly those tables |
| Ddl.DropTypesRun | core/db/src/peace/migration/versions/init_tables.rs:401-405 | on Postgres, with no table left, dropping distinct existing types removes exactly those types |
| Migration.UpPlan | core/db/src/peace/migration/versions/init_tables.rs:131-296 | definition without a contract of its own: the statements `up` sends, types (Postgres only), tables, foreign keys (not on SQLite), indexes; Migration.UpSends and Migration.UpInStageOrder state their content and order |
| Migration.DownPlan | core/db/src/peace/migration/versions/init_tables.rs:298-408 | definition without a contract of its own: the statements `down` sends, foreign keys (not on SQLite), indexes, tables, types (Postgres only); Migration.DownSends and Migration.DownInStageOrder state their content and order |
| Migration.Deployed | core/db/src/peace/migration/versions/init_tables.rs:131-296 | definition without a contract of its own: the schema a successful `up` leaves; Migration.UpDeploys states that `up` reaches it |
| Migration.UpTypeStage | core/db/src/peace/migration/versions/init_tables.rs:275-279 | on an empty database the type stage creates every declared type on Postgres and nothing elsewhere |
| Migration.UpTableStage | core/db/src/peace/migration/versions/init_tables.rs:281-283 | after the type stage, every declared table is created on every backend |
| Migration.UpForeignKeyStage | core/db/src/peace/migration/versions/init_tables.rs:285-289 | after the tables, every foreign key is created off SQLite, and none on SQLite |
| Migration.UpIndexStage | core/db/src/peace/migration/versions/init_tables.rs:291-293 | after the foreign keys, every index is created on every backend, giving the deployed schema |
| Migration.UpDeploys | core/db/src/peace/migration/versions/init_tables.rs:131-296 | for a well-formed plan, `up` on an empty database succeeds on every backend and deploys exactly the declared objects for that backend |
| Migration.ForeignKeyDropsMatch | core/db/src/peace/migration/versions/init_tables.rs:322-342 | drops that mirror distinct foreign keys are distinct, each finds its constraint on its table, and together they name every constraint |
| Migration.IndexDropsMatch | core/db/src/peace/migration/versions/init_tables.rs:344-366 | drops that mirror distinct indexes are distinct, each finds its index on its table, and together they name every index |
| Migration.DownForeignKeyStage | core/db/src/peace/migration/versions/init_tables.rs:387-391 | on the deployed schema, the first stage of `down` removes every foreign key off SQLite, where none was created |
| Migration.DownIndexStage | core/db/src/peace/migration/versions/init_tables.rs:393-395 | then every index is dropped on every backend |
| Migration.DownTableStage | core/db/src/peace/migration/versions/init_tables.rs:397-399 | then every table is dropped, none while a foreign key still refers to it |
| Migration.DownTypeStage | core/db/src/peace/migration/versions/init_tables.rs:401-405 | then the types are dropped on Postgres, none while a column uses it; elsewhere none exists |
| Migration.DownClears | core/db/src/peace/migration/versions/init_tables.rs:298-408 | for a well-formed mirrored plan, `down` on the deployed schema succeeds on every backend and leaves nothing |
| Migration.UpThenDown | core/db/src/peace/migration/versions/init_tables.rs:132-385 | `down` after `up` takes an empty database back to empty, on every backend |
| Migration.UpInStageOrder | core/db/src/peace/migration/versions/init_tables.rs:275-293 | `up` sends all types, then all tables, then all foreign keys, then all indexes, and nothing else |
| Migration.DownInStageOrder | core/db/src/peace/migration/versions/init_tables.rs:387-405 | `down` sends all foreign-key drops, then index drops, then table drops, then type drops, and nothing else |
| Migration.UpSends | core/db/src/peace/migration/versions/init_tables.rs:275-293 | `up` sends a type exactly on Postgres, a foreign key exactly off SQLite, and every table and index on every backend |
| Migration.DownSends | core/db/src/peace/migration/versions/init_tables.rs:387-405 | `down` sends a type drop exactly on Postgres, a foreign-key drop exactly off SQLite, and every table and index drop on every backend |
| Migration.FirstStepRefused | core/db/src/peace/migration/versions/init_tables.rs:277 | a loop whose first statement is refused stops there with that error and an unchanged schema |
| Migration.UngatedTypesRefused | core/db/src/peace/migration/versions/init_tables.rs:275 | without the Postgres gate, a non-empty type stage would fail at once on MySQL and SQLite, in both directions |
| Migration.UngatedForeignKeysRefused | core/db/src/peace/migration/versions/init_tables.rs:285 | without the SQLite gate, a non-empty foreign-key stage would fail at once on SQLite, in both directions |
| Migration.UpStepsAccepted | core/db/src/peace/migration/versions/init_tables.rs:281-293 | every statement `up` sends meets the database's demands when sent: both tables of a foreign key exist, an index's table exists, and on Postgres a table's column types exist |
| Migration.DownStepsAccepted | core/db/src/peace/migration/versions/init_tables.rs:387-405 | every statement `down` sends meets the database's demands when sent: no table is dropped while referenced and no type while in use |
| Migration.TableDeclared | core/db/src/peace/migration/versions/init_tables.rs:132-153 | `up` creates the table of each module exactly as that module's `create()` declares it |
| Migration.DeclaredTables | core/db/src/peace/migration/versions/init_tables.rs:132-153 | `up` creates each module's table once, covers every module, and `down` drops them in the same order |
| Migration.EnumTypesDeclared | core/db/src/peace/migration/versions/init_tables.rs:201-273 | on Postgres, `up` creates the type of every enumeration |
| Migration.ColumnTypesDeclared | core/db/src/peace/migration/versions/init_tables.rs:1054-2011 | every enumeration type a column uses is among the created types |
| Migration.DeclaredTypes | core/db/src/peace/migration/versions/init_tables.rs:201-279 | the declared types are distinct, cover every column's enumeration type, and are dropped at the positions they were created |
| Migration.DeclaredForeignKeyNames | core/db/src/peace/migration/versions/init_tables.rs:155-175 | the migration's foreign keys have pairwise distinct names |
| Migration.DeclaredForeignKeyTables | core/db/src/peace/migration/versions/init_tables.rs:155-175 | every foreign key of the migration joins two tables the migration creates |
| Migration.DeclaredIndexes | core/db/src/peace/migration/versions/init_tables.rs:177-199 | the migration's indexes have distinct names, are on created tables, and are each dropped at their position |
| Migration.DeclaredWellFormed | core/db/src/peace/migration/versions/init_tables.rs:132-273 | the concrete lists of the migration form a well-formed plan |
| Migration.DeclaredMirrors | core/db/src/peace/migration/versions/init_tables.rs:299-385 | the concrete drop lists mirror the create lists position by position |
| Migration.RunSteps | core/db/src/peace/migration/versions/init_tables.rs:281-283 | one `for stmt in stmts { manager.x(stmt).await?; }` loop leaves the database and result exactly as the sequential run stopping at the first error |
| Migration.FailureEndsRun | core/db/src/peace/migration/versions/init_tables.rs:277 | once a stage fails, the later stages change nothing, because `?` returns at once |
| Migration.UpStages | core/db/src/peace/migration/versions/init_tables.rs:275-295 | the four gated loops of `up` do exactly what running the up plan does; for a well-formed plan on an empty database they pass and deploy it |
| Migration.DownStages | core/db/src/peace/migration/versions/init_tables.rs:387-407 | the four gated loops of `down` do exactly what running the down plan does; for a well-formed mirrored plan on the deployed schema they pass and leave it empty |
| Migration.DeclaredUpDeploys | core/db/src/peace/migration/versions/init_tables.rs:131-296 | the migration's `up` on an empty database succeeds on every backend and deploys its schema |
| Migration.DeclaredDownClears | core/db/src/peace/migration/versions/init_tables.rs:298-408 | the migration's `down` on that schema succeeds on every backend and leaves the database empty |
| Migration.Up | core/db/src/peace/migration/versions/init_tables.rs:131-296 | `Migration::up` leaves the database and its result exactly as running the declared up plan on the backend does |
| Migration.Down | core/db/src/peace/migration/versions/init_tables.rs:298-408 | `Migration::down` leaves the database and its result exactly as running the declared down plan on the backend does |
| Entities.EntityTable | core/db/src/peace/entity/scores.rs:8 | definition without a contract of its own: the `table_name` each entity declares; the MatchesTable lemmas state that it is the migration's table name, and Entities.ScoresGenericEntityDisagrees that `scores_generic` is not |
| Entities.MigrationTable | core/db/src/peace/entity/scores.rs:8 | definition without a contract of its own: the migration module whose table each entity is meant to map; used by Entities.RelationsEnforced and the MatchesTable lemmas |
| Entities.PayloadTable | core/db/src/peace/entity/scores.rs:18-19 | definition without a contract of its own: the extension table a score's `kind` points at, `scores_classic` for the classic kind and none known for any other |
| Entities.Verified | core/db/src/peace/entity/scores.rs:25-26 | definition without a contract of its own: a score is verified exactly when `verified_at` is present |
| Entities.EntityColumns | core/db/src/peace/entity/scores.rs:9-29 | definition without a contract of its own: each entity's column names, in declaration order; the MatchesTable and Disagrees lemmas compare them with the migration |
| Entities.EntityPrimaryKey | core/db/src/peace/entity/leaderboard.rs:9-18 | definition without a contract of its own: the fields each entity marks as primary key, in order |
| Entities.Relations | core/db/src/peace/entity/scores.rs:31-47 | definition without a contract of its own: each entity's `belongs_to` relations; Entities.RelationsEnforced states that the migration's foreign keys enforce them |
| Entities.Enforces | core/db/src/peace/entity/scores.rs:37-43 | definition without a contract of its own: the `belongs_to` relation a foreign key of the migration enforces; Entities.RelationsEnforced states that each entity's relations are exactly its table's foreign keys |
| Entities.RelationsEnforced | core/db/src/peace/entity/leaderboard.rs:20-46 | each entity's `belongs_to` relations are exactly the foreign keys the migration creates on its table, in order, with the same columns and targets |
| Entities.LeaderboardMatchesTable | core/db/src/peace/entity/leaderboard.rs:8-18 | the leaderboard entity has the migration table's name, columns in order and composite primary key |
| Entities.ClassicMatchesTable | core/db/src/peace/entity/scores_classic.rs:9-32 | the classic entity has the migration table's name, columns in order and primary key |
| Entities.UserStatsMatchesTable | core/db/src/peace/entity/user_stats.rs:7-28 | the stats entity has the migration table's name, columns in order and (user, mode) key |
| Entities.ScorePpMatchesTable | core/db/src/peace/entity/score_pp.rs:8-19 | the score pp entity has the migration table's name, columns in order and three-part key |
| Entities.UserPpMatchesTable | core/db/src/peace/entity/user_pp.rs:8-19 | the user pp entity has the migration table's name, columns in order and three-part key |
| Entities.ScoresEntityDisagrees | core/db/src/peace/entity/scores.rs:21-24 | table name and key agree, but the entity's `invisible` is not a table column and its `playtime` is the table's `play_time` |
| Entities.ScoresEntityAgreesOtherwise | core/db/src/peace/entity/scores.rs:8-29 | apart from those two, the table's columns are the entity's, in order |
| Entities.ScoresTableColumns | core/db/src/peace/migration/versions/init_tables.rs:1835-1876 | the `scores` table's columns, in creation order |
| Entities.ScoresGenericEntityDisagrees | core/db/src/peace/migration/versions/init_tables.rs:2076-2094 | the migration names the table `score_generic` and creates `mode` where the entity has `scores_generic` and `score`; key and `json` agree |
| Entities.MigrationKeyOddities | core/db/src/peace/migration/versions/init_tables.rs:637-640 | `user_privileges` is keyed by `user_id` alone, so a user can hold at most one privilege row, and the `chat_messages.channel_id` index is unique |
| Tables.InsertScore | core/db/src/peace/entity/scores.rs:10-17 | an insert of an entity-shaped score row with a caller-supplied id succeeds exactly when the id is free, the checksum is unused and the user exists; it then adds just that row and keeps the store valid |
| Tables.InsertClassic | core/db/src/peace/entity/scores_classic.rs:11-43 | a classic payload is stored exactly when its score exists and has none yet; it then adds just that row and keeps the store valid |
| Tables.InsertGeneric | core/db/src/peace/entity/scores_generic.rs:8-24 | a generic payload, in the entity's shape, is stored exactly when its score exists and has none yet; it then adds just that row and keeps the store valid |
| Tables.InsertLeaderboard | core/db/src/peace/entity/leaderboard.rs:10-45 | a slot is filled exactly when its caller-supplied key is free and its beatmap, score and user exist; it then adds just that row and keeps the store valid |
| Tables.UpdateLeaderboard | core/db/src/peace/entity/leaderboard.rs:16-17 | a slot's holder changes exactly when the slot exists and the new user and score exist; the set of slots and every other slot and table stay as they were |
| Tables.InsertScorePp | core/db/src/peace/entity/score_pp.rs:10-30 | a score pp row is stored exactly when its (score, mode, version) key is free and the score exists; it then adds just that row and keeps the store valid |
| Tables.InsertUserPp | core/db/src/peace/entity/user_pp.rs:10-30 | a user pp row is stored exactly when its (user, mode, version) key is free and the user exists; it then adds just that row and keeps the store valid |
| Tables.InsertUserStats | core/db/src/peace/entity/user_stats.rs:9-39 | a stats row is stored exactly when its (user, mode) key is free and the user exists; it then adds just that row and keeps the store valid |
| Tables.DeleteScores | core/db/src/peace/entity/scores.rs:31-47 | definition without a contract of its own: deleting scores with ON DELETE CASCADE into their payloads, slots and pp rows; Tables.DeleteScoresCascades and Tables.DeleteScoresKeepsValid state the cascade |
| Tables.DeleteScoresCascades | core/db/src/peace/entity/score_pp.rs:22-30 | deleting scores removes them, their classic and generic payloads, the slots they hold and their pp rows, keeps every other row unchanged, and leaves users, beatmaps, user pp and stats alone |
| Tables.DeleteScoresKeepsValid | core/db/src/peace/migration/versions/init_tables.rs:2042-2264 | after the cascade, every remaining row still refers to existing rows |
| Tables.DeleteUser | core/db/src/peace/entity/scores.rs:37-44 | deleting a user removes the user's scores with their own cascade, the slots, pp rows and stats rows of the user, and keeps every row of other users |
| Tables.DeleteUserKeepsValid | core/db/src/peace/entity/user_stats.rs:31-39 | deleting a user keeps the store valid |
| Tables.DeleteBeatmap | core/db/src/peace/entity/leaderboard.rs:22-29 | deleting a beatmap removes every slot of that beatmap, keeps every other slot and table, and keeps the store valid |
| Tables.ScoresMoved | core/db/src/peace/entity/scores.rs:41 | after a user id update, every score keeps its key and columns, and its user follows the move; none refers to the old id |
| Tables.SlotsMoved | core/db/src/peace/entity/leaderboard.rs:38-45 | after a user id update, every slot keeps its key and score, and its holder follows the move |
| Tables.UserPpMoved | core/db/src/peace/entity/user_pp.rs:27 | after a user id update, the old user's pp rows are filed under the new id with their user column changed, and every other row stays under its key |
| Tables.UserStatsMoved | core/db/src/peace/entity/user_stats.rs:36 | after a user id update, the old user's stats rows are filed under the new id with their user column changed, and every other row stays under its key |
| Tables.RenameUser | core/db/src/peace/entity/scores.rs:37-44 | definition without a contract of its own: every table after a user id changes with ON UPDATE CASCADE; Tables.UpdateUserIdKeepsValid and Tables.UpdateUserIdRoundTrip state its properties |
| Tables.UpdateUserId | core/db/src/peace/entity/scores.rs:37-44 | a user id update is refused with a duplicate key exactly when the new id is another user's; it is a no-op when the old id is absent; otherwise every referring row follows |
| Tables.UserPpMovedHeld | core/db/src/peace/entity/user_pp.rs:22-30 | moving a user's pp rows to a fresh id keeps every pp row pointing at an existing user |
| Tables.UserStatsMovedHeld | core/db/src/peace/entity/user_stats.rs:31-39 | moving a user's stats rows to a fresh id keeps every stats row pointing at an existing user |
| Tables.UpdateUserIdKeepsValid | core/db/src/peace/entity/scores.rs:41 | a successful user id update keeps the store valid |
| Tables.SlotsRekeyed | core/db/src/peace/entity/leaderboard.rs:22-29 | after a bid update, the old beatmap's slots are filed under the new bid with their beatmap column changed, and every other slot stays under its key |
| Tables.UpdateBeatmapId | core/db/src/peace/entity/leaderboard.rs:22-29 | a bid update is refused exactly when the new bid is taken; it is a no-op when the old bid is absent; otherwise its slots follow the beatmap |
| Tables.UpdateBeatmapIdKeepsValid | core/db/src/peace/entity/leaderboard.rs:22-29 | a successful bid update keeps the store valid |
| Tables.ScoreIdsMoved | core/db/src/peace/entity/scores.rs:10-11 | after a score id update to a fresh id, that score is filed under the new id with its id column changed, and every other score stays where it was |
| Tables.ClassicMoved | core/db/src/peace/entity/scores_classic.rs:41 | the classic payload of the old score id is filed under the new id, and every other payload stays where it was |
| Tables.GenericMoved | core/db/src/peace/entity/scores_generic.rs:21 | the generic payload of the old score id is filed under the new id, and every other payload stays where it was |
| Tables.SlotsRescored | core/db/src/peace/entity/leaderboard.rs:30-37 | after a score id update, every slot keeps its key and holder, and its score follows the move |
| Tables.ScorePpMoved | core/db/src/peace/entity/score_pp.rs:27 | the old score's pp rows are filed under the new id with their score column changed, and every other row stays under its key |
| Tables.RenameScore | core/db/src/peace/entity/scores_classic.rs:36-43 | definition without a contract of its own: every table after a score id changes with ON UPDATE CASCADE; Tables.RenameScoreKeepsValid and Tables.UpdateScoreIdRoundTrip state its properties |
| Tables.UpdateScoreId | core/db/src/peace/entity/scores_classic.rs:36-43 | a score id update is refused with a duplicate key exactly when the new id is another score's; it is a no-op when the old id is absent; otherwise every referring row follows |
| Tables.ScoreIdsMovedHeld | core/db/src/peace/entity/scores.rs:10-11 | moving a score to a fresh id keeps every score filed under its own id and owned by an existing user |
| Tables.ScoreIdsMovedUnique | core/db/src/peace/entity/scores.rs:15-17 | moving a score to a fresh id keeps checksums unique |
| Tables.SlotsRescoredHeld | core/db/src/peace/entity/leaderboard.rs:30-37 | after a score id update, every slot still refers to an existing beatmap, score and user |
| Tables.ClassicMovedHeld | core/db/src/peace/entity/scores_classic.rs:36-43 | after a score id update, every classic payload still belongs to an existing score under its own id |
| Tables.GenericMovedHeld | core/db/src/peace/entity/scores_generic.rs:17-24 | after a score id update, every generic payload still belongs to an existing score under its own id |
| Tables.ScorePpMovedHeld | core/db/src/peace/entity/score_pp.rs:22-30 | after a score id update, every score pp row still belongs to an existing score |
| Tables.RenameScoreKeepsValid | core/db/src/peace/migration/versions/init_tables.rs:2042-2264 | moving an existing score to a fresh id, with every cascade applied, keeps the store valid |
| Tables.UpdateScoreIdKeepsValid | core/db/src/peace/migration/versions/init_tables.rs:2042-2264 | a successful score id update keeps the store valid |
| Tables.DeleteUnreferencedScore | core/db/src/peace/entity/scores.rs:32-46 | deleting a score nothing refers to removes only that score's row |
| Tables.InsertScoreThenDelete | core/db/src/peace/entity/scores.rs:10-17 | in a valid store, deleting a score just inserted restores the store exactly |
| Tables.ScoresMovedBack | core/db/src/peace/entity/scores.rs:41 | moving scores' user to a fresh id and back restores them |
| Tables.SlotsMovedBack | core/db/src/peace/entity/leaderboard.rs:38-45 | moving slots' holder to a fresh id and back restores them |
| Tables.UserPpMovedBack | core/db/src/peace/entity/user_pp.rs:27 | moving user pp rows to a fresh user id and back restores them |
| Tables.UserStatsMovedBack | core/db/src/peace/entity/user_stats.rs:36 | moving stats rows to a fresh user id and back restores them |
| Tables.UpdateUserIdRoundTrip | core/db/src/peace/entity/user_stats.rs:31-39 | in a valid store, changing a user's id and changing it back succeeds and restores the store exactly |
| Tables.ScoreIdsMovedBack | core/db/src/peace/entity/scores.rs:10-11 | moving a score to a fresh id and back restores the scores |
| Tables.ClassicMovedBack | core/db/src/peace/entity/scores_classic.rs:41 | moving a classic payload to a fresh id and back restores the payloads |
| Tables.GenericMovedBack | core/db/src/peace/entity/scores_generic.rs:21 | moving a generic payload to a fresh id and back restores the payloads |
| Tables.SlotsRescoredBack | core/db/src/peace/entity/leaderboard.rs:30-37 | moving slots' score to a fresh id and back restores them |
| Tables.ScorePpMovedBack | core/db/src/peace/entity/score_pp.rs:22-30 | moving score pp rows to a fresh score id and back restores them |
| Tables.UpdateScoreIdRoundTrip | core/db/src/peace/migration/versions/init_tables.rs:2042-2264 | in a valid store, changing a score's id and changing it back succeeds and restores the store exactly |
| Tables.ScorePpVersionsCoexist | core/db/src/peace/entity/score_pp.rs:10-15 | pp rows of one score and mode under two versions are both stored, each under its own key |
| Tables.UserPpVersionsCoexist | core/db/src/peace/entity/user_pp.rs:10-15 | pp rows of one user and mode under two versions are both stored, each under its own key |

## Left out

- `SchemaManager`, `async`/`await` and the SQL text of the builders are not modelled.
  - Each `manager.create_*`/`drop_*` call is a step over an abstract schema that may be
    refused.
  - A statement is represented by its name and the tables and types it refers to.
  - The database's own rules (what each statement needs and what it removes) are the
    model's choice, named after the Postgres error classes.
  - A MySQL `ENUM` column needs no type, and SQLite stores enumerations as text.
- Column storage types, widths, defaults, nullability (`not_null`/`null`) and the
  `Decimal`, JSON and timestamp values are carried as opaque text or not at all; the
  enumeration types used by columns are kept by name.
- Transactions, transactional DDL and concurrent access are not modelled. A migration that
  fails midway leaves the schema as far as it got.
- `Iden` derivation of snake-case identifiers is written out as literal names, not derived.
- `sea_orm_active_enums` is not part of this model; the entities use the enumerations of
  `init_tables.rs`.
- `ScoreKind` is kept abstract: a classic member and any other stored text.
  - Entities.PayloadTable names only the classic extension.
  - Entities.Verified is a definition (present `verified_at`), with no further property
    stated.
- The `users` and `beatmaps` tables carry only their key columns in the data model.
  - Their other columns are not modelled.
  - Neither are the other tables that refer to them (ratings, favourites, followers,
    settings, privileges, hardware records, chat and channels).
  - Those tables exist only in the migration catalogue.
  - So DeleteUser and DeleteBeatmap cascade only within the score subsystem's tables.
- The data model assumes the foreign keys are in place, as on Postgres and MySQL. On SQLite
  `up` creates no foreign keys, so no check or cascade would happen there.
- Tables.InsertScore: the score id is supplied by the caller. In the source `scores.id` is
  an auto-increment key, so the database's sequence picks it; the sequence is not modelled,
  and an id that is already taken is refused with a duplicate-key error.
- Tables.InsertScore: the store holds rows in the entity's shape, not the deployed table's.
  A score row carries `invisible` and `playtime`; the `scores` table that `up` creates has
  no `invisible` column and spells the other `play_time`
  (Entities.ScoresEntityDisagrees). On the schema `up` deploys, such an insert would be
  refused. The model does not capture that refusal.
- Tables.InsertGeneric: the store holds the generic payload in the entity's shape. The
  entity names its table `scores_generic` with a `score` column, but `up` creates
  `score_generic` with a `mode` column (Entities.ScoresGenericEntityDisagrees). On the
  deployed schema this insert would be refused, and the model does not capture that
  refusal.
- Tables.InsertScore: where several constraints fail at once, which error is reported
  follows a fixed order (key, then checksum, then user). The database's order is not
  specified.
- Tables.DeleteScores states its cascade in the lemmas DeleteScoresCascades and
  DeleteScoresKeepsValid rather than in its own contract.
- Migration.Up and Migration.Down state only their correspondence with the declared up and
  down plans. That up deploys and down clears is stated by DeclaredUpDeploys and
  DeclaredDownClears.
- Reading a row, leaderboard queries, pp computation and score ingestion are not in these
  files.
