/**
  The rows stored in the score subsystem's tables and what the database does to them on
  each write: every table is a map keyed by its declared primary key, an insert is refused
  when its key or a unique column is taken or a row it refers to is missing, and deleting
  or re-keying a referenced row cascades to the rows that refer to it, as the foreign keys
  of the migration declare (ON DELETE CASCADE, ON UPDATE CASCADE).

  Of the parent tables outside this subsystem, `users` and `beatmaps`, only the referenced
  key columns are kept.
*/
module Tables {
  import opened Wrappers
  import opened Enums
  import opened Entities

  /** Why the database refuses a write. */
  datatype WriteErr = DuplicateKey | UniqueViolation | ForeignKeyViolation | NotFound

  /** The rows of every table, each filed under its primary key. */
  datatype Store = Store(
    users: set<int32>,
    beatmaps: set<int32>,
    scores: map<int64, ScoreRow>,
    classic: map<int64, ClassicRow>,
    generic: map<int64, GenericRow>,
    leaderboard: map<SlotKey, LeaderboardRow>,
    scorePp: map<ScorePpKey, ScorePpRow>,
    userPp: map<UserPpKey, UserPpRow>,
    userStats: map<StatsKey, UserStatsRow>)

  // ------------------------------------------------ the invariant the constraints keep

  /** Each score is filed under its id and belongs to an existing user. */
  ghost predicate ScoresHeld(users: set<int32>, scores: map<int64, ScoreRow>) {
    forall k | k in scores :: scores[k].id == k && scores[k].userId in users
  }

  /** No checksum is used by two scores (the unique index on `scores.cksm`). */
  ghost predicate ChecksumsUnique(scores: map<int64, ScoreRow>) {
    forall a, b | a in scores && b in scores && a != b :: scores[a].cksm != scores[b].cksm
  }

  /** Each classic payload is filed under the id of an existing score. */
  ghost predicate ClassicHeld(scoreIds: set<int64>, classic: map<int64, ClassicRow>) {
    forall k | k in classic :: classic[k].id == k && k in scoreIds
  }

  /** Each generic payload is filed under the id of an existing score. */
  ghost predicate GenericHeld(scoreIds: set<int64>, generic: map<int64, GenericRow>) {
    forall k | k in generic :: generic[k].id == k && k in scoreIds
  }

  /** Each leaderboard row is filed under its slot and names an existing beatmap, score
      and user. */
  ghost predicate LeaderboardHeld(beatmaps: set<int32>, scoreIds: set<int64>, users: set<int32>,
                                  leaderboard: map<SlotKey, LeaderboardRow>) {
    forall k | k in leaderboard ::
      SlotOf(leaderboard[k]) == k && leaderboard[k].beatmapId in beatmaps &&
      leaderboard[k].scoreId in scoreIds && leaderboard[k].userId in users
  }

  /** Each score pp row is filed under its key and belongs to an existing score. */
  ghost predicate ScorePpHeld(scoreIds: set<int64>, scorePp: map<ScorePpKey, ScorePpRow>) {
    forall k | k in scorePp :: ScorePpKeyOf(scorePp[k]) == k && k.scoreId in scoreIds
  }

  /** Each user pp row is filed under its key and belongs to an existing user. */
  ghost predicate UserPpHeld(users: set<int32>, userPp: map<UserPpKey, UserPpRow>) {
    forall k | k in userPp :: UserPpKeyOf(userPp[k]) == k && k.userId in users
  }

  /** Each stats row is filed under its key and belongs to an existing user. */
  ghost predicate UserStatsHeld(users: set<int32>, userStats: map<StatsKey, UserStatsRow>) {
    forall k | k in userStats :: StatsKeyOf(userStats[k]) == k && k.userId in users
  }

  /** What the primary keys, the unique index and the foreign keys guarantee together:
      every row is filed under its own key, and every reference names an existing row. */
  ghost predicate Valid(st: Store) {
    ScoresHeld(st.users, st.scores) && ChecksumsUnique(st.scores) &&
    ClassicHeld(st.scores.Keys, st.classic) && GenericHeld(st.scores.Keys, st.generic) &&
    LeaderboardHeld(st.beatmaps, st.scores.Keys, st.users, st.leaderboard) &&
    ScorePpHeld(st.scores.Keys, st.scorePp) && UserPpHeld(st.users, st.userPp) &&
    UserStatsHeld(st.users, st.userStats)
  }

  /** No score carries checksum `c`. */
  predicate ChecksumFree(st: Store, c: string) {
    forall k | k in st.scores :: st.scores[k].cksm != c
  }

  // ------------------------------------------------ inserts

  /** Inserting a score: refused when its id or its checksum is taken or its user does not
      exist. */
  function InsertScore(st: Store, row: ScoreRow): (r: Result<Store, WriteErr>)
    ensures r.Ok? <==> row.id !in st.scores && ChecksumFree(st, row.cksm) && row.userId in st.users
    ensures r.Ok? ==> r.value == st.(scores := st.scores[row.id := row])
    ensures Valid(st) && r.Ok? ==> Valid(r.value)
  {
    if row.id in st.scores then Err(DuplicateKey)
    else if !ChecksumFree(st, row.cksm) then Err(UniqueViolation)
    else if row.userId !in st.users then Err(ForeignKeyViolation)
    else Ok(st.(scores := st.scores[row.id := row]))
  }

  /** Inserting the classic payload of a score: at most one per score, and only for an
      existing score. */
  function InsertClassic(st: Store, row: ClassicRow): (r: Result<Store, WriteErr>)
    ensures r.Ok? <==> row.id !in st.classic && row.id in st.scores
    ensures r.Ok? ==> r.value == st.(classic := st.classic[row.id := row])
    ensures Valid(st) && r.Ok? ==> Valid(r.value)
  {
    if row.id in st.classic then Err(DuplicateKey)
    else if row.id !in st.scores then Err(ForeignKeyViolation)
    else Ok(st.(classic := st.classic[row.id := row]))
  }

  /** Inserting the generic payload of a score: at most one per score, and only for an
      existing score. */
  function InsertGeneric(st: Store, row: GenericRow): (r: Result<Store, WriteErr>)
    ensures r.Ok? <==> row.id !in st.generic && row.id in st.scores
    ensures r.Ok? ==> r.value == st.(generic := st.generic[row.id := row])
    ensures Valid(st) && r.Ok? ==> Valid(r.value)
  {
    if row.id in st.generic then Err(DuplicateKey)
    else if row.id !in st.scores then Err(ForeignKeyViolation)
    else Ok(st.(generic := st.generic[row.id := row]))
  }

  /** Filling a leaderboard slot: the caller supplies the whole key; refused when the slot
      is taken or the beatmap, the score or the user does not exist. */
  function InsertLeaderboard(st: Store, row: LeaderboardRow): (r: Result<Store, WriteErr>)
    ensures r.Ok? <==>
      (SlotOf(row) !in st.leaderboard && row.beatmapId in st.beatmaps &&
       row.scoreId in st.scores && row.userId in st.users)
    ensures r.Ok? ==> r.value == st.(leaderboard := st.leaderboard[SlotOf(row) := row])
    ensures Valid(st) && r.Ok? ==> Valid(r.value)
  {
    if SlotOf(row) in st.leaderboard then Err(DuplicateKey)
    else if row.beatmapId !in st.beatmaps || row.scoreId !in st.scores || row.userId !in st.users then
      Err(ForeignKeyViolation)
    else Ok(st.(leaderboard := st.leaderboard[SlotOf(row) := row]))
  }

  /** Changing who holds an existing slot: only the non-key columns `user_id` and
      `score_id` change, so the slot keeps its key; refused when the slot is empty or the
      new holder does not exist. */
  function UpdateLeaderboard(st: Store, row: LeaderboardRow): (r: Result<Store, WriteErr>)
    ensures r.Ok? <==>
      (SlotOf(row) in st.leaderboard && row.beatmapId in st.beatmaps &&
       row.scoreId in st.scores && row.userId in st.users)
    ensures r.Ok? ==> r.value.leaderboard.Keys == st.leaderboard.Keys
    ensures r.Ok? ==>
      (r.value.leaderboard[SlotOf(row)] == row &&
       forall k | k in st.leaderboard && k != SlotOf(row) :: r.value.leaderboard[k] == st.leaderboard[k])
    ensures r.Ok? ==> r.value.(leaderboard := st.leaderboard) == st
    ensures Valid(st) && r.Ok? ==> Valid(r.value)
  {
    if SlotOf(row) !in st.leaderboard then Err(NotFound)
    else if row.beatmapId !in st.beatmaps || row.scoreId !in st.scores || row.userId !in st.users then
      Err(ForeignKeyViolation)
    else Ok(st.(leaderboard := st.leaderboard[SlotOf(row) := row]))
  }

  /** Recording a score's pp under one version: one row per score, mode and version, for an
      existing score. */
  function InsertScorePp(st: Store, row: ScorePpRow): (r: Result<Store, WriteErr>)
    ensures r.Ok? <==> ScorePpKeyOf(row) !in st.scorePp && row.scoreId in st.scores
    ensures r.Ok? ==> r.value == st.(scorePp := st.scorePp[ScorePpKeyOf(row) := row])
    ensures Valid(st) && r.Ok? ==> Valid(r.value)
  {
    if ScorePpKeyOf(row) in st.scorePp then Err(DuplicateKey)
    else if row.scoreId !in st.scores then Err(ForeignKeyViolation)
    else Ok(st.(scorePp := st.scorePp[ScorePpKeyOf(row) := row]))
  }

  /** Recording a user's pp under one version: one row per user, mode and version, for an
      existing user. */
  function InsertUserPp(st: Store, row: UserPpRow): (r: Result<Store, WriteErr>)
    ensures r.Ok? <==> UserPpKeyOf(row) !in st.userPp && row.userId in st.users
    ensures r.Ok? ==> r.value == st.(userPp := st.userPp[UserPpKeyOf(row) := row])
    ensures Valid(st) && r.Ok? ==> Valid(r.value)
  {
    if UserPpKeyOf(row) in st.userPp then Err(DuplicateKey)
    else if row.userId !in st.users then Err(ForeignKeyViolation)
    else Ok(st.(userPp := st.userPp[UserPpKeyOf(row) := row]))
  }

  /** Recording a user's stats in one mode: one row per user and mode, for an existing
      user. */
  function InsertUserStats(st: Store, row: UserStatsRow): (r: Result<Store, WriteErr>)
    ensures r.Ok? <==> StatsKeyOf(row) !in st.userStats && row.userId in st.users
    ensures r.Ok? ==> r.value == st.(userStats := st.userStats[StatsKeyOf(row) := row])
    ensures Valid(st) && r.Ok? ==> Valid(r.value)
  {
    if StatsKeyOf(row) in st.userStats then Err(DuplicateKey)
    else if row.userId !in st.users then Err(ForeignKeyViolation)
    else Ok(st.(userStats := st.userStats[StatsKeyOf(row) := row]))
  }

  // ------------------------------------------------ cascading deletes

  /** The rows of `m` that are also in `big`, unchanged. */
  ghost predicate Within<K, V>(m: map<K, V>, big: map<K, V>) {
    forall k | k in m :: k in big && m[k] == big[k]
  }

  /** Deleting the scores whose ids are in `ids`. ON DELETE CASCADE takes their classic and
      generic payloads, the leaderboard slots they hold and their pp rows with them; an id
      that is not there is ignored. */
  function DeleteScores(st: Store, ids: set<int64>): Store {
    st.(scores := st.scores - ids, classic := st.classic - ids, generic := st.generic - ids,
        leaderboard := map k | k in st.leaderboard && st.leaderboard[k].scoreId !in ids :: st.leaderboard[k],
        scorePp := map k | k in st.scorePp && k.scoreId !in ids :: st.scorePp[k])
  }

  /** What deleting scores leaves: no row of or referring to a deleted score, and every
      other row unchanged. */
  lemma DeleteScoresCascades(st: Store, ids: set<int64>)
    ensures var r := DeleteScores(st, ids);
      (forall k | k in ids :: k !in r.scores && k !in r.classic && k !in r.generic) &&
      (forall k | k in r.leaderboard :: r.leaderboard[k].scoreId !in ids) &&
      (forall k | k in r.scorePp :: k.scoreId !in ids)
    ensures var r := DeleteScores(st, ids);
      Within(r.scores, st.scores) && Within(r.classic, st.classic) &&
      Within(r.generic, st.generic) && Within(r.leaderboard, st.leaderboard) &&
      Within(r.scorePp, st.scorePp)
    ensures var r := DeleteScores(st, ids);
      (forall k | k in st.scores && k !in ids :: k in r.scores) &&
      (forall k | k in st.classic && k !in ids :: k in r.classic) &&
      (forall k | k in st.generic && k !in ids :: k in r.generic) &&
      (forall k | k in st.leaderboard && st.leaderboard[k].scoreId !in ids :: k in r.leaderboard) &&
      (forall k | k in st.scorePp && k.scoreId !in ids :: k in r.scorePp)
    ensures var r := DeleteScores(st, ids);
      r.users == st.users && r.beatmaps == st.beatmaps && r.userPp == st.userPp &&
      r.userStats == st.userStats
  {
  }

  /** Deleting scores keeps the store valid. */
  lemma DeleteScoresKeepsValid(st: Store, ids: set<int64>)
    requires Valid(st)
    ensures Valid(DeleteScores(st, ids))
  {
  }

  /** The ids of the scores user `u` set. */
  function ScoresOf(st: Store, u: int32): set<int64> {
    set k | k in st.scores && st.scores[k].userId == u
  }

  /** Deleting a user. ON DELETE CASCADE deletes the user's scores as `DeleteScores` does,
      then the slots the user holds with other scores and the user's pp and stats rows. */
  function DeleteUser(st: Store, u: int32): (r: Store)
    ensures r.users == st.users - {u} && r.beatmaps == st.beatmaps
    ensures forall k | k in r.scores :: r.scores[k].userId != u
    ensures forall k | k in r.leaderboard :: r.leaderboard[k].userId != u
    ensures forall k | k in r.userPp :: k.userId != u
    ensures forall k | k in r.userStats :: k.userId != u
    ensures var s := DeleteScores(st, ScoresOf(st, u));
      r.scores == s.scores && r.classic == s.classic && r.generic == s.generic &&
      r.scorePp == s.scorePp && Within(r.leaderboard, s.leaderboard) &&
      forall k | k in s.leaderboard && s.leaderboard[k].userId != u :: k in r.leaderboard
    ensures Within(r.userPp, st.userPp) && forall k | k in st.userPp && k.userId != u :: k in r.userPp
    ensures Within(r.userStats, st.userStats) &&
      forall k | k in st.userStats && k.userId != u :: k in r.userStats
  {
    var s := DeleteScores(st, ScoresOf(st, u));
    s.(users := s.users - {u},
       leaderboard := map k | k in s.leaderboard && s.leaderboard[k].userId != u :: s.leaderboard[k],
       userPp := map k | k in s.userPp && k.userId != u :: s.userPp[k],
       userStats := map k | k in s.userStats && k.userId != u :: s.userStats[k])
  }

  /** Deleting a user keeps the store valid. */
  lemma DeleteUserKeepsValid(st: Store, u: int32)
    requires Valid(st)
    ensures Valid(DeleteUser(st, u))
  {
    DeleteScoresKeepsValid(st, ScoresOf(st, u));
  }

  /** Deleting a beatmap. ON DELETE CASCADE empties the leaderboard slots of that beatmap;
      nothing else in these tables refers to it. */
  function DeleteBeatmap(st: Store, b: int32): (r: Store)
    ensures b !in r.beatmaps && r.beatmaps == st.beatmaps - {b}
    ensures forall k | k in r.leaderboard :: k.beatmapId != b
    ensures Within(r.leaderboard, st.leaderboard)
    ensures forall k | k in st.leaderboard && k.beatmapId != b :: k in r.leaderboard
    ensures r.(beatmaps := st.beatmaps, leaderboard := st.leaderboard) == st
    ensures Valid(st) ==> Valid(r)
  {
    st.(beatmaps := st.beatmaps - {b},
        leaderboard := map k | k in st.leaderboard && k.beatmapId != b :: st.leaderboard[k])
  }

  // ------------------------------------------------ cascading key updates

  /** A reference after the referenced key moved from `from` to `to`. */
  function Retarget<T(==)>(x: T, from: T, to: T): T {
    if x == from then to else x
  }

  /** The scores after user `from` became `to`: each keeps its id and every other column,
      and its user follows the move. */
  function ScoresMoved(scores: map<int64, ScoreRow>, from: int32, to: int32): (r: map<int64, ScoreRow>)
    requires from != to
    ensures r.Keys == scores.Keys
    ensures forall k | k in scores :: r[k] == scores[k].(userId := Retarget(scores[k].userId, from, to))
    ensures forall k | k in r :: r[k].userId != from
  {
    map k | k in scores :: scores[k].(userId := Retarget(scores[k].userId, from, to))
  }

  /** The leaderboard after user `from` became `to`: each slot keeps its key and score,
      and its holder follows the move. It repeats `ScoresMoved` over another key and row
      type: a field update (`.(userId := ...)`) cannot be abstracted over the record type. */
  function SlotsMoved(leaderboard: map<SlotKey, LeaderboardRow>, from: int32, to: int32)
    : (r: map<SlotKey, LeaderboardRow>)
    requires from != to
    ensures r.Keys == leaderboard.Keys
    ensures forall k | k in leaderboard ::
      r[k] == leaderboard[k].(userId := Retarget(leaderboard[k].userId, from, to))
    ensures forall k | k in r :: r[k].userId != from
  {
    map k | k in leaderboard :: leaderboard[k].(userId := Retarget(leaderboard[k].userId, from, to))
  }

  /** The user pp rows after user `from` became `to`: the user column is part of the key,
      so the rows of `from` are filed again under `to`. A row already filed under `to` is
      not carried over; in a valid store there is none, because `to` is a fresh id. */
  function UserPpMoved(userPp: map<UserPpKey, UserPpRow>, from: int32, to: int32)
    : (r: map<UserPpKey, UserPpRow>)
    requires from != to
    ensures forall k ::
      k in r <==> (k.userId == to && k.(userId := from) in userPp) ||
                  (k.userId != to && k.userId != from && k in userPp)
    ensures forall k | k in r && k.userId == to :: r[k] == userPp[k.(userId := from)].(userId := to)
    ensures forall k | k in r && k.userId != to :: r[k] == userPp[k]
  {
    var kept := map k | k in userPp && k.userId != from && k.userId != to :: userPp[k];
    var moved := map k | k in userPp && k.userId == from :: k.(userId := to) := userPp[k].(userId := to);
    assert forall k | k in moved ::
      k.userId == to &&
      k.(userId := from) in userPp &&
      moved[k] == userPp[k.(userId := from)].(userId := to);
    assert forall k | k in userPp && k.userId == from :: k.(userId := to) in moved;
    kept + moved
  }


  /** The stats rows after user `from` became `to`, filed again as `UserPpMoved` does. It
      is written apart because the key and row types differ and a field update cannot be
      abstracted over the record type. */
  function UserStatsMoved(userStats: map<StatsKey, UserStatsRow>, from: int32, to: int32)
    : (r: map<StatsKey, UserStatsRow>)
    requires from != to
    ensures forall k ::
      k in r <==> (k.userId == to && k.(userId := from) in userStats) ||
                  (k.userId != to && k.userId != from && k in userStats)
    ensures forall k | k in r && k.userId == to :: r[k] == userStats[k.(userId := from)].(userId := to)
    ensures forall k | k in r && k.userId != to :: r[k] == userStats[k]
  {
    var kept := map k | k in userStats && k.userId != from && k.userId != to :: userStats[k];
    var moved := map k | k in userStats && k.userId == from :: k.(userId := to) := userStats[k].(userId := to);
    assert forall k | k in moved ::
      k.userId == to &&
      k.(userId := from) in userStats &&
      moved[k] == userStats[k.(userId := from)].(userId := to);
    assert forall k | k in userStats && k.userId == from :: k.(userId := to) in moved;
    kept + moved
  }


  /** Every table after user `from` became `to` (ON UPDATE CASCADE on each reference). */
  function RenameUser(st: Store, from: int32, to: int32): Store
    requires from != to
  {
    st.(users := st.users - {from} + {to},
        scores := ScoresMoved(st.scores, from, to),
        leaderboard := SlotsMoved(st.leaderboard, from, to),
        userPp := UserPpMoved(st.userPp, from, to),
        userStats := UserStatsMoved(st.userStats, from, to))
  }

  /** `UPDATE users SET id = to WHERE id = from`: no row matches when `from` is absent, and
      the update is refused when `to` is another user's id. */
  function UpdateUserId(st: Store, from: int32, to: int32): (r: Result<Store, WriteErr>)
    ensures r.Err? <==> from in st.users && from != to && to in st.users
    ensures r.Err? ==> r.error == DuplicateKey
    ensures r.Ok? ==> r.value == if from in st.users && from != to then RenameUser(st, from, to) else st
  {
    if from !in st.users || from == to then Ok(st)
    else if to in st.users then Err(DuplicateKey)
    else Ok(RenameUser(st, from, to))
  }

  lemma UserPpMovedHeld(users: set<int32>,
    userPp: map<UserPpKey, UserPpRow>, from: int32, to: int32)
    requires from != to && to !in users && UserPpHeld(users, userPp)
    ensures UserPpHeld(users - {from} + {to}, UserPpMoved(userPp, from, to))
  {

  }

  lemma UserStatsMovedHeld(users: set<int32>,
    userStats: map<StatsKey, UserStatsRow>, from: int32, to: int32)
    requires from != to && to !in users && UserStatsHeld(users, userStats)
    ensures UserStatsHeld(users - {from} + {to}, UserStatsMoved(userStats, from, to))
  {

  }

  /** Changing a user's id keeps the store valid. */
  lemma UpdateUserIdKeepsValid(st: Store, from: int32, to: int32)
    requires Valid(st) && UpdateUserId(st, from, to).Ok?
    ensures Valid(UpdateUserId(st, from, to).value)
  {
    if from in st.users && from != to {
      UserPpMovedHeld(st.users, st.userPp, from, to);
      UserStatsMovedHeld(st.users, st.userStats, from, to);
    }
  }

  /** Changing a beatmap's bid to a fresh one. ON UPDATE CASCADE carries the new bid into
      the key of each of its leaderboard slots, so those slots are filed again under it. A
      slot already filed under `to` is not carried over; in a valid store there is none. */
  function SlotsRekeyed(leaderboard: map<SlotKey, LeaderboardRow>, from: int32, to: int32)
    : (r: map<SlotKey, LeaderboardRow>)
    requires from != to
    ensures forall k ::
      k in r <==> (k.beatmapId == to && k.(beatmapId := from) in leaderboard) ||
                  (k.beatmapId != to && k.beatmapId != from && k in leaderboard)
    ensures forall k | k in r && k.beatmapId == to ::
      r[k] == leaderboard[k.(beatmapId := from)].(beatmapId := to)
    ensures forall k | k in r && k.beatmapId != to :: r[k] == leaderboard[k]
  {
    var kept := map k | k in leaderboard && k.beatmapId != from && k.beatmapId != to :: leaderboard[k];
    var moved := map k | k in leaderboard && k.beatmapId == from ::
      k.(beatmapId := to) := leaderboard[k].(beatmapId := to);
    assert forall k | k in moved ::
      k.beatmapId == to &&
      k.(beatmapId := from) in leaderboard &&
      moved[k] == leaderboard[k.(beatmapId := from)].(beatmapId := to);
    assert forall k | k in leaderboard && k.beatmapId == from :: k.(beatmapId := to) in moved;
    kept + moved
  }

  /** `UPDATE beatmaps SET bid = to WHERE bid = from`: no row matches when `from` is
      absent, and the update is refused when `to` is another beatmap's bid. */
  function UpdateBeatmapId(st: Store, from: int32, to: int32): (r: Result<Store, WriteErr>)
    ensures r.Err? <==> from in st.beatmaps && from != to && to in st.beatmaps
    ensures r.Err? ==> r.error == DuplicateKey
    ensures r.Ok? && from in st.beatmaps && from != to ==>
      r.value == st.(beatmaps := st.beatmaps - {from} + {to},
                     leaderboard := SlotsRekeyed(st.leaderboard, from, to))
    ensures r.Ok? && (from !in st.beatmaps || from == to) ==> r.value == st
  {
    if from !in st.beatmaps || from == to then Ok(st)
    else if to in st.beatmaps then Err(DuplicateKey)
    else Ok(st.(beatmaps := st.beatmaps - {from} + {to},
                leaderboard := SlotsRekeyed(st.leaderboard, from, to)))
  }

  /** Changing a beatmap's bid keeps the store valid. */
  lemma UpdateBeatmapIdKeepsValid(st: Store, from: int32, to: int32)
    requires Valid(st) && UpdateBeatmapId(st, from, to).Ok?
    ensures Valid(UpdateBeatmapId(st, from, to).value)
  {
  }

  /** The scores after score `from` became `to`, a fresh id: that row is filed under its
      new id, every other row stays where it was. */
  function ScoreIdsMoved(scores: map<int64, ScoreRow>, from: int64, to: int64): (r: map<int64, ScoreRow>)
    requires from != to && to !in scores
    ensures forall k :: k in r <==> (k == to && from in scores) || (k != from && k in scores)
    ensures from in scores ==> r[to] == scores[from].(id := to)
    ensures forall k | k in r && k != to :: r[k] == scores[k]
  {
    if from in scores then (scores - {from})[to := scores[from].(id := to)] else scores
  }


  /** The classic payloads after score `from` became `to`: the payload of `from` is filed
      under `to`. A payload already filed under `to` is not carried over; in a valid store
      there is none. */
  function ClassicMoved(classic: map<int64, ClassicRow>, from: int64, to: int64): (r: map<int64, ClassicRow>)
    requires from != to
    ensures forall k :: k in r <==> (k == to && from in classic) || (k != to && k != from && k in classic)
    ensures from in classic ==> r[to] == classic[from].(id := to)
    ensures forall k | k in r && k != to :: r[k] == classic[k]
  {
    var rest := classic - {from, to};
    if from in classic then rest[to := classic[from].(id := to)] else rest
  }


  /** The generic payloads after score `from` became `to`, filed again as `ClassicMoved`
      does. It is written apart because the row type differs and the update of its `id`
      field cannot be abstracted over the record type. */
  function GenericMoved(generic: map<int64, GenericRow>, from: int64, to: int64): (r: map<int64, GenericRow>)
    requires from != to
    ensures forall k :: k in r <==> (k == to && from in generic) || (k != to && k != from && k in generic)
    ensures from in generic ==> r[to] == generic[from].(id := to)
    ensures forall k | k in r && k != to :: r[k] == generic[k]
  {
    var rest := generic - {from, to};
    if from in generic then rest[to := generic[from].(id := to)] else rest
  }


  /** The leaderboard after score `from` became `to`: each slot keeps its key and holder,
      and its score follows the move. */
  function SlotsRescored(leaderboard: map<SlotKey, LeaderboardRow>, from: int64, to: int64)
    : (r: map<SlotKey, LeaderboardRow>)
    requires from != to
    ensures r.Keys == leaderboard.Keys
    ensures forall k | k in leaderboard ::
      r[k] == leaderboard[k].(scoreId := Retarget(leaderboard[k].scoreId, from, to))
    ensures forall k | k in r :: r[k].scoreId != from
  {
    map k | k in leaderboard :: leaderboard[k].(scoreId := Retarget(leaderboard[k].scoreId, from, to))
  }

  /** The score pp rows after score `from` became `to`: the score column is part of the
      key, so the rows of `from` are filed again under `to`. */
  function ScorePpMoved(scorePp: map<ScorePpKey, ScorePpRow>, from: int64, to: int64)
    : (r: map<ScorePpKey, ScorePpRow>)
    requires from != to
    ensures forall k ::
      k in r <==> (k.scoreId == to && k.(scoreId := from) in scorePp) ||
                  (k.scoreId != to && k.scoreId != from && k in scorePp)
    ensures forall k | k in r && k.scoreId == to :: r[k] == scorePp[k.(scoreId := from)].(scoreId := to)
    ensures forall k | k in r && k.scoreId != to :: r[k] == scorePp[k]
  {
    var kept := map k | k in scorePp && k.scoreId != from && k.scoreId != to :: scorePp[k];
    var moved := map k | k in scorePp && k.scoreId == from :: k.(scoreId := to) := scorePp[k].(scoreId := to);
    assert forall k | k in moved ::
      k.scoreId == to &&
      k.(scoreId := from) in scorePp &&
      moved[k] == scorePp[k.(scoreId := from)].(scoreId := to);
    assert forall k | k in scorePp && k.scoreId == from :: k.(scoreId := to) in moved;
    kept + moved
  }


  /** Every table after score `from` became the fresh id `to` (ON UPDATE CASCADE on each
      reference). */
  function RenameScore(st: Store, from: int64, to: int64): Store
    requires from != to && to !in st.scores
  {
    st.(scores := ScoreIdsMoved(st.scores, from, to),
        classic := ClassicMoved(st.classic, from, to),
        generic := GenericMoved(st.generic, from, to),
        leaderboard := SlotsRescored(st.leaderboard, from, to),
        scorePp := ScorePpMoved(st.scorePp, from, to))
  }

  /** `UPDATE scores SET id = to WHERE id = from`: no row matches when `from` is absent,
      and the update is refused when `to` is another score's id. */
  function UpdateScoreId(st: Store, from: int64, to: int64): (r: Result<Store, WriteErr>)
    ensures r.Err? <==> from in st.scores && from != to && to in st.scores
    ensures r.Err? ==> r.error == DuplicateKey
    ensures r.Ok? ==> r.value == if from in st.scores && from != to then RenameScore(st, from, to) else st
  {
    if from !in st.scores || from == to then Ok(st)
    else if to in st.scores then Err(DuplicateKey)
    else Ok(RenameScore(st, from, to))
  }

  lemma ScoreIdsMovedHeld(users: set<int32>,
    scores: map<int64, ScoreRow>, from: int64, to: int64)
    requires from != to && to !in scores && ScoresHeld(users, scores)
    ensures ScoresHeld(users, ScoreIdsMoved(scores, from, to))
  {
  }

  lemma ScoreIdsMovedUnique(scores: map<int64, ScoreRow>, from: int64, to: int64)
    requires from != to && to !in scores && ChecksumsUnique(scores)
    ensures ChecksumsUnique(ScoreIdsMoved(scores, from, to))
  {
  }

  lemma SlotsRescoredHeld(beatmaps: set<int32>, scores: map<int64, ScoreRow>, users: set<int32>,
                          leaderboard: map<SlotKey, LeaderboardRow>, from: int64, to: int64)
    requires from != to && to !in scores && from in scores
    requires LeaderboardHeld(beatmaps, scores.Keys, users, leaderboard)
    ensures LeaderboardHeld(beatmaps, ScoreIdsMoved(scores, from, to).Keys, users,
                            SlotsRescored(leaderboard, from, to))
  {

  }

  lemma ClassicMovedHeld(scores: map<int64, ScoreRow>,
    classic: map<int64, ClassicRow>, from: int64, to: int64)
    requires from != to && to !in scores && ClassicHeld(scores.Keys, classic)
    ensures ClassicHeld(ScoreIdsMoved(scores, from, to).Keys, ClassicMoved(classic, from, to))
  {

  }

  lemma GenericMovedHeld(scores: map<int64, ScoreRow>,
    generic: map<int64, GenericRow>, from: int64, to: int64)
    requires from != to && to !in scores && GenericHeld(scores.Keys, generic)
    ensures GenericHeld(ScoreIdsMoved(scores, from, to).Keys, GenericMoved(generic, from, to))
  {

  }

  lemma ScorePpMovedHeld(scores: map<int64, ScoreRow>,
    scorePp: map<ScorePpKey, ScorePpRow>, from: int64, to: int64)
    requires from != to && to !in scores && ScorePpHeld(scores.Keys, scorePp)
    ensures ScorePpHeld(ScoreIdsMoved(scores, from, to).Keys, ScorePpMoved(scorePp, from, to))
  {

  }

  lemma RenameScoreKeepsValid(st: Store, from: int64, to: int64)
    requires Valid(st) && from in st.scores && from != to && to !in st.scores
    ensures Valid(RenameScore(st, from, to))
  {
    ScoreIdsMovedHeld(st.users, st.scores, from, to);
    ScoreIdsMovedUnique(st.scores, from, to);
    SlotsRescoredHeld(st.beatmaps, st.scores, st.users, st.leaderboard, from, to);
    ClassicMovedHeld(st.scores, st.classic, from, to);
    GenericMovedHeld(st.scores, st.generic, from, to);
    ScorePpMovedHeld(st.scores, st.scorePp, from, to);
  }

  /** Changing a score's id keeps the store valid. */
  lemma UpdateScoreIdKeepsValid(st: Store, from: int64, to: int64)
    requires Valid(st) && UpdateScoreId(st, from, to).Ok?
    ensures Valid(UpdateScoreId(st, from, to).value)
  {
    if from in st.scores && from != to {
      RenameScoreKeepsValid(st, from, to);
    }
  }

  // ------------------------------------------------ how the writes relate

  /** Deleting a score that nothing refers to takes only the score's own row. */
  lemma DeleteUnreferencedScore(st: Store, id: int64)
    requires id !in st.classic && id !in st.generic
    requires forall k | k in st.leaderboard :: st.leaderboard[k].scoreId != id
    requires forall k | k in st.scorePp :: k.scoreId != id
    ensures DeleteScores(st, {id}) == st.(scores := st.scores - {id})
  {
    var r := DeleteScores(st, {id});
    assert r.leaderboard == st.leaderboard;
    assert r.scorePp == st.scorePp;
  }

  /** Deleting a score that was just inserted restores the store: in a valid store nothing
      refers to an id that is not there yet, so the cascade takes nothing else. */
  lemma InsertScoreThenDelete(st: Store, row: ScoreRow)
    requires Valid(st) && InsertScore(st, row).Ok?
    ensures DeleteScores(InsertScore(st, row).value, {row.id}) == st
  {
    var s := InsertScore(st, row).value;
    DeleteUnreferencedScore(s, row.id);
    assert s.scores - {row.id} == st.scores;
  }

  lemma ScoresMovedBack(users: set<int32>, scores: map<int64, ScoreRow>, a: int32, b: int32)
    requires a != b && b !in users && ScoresHeld(users, scores)
    ensures ScoresMoved(ScoresMoved(scores, a, b), b, a) == scores
  {
    assert ScoresMoved(ScoresMoved(scores, a, b), b, a).Keys == scores.Keys;
  }

  lemma SlotsMovedBack(users: set<int32>, leaderboard: map<SlotKey, LeaderboardRow>, a: int32, b: int32)
    requires a != b && b !in users
    requires forall k | k in leaderboard :: leaderboard[k].userId in users
    ensures SlotsMoved(SlotsMoved(leaderboard, a, b), b, a) == leaderboard
  {
    assert SlotsMoved(SlotsMoved(leaderboard, a, b), b, a).Keys == leaderboard.Keys;
  }

  lemma UserPpMovedBack(users: set<int32>, userPp: map<UserPpKey, UserPpRow>, a: int32, b: int32)
    requires a != b && b !in users && UserPpHeld(users, userPp)
    ensures UserPpMoved(UserPpMoved(userPp, a, b), b, a) == userPp
  {
    var m := UserPpMoved(userPp, a, b);
    var r := UserPpMoved(m, b, a);
    forall k
      ensures k in r <==> k in userPp
      ensures k in r ==> r[k] == userPp[k]
    {
      if k.userId == a {
        assert k.(userId := b).(userId := a) == k;
      }
    }
    assert r.Keys == userPp.Keys;
  }

  lemma UserStatsMovedBack(users: set<int32>, userStats: map<StatsKey, UserStatsRow>, a: int32, b: int32)
    requires a != b && b !in users && UserStatsHeld(users, userStats)
    ensures UserStatsMoved(UserStatsMoved(userStats, a, b), b, a) == userStats
  {
    var m := UserStatsMoved(userStats, a, b);
    var r := UserStatsMoved(m, b, a);
    forall k
      ensures k in r <==> k in userStats
      ensures k in r ==> r[k] == userStats[k]
    {
      if k.userId == a {
        assert k.(userId := b).(userId := a) == k;
      }
    }
    assert r.Keys == userStats.Keys;
  }

  /** Moving a user's id away and back restores the store. */
  lemma UpdateUserIdRoundTrip(st: Store, a: int32, b: int32)
    requires Valid(st) && a in st.users && UpdateUserId(st, a, b).Ok?
    ensures UpdateUserId(UpdateUserId(st, a, b).value, b, a) == Ok(st)
  {
    if a != b {
      ScoresMovedBack(st.users, st.scores, a, b);
      SlotsMovedBack(st.users, st.leaderboard, a, b);
      UserPpMovedBack(st.users, st.userPp, a, b);
      UserStatsMovedBack(st.users, st.userStats, a, b);
      assert st.users - {a} + {b} - {b} + {a} == st.users;
    }
  }

  lemma ScoreIdsMovedBack(users: set<int32>, scores: map<int64, ScoreRow>, a: int64, b: int64)
    requires a != b && a in scores && b !in scores && ScoresHeld(users, scores)
    ensures ScoreIdsMoved(ScoreIdsMoved(scores, a, b), b, a) == scores
  {
    var r := ScoreIdsMoved(ScoreIdsMoved(scores, a, b), b, a);
    assert r.Keys == scores.Keys;
  }

  lemma ClassicMovedBack(scoreIds: set<int64>, classic: map<int64, ClassicRow>, a: int64, b: int64)
    requires a != b && b !in scoreIds && ClassicHeld(scoreIds, classic)
    ensures ClassicMoved(ClassicMoved(classic, a, b), b, a) == classic
  {
    var r := ClassicMoved(ClassicMoved(classic, a, b), b, a);
    assert r.Keys == classic.Keys;
  }

  lemma GenericMovedBack(scoreIds: set<int64>, generic: map<int64, GenericRow>, a: int64, b: int64)
    requires a != b && b !in scoreIds && GenericHeld(scoreIds, generic)
    ensures GenericMoved(GenericMoved(generic, a, b), b, a) == generic
  {
    var r := GenericMoved(GenericMoved(generic, a, b), b, a);
    assert r.Keys == generic.Keys;
  }

  lemma SlotsRescoredBack(scoreIds: set<int64>, leaderboard: map<SlotKey, LeaderboardRow>, a: int64, b: int64)
    requires a != b && b !in scoreIds
    requires forall k | k in leaderboard :: leaderboard[k].scoreId in scoreIds
    ensures SlotsRescored(SlotsRescored(leaderboard, a, b), b, a) == leaderboard
  {
    assert SlotsRescored(SlotsRescored(leaderboard, a, b), b, a).Keys == leaderboard.Keys;
  }

  lemma ScorePpMovedBack(scoreIds: set<int64>, scorePp: map<ScorePpKey, ScorePpRow>, a: int64, b: int64)
    requires a != b && b !in scoreIds && ScorePpHeld(scoreIds, scorePp)
    ensures ScorePpMoved(ScorePpMoved(scorePp, a, b), b, a) == scorePp
  {
    var m := ScorePpMoved(scorePp, a, b);
    var r := ScorePpMoved(m, b, a);
    forall k
      ensures k in r <==> k in scorePp
      ensures k in r ==> r[k] == scorePp[k]
    {
      if k.scoreId == a {
        assert k.(scoreId := b).(scoreId := a) == k;
      }
    }
    assert r.Keys == scorePp.Keys;
  }

  /** Moving a score's id away and back restores the store. */
  lemma UpdateScoreIdRoundTrip(st: Store, a: int64, b: int64)
    requires Valid(st) && a in st.scores && UpdateScoreId(st, a, b).Ok?
    ensures UpdateScoreId(UpdateScoreId(st, a, b).value, b, a) == Ok(st)
  {
    if a != b {
      ScoreIdsMovedBack(st.users, st.scores, a, b);
      ClassicMovedBack(st.scores.Keys, st.classic, a, b);
      GenericMovedBack(st.scores.Keys, st.generic, a, b);
      SlotsRescoredBack(st.scores.Keys, st.leaderboard, a, b);
      ScorePpMovedBack(st.scores.Keys, st.scorePp, a, b);
    }
  }

  /** Pp rows of one score and mode under different versions coexist: recording the
      second version leaves the first in place. */
  lemma ScorePpVersionsCoexist(st: Store, x: ScorePpRow, y: ScorePpRow)
    requires InsertScorePp(st, x).Ok?
    requires y.scoreId == x.scoreId && y.mode == x.mode && y.ppVersion != x.ppVersion
    requires ScorePpKeyOf(y) !in st.scorePp
    ensures InsertScorePp(InsertScorePp(st, x).value, y).Ok?
    ensures var r := InsertScorePp(InsertScorePp(st, x).value, y).value;
      r.scorePp[ScorePpKeyOf(x)] == x && r.scorePp[ScorePpKeyOf(y)] == y
  {
  }

  /** Pp rows of one user and mode under different versions coexist. */
  lemma UserPpVersionsCoexist(st: Store, x: UserPpRow, y: UserPpRow)
    requires InsertUserPp(st, x).Ok?
    requires y.userId == x.userId && y.mode == x.mode && y.ppVersion != x.ppVersion
    requires UserPpKeyOf(y) !in st.userPp
    ensures InsertUserPp(InsertUserPp(st, x).value, y).Ok?
    ensures var r := InsertUserPp(InsertUserPp(st, x).value, y).value;
      r.userPp[UserPpKeyOf(x)] == x && r.userPp[UserPpKeyOf(y)] == y
  {
  }
}
