/**
  The domain enumerations of the initial migration. Every member is stored by the text of
  its identifier, never by its ordinal; the identifier of the pseudo-member `Enum` is the
  name of the database type that holds the enumeration (created on Postgres only).
*/
module Enums {
  import opened Wrappers

  /** The member of `values` whose stored text is `s`, looked up in declaration order. */
  function Lookup<E>(values: seq<E>, text: E -> string, s: string): (r: Option<E>)
    ensures r.Some? ==> r.value in values && text(r.value) == s
    ensures r.None? ==> forall i :: 0 <= i < |values| ==> text(values[i]) != s
  {
    if values == [] then None
    else if text(values[0]) == s then Some(values[0])
    else Lookup(values[1..], text, s)
  }

  /** No two members of an enumeration share a stored text. */
  ghost predicate TextsDistinct<E>(values: seq<E>, text: E -> string) {
    forall i, j :: 0 <= i < j < |values| ==> text(values[i]) != text(values[j])
  }

  /** Writing a member as its text and reading that text back yields the member. */
  lemma {:induction false} LookupText<E>(values: seq<E>, text: E -> string, m: E)
    requires m in values && TextsDistinct(values, text)
    ensures Lookup(values, text, text(m)) == Some(m)
  {
    if values[0] != m {
      var j :| 0 <= j < |values| && values[j] == m;
      assert j > 0 && text(values[0]) != text(values[j]);
      assert TextsDistinct(values[1..], text) by {
        forall i, k | 0 <= i < k < |values[1..]|
          ensures text(values[1..][i]) != text(values[1..][k])
        {
          assert values[1..][i] == values[i + 1] && values[1..][k] == values[k + 1];
        }
      }
      assert values[1..][j - 1] == m;
      LookupText(values[1..], text, m);
    }
  }

  /** Every member of a distinct-text enumeration reads back from its own text. */
  lemma LookupEachText<E>(values: seq<E>, text: E -> string)
    ensures TextsDistinct(values, text) ==>
      forall i :: 0 <= i < |values| ==> Lookup(values, text, text(values[i])) == Some(values[i])
  {
    if TextsDistinct(values, text) {
      forall i | 0 <= i < |values| ensures Lookup(values, text, text(values[i])) == Some(values[i]) {
        LookupText(values, text, values[i]);
      }
    }
  }

  /** The stored texts of `values`, in order: the value list of a `CREATE TYPE ... AS ENUM`. */
  function Texts<E>(values: seq<E>, text: E -> string): seq<string> {
    seq(|values|, i requires 0 <= i < |values| => text(values[i]))
  }

  /** A text belongs to the value list of an enumeration exactly when it reads back as one
      of its members. */
  lemma TextsAccepted<E>(values: seq<E>, text: E -> string, s: string)
    requires TextsDistinct(values, text)
    ensures s in Texts(values, text) <==> Lookup(values, text, s).Some?
  {
    var r := Texts(values, text);
    LookupEachText(values, text);
    if s in r {
      var i :| 0 <= i < |r| && r[i] == s;
      assert Lookup(values, text, text(values[i])) == Some(values[i]);
    }
    if Lookup(values, text, s).Some? {
      var m := Lookup(values, text, s).value;
      var i :| 0 <= i < |values| && values[i] == m;
      assert r[i] == s;
    }
  }

  // ---------------------------------------------------------------- GameMode

  datatype GameMode = Standard | Taiko | Fruits | Mania

  const GameModeTypeName: string := "game_mode"
  const AllGameModes: seq<GameMode> := [Standard, Taiko, Fruits, Mania]

  function GameModeText(m: GameMode): string {
    match m
    case Standard => "Standard"
    case Taiko => "Taiko"
    case Fruits => "Fruits"
    case Mania => "Mania"
  }

  function GameModeOfText(s: string): Option<GameMode> {
    Lookup(AllGameModes, GameModeText, s)
  }

  lemma GameModeTextsDistinct()
    ensures TextsDistinct(AllGameModes, GameModeText)
  {
  }

  lemma GameModeRoundTrip(m: GameMode, s: string)
    ensures GameModeOfText(GameModeText(m)) == Some(m)
    ensures GameModeOfText(s) == Some(m) ==> s == GameModeText(m)
  {
    LookupText(AllGameModes, GameModeText, m);
  }

  // ---------------------------------------------------------------- ScoreGrade

  datatype ScoreGrade = A | B | C | D | S | SH | X | XH | F

  const ScoreGradeTypeName: string := "score_grade"
  const AllScoreGrades: seq<ScoreGrade> := [A, B, C, D, S, SH, X, XH, F]

  function ScoreGradeText(g: ScoreGrade): string {
    match g
    case A => "A"
    case B => "B"
    case C => "C"
    case D => "D"
    case S => "S"
    case SH => "SH"
    case X => "X"
    case XH => "XH"
    case F => "F"
  }

  function ScoreGradeOfText(s: string): Option<ScoreGrade> {
    Lookup(AllScoreGrades, ScoreGradeText, s)
  }

  lemma ScoreGradeTextsDistinct()
    ensures TextsDistinct(AllScoreGrades, ScoreGradeText)
  {
  }

  lemma ScoreGradeRoundTrip(g: ScoreGrade, s: string)
    ensures ScoreGradeOfText(ScoreGradeText(g)) == Some(g)
    ensures ScoreGradeOfText(s) == Some(g) ==> s == ScoreGradeText(g)
  {
    ScoreGradeTextsDistinct();
    LookupText(AllScoreGrades, ScoreGradeText, g);
  }

  // ---------------------------------------------------------------- RankStatus

  datatype RankStatus = Graveyard | Wip | Pending | Ranked | Approved | Qualified | Loved

  const RankStatusTypeName: string := "rank_status"
  const AllRankStatuses: seq<RankStatus> := [Graveyard, Wip, Pending, Ranked, Approved, Qualified, Loved]

  function RankStatusText(r: RankStatus): string {
    match r
    case Graveyard => "Graveyard"
    case Wip => "Wip"
    case Pending => "Pending"
    case Ranked => "Ranked"
    case Approved => "Approved"
    case Qualified => "Qualified"
    case Loved => "Loved"
  }

  /** The explicit discriminant of each member; the pseudo-member `Enum` has -3. */
  function RankStatusOrdinal(r: RankStatus): int {
    match r
    case Graveyard => -2
    case Wip => -1
    case Pending => 0
    case Ranked => 1
    case Approved => 2
    case Qualified => 3
    case Loved => 4
  }

  function RankStatusOfText(s: string): Option<RankStatus> {
    Lookup(AllRankStatuses, RankStatusText, s)
  }

  lemma RankStatusTextsDistinct()
    ensures TextsDistinct(AllRankStatuses, RankStatusText)
  {
  }

  lemma RankStatusRoundTrip(r: RankStatus, s: string)
    ensures RankStatusOfText(RankStatusText(r)) == Some(r)
    ensures RankStatusOfText(s) == Some(r) ==> s == RankStatusText(r)
  {
    RankStatusTextsDistinct();
    LookupText(AllRankStatuses, RankStatusText, r);
  }

  /** Ordinals rise strictly in declaration order, from Graveyard (-2) to Loved (4); only
      the unranked states Graveyard and Wip lie below Pending, and all lie above `Enum` (-3). */
  lemma RankStatusOrdinalsRise()
    ensures forall i, j :: 0 <= i < j < |AllRankStatuses| ==>
      RankStatusOrdinal(AllRankStatuses[i]) < RankStatusOrdinal(AllRankStatuses[j])
    ensures forall r :: RankStatusOrdinal(r) < RankStatusOrdinal(Pending) <==> r in {Graveyard, Wip}
    ensures forall r :: -3 < RankStatusOrdinal(r)
  {
  }

  // ---------------------------------------------------------------- PpVersion

  datatype PpVersion = V1 | V2

  const PpVersionTypeName: string := "pp_version"
  const AllPpVersions: seq<PpVersion> := [PpVersion.V1, PpVersion.V2]

  function PpVersionText(v: PpVersion): string {
    match v
    case V1 => "v1"
    case V2 => "v2"
  }

  function PpVersionOfText(s: string): Option<PpVersion> {
    Lookup(AllPpVersions, PpVersionText, s)
  }

  lemma PpVersionTextsDistinct()
    ensures TextsDistinct(AllPpVersions, PpVersionText)
  {
  }

  lemma PpVersionRoundTrip(v: PpVersion, s: string)
    ensures PpVersionOfText(PpVersionText(v)) == Some(v)
    ensures PpVersionOfText(s) == Some(v) ==> s == PpVersionText(v)
  {
    LookupText(AllPpVersions, PpVersionText, v);
  }

  // ---------------------------------------------------------------- ScoreVersion

  datatype ScoreVersion = V1 | V2

  const ScoreVersionTypeName: string := "score_version"
  const AllScoreVersions: seq<ScoreVersion> := [ScoreVersion.V1, ScoreVersion.V2]

  function ScoreVersionText(v: ScoreVersion): string {
    match v
    case V1 => "v1"
    case V2 => "v2"
  }

  function ScoreVersionOfText(s: string): Option<ScoreVersion> {
    Lookup(AllScoreVersions, ScoreVersionText, s)
  }

  lemma ScoreVersionTextsDistinct()
    ensures TextsDistinct(AllScoreVersions, ScoreVersionText)
  {
  }

  lemma ScoreVersionRoundTrip(v: ScoreVersion, s: string)
    ensures ScoreVersionOfText(ScoreVersionText(v)) == Some(v)
    ensures ScoreVersionOfText(s) == Some(v) ==> s == ScoreVersionText(v)
  {
    LookupText(AllScoreVersions, ScoreVersionText, v);
  }

  // ---------------------------------------------------------------- RankingType

  datatype RankingType = ScoreV1 | ScoreV2 | PPV1 | PPV2

  const RankingTypeTypeName: string := "ranking_type"
  const AllRankingTypes: seq<RankingType> := [ScoreV1, ScoreV2, PPV1, PPV2]

  function RankingTypeText(t: RankingType): string {
    match t
    case ScoreV1 => "score_v1"
    case ScoreV2 => "score_v2"
    case PPV1 => "pp_v1"
    case PPV2 => "pp_v2"
  }

  function RankingTypeOfText(s: string): Option<RankingType> {
    Lookup(AllRankingTypes, RankingTypeText, s)
  }

  lemma RankingTypeTextsDistinct()
    ensures TextsDistinct(AllRankingTypes, RankingTypeText)
  {
  }

  lemma RankingTypeRoundTrip(t: RankingType, s: string)
    ensures RankingTypeOfText(RankingTypeText(t)) == Some(t)
    ensures RankingTypeOfText(s) == Some(t) ==> s == RankingTypeText(t)
  {
    LookupText(AllRankingTypes, RankingTypeText, t);
  }

  // ---------------------------------------------------------------- ChannelType

  /** The last member is spelled `Spectaor` with text "spectaor" in the migration. */
  datatype ChannelType = Private | Public | Group | Multiplayer | Spectaor

  const ChannelTypeTypeName: string := "channel_type"
  const AllChannelTypes: seq<ChannelType> := [Private, Public, Group, Multiplayer, Spectaor]

  function ChannelTypeText(c: ChannelType): string {
    match c
    case Private => "private"
    case Public => "public"
    case Group => "group"
    case Multiplayer => "multiplayer"
    case Spectaor => "spectaor"
  }

  function ChannelTypeOfText(s: string): Option<ChannelType> {
    Lookup(AllChannelTypes, ChannelTypeText, s)
  }

  lemma ChannelTypeTextsDistinct()
    ensures TextsDistinct(AllChannelTypes, ChannelTypeText)
  {
  }

  lemma ChannelTypeRoundTrip(c: ChannelType, s: string)
    ensures ChannelTypeOfText(ChannelTypeText(c)) == Some(c)
    ensures ChannelTypeOfText(s) == Some(c) ==> s == ChannelTypeText(c)
  {
    LookupText(AllChannelTypes, ChannelTypeText, c);
  }

  // ---------------------------------------------------------------- ChannelHandleType

  datatype ChannelHandleType = Join | SendMessage | KickUser | MuteUser

  const ChannelHandleTypeTypeName: string := "channel_handle_type"
  const AllChannelHandleTypes: seq<ChannelHandleType> := [Join, SendMessage, KickUser, MuteUser]

  function ChannelHandleTypeText(h: ChannelHandleType): string {
    match h
    case Join => "join"
    case SendMessage => "send_message"
    case KickUser => "kick_user"
    case MuteUser => "mute_user"
  }

  function ChannelHandleTypeOfText(s: string): Option<ChannelHandleType> {
    Lookup(AllChannelHandleTypes, ChannelHandleTypeText, s)
  }

  lemma ChannelHandleTypeTextsDistinct()
    ensures TextsDistinct(AllChannelHandleTypes, ChannelHandleTypeText)
  {
  }

  lemma ChannelHandleTypeRoundTrip(h: ChannelHandleType, s: string)
    ensures ChannelHandleTypeOfText(ChannelHandleTypeText(h)) == Some(h)
    ensures ChannelHandleTypeOfText(s) == Some(h) ==> s == ChannelHandleTypeText(h)
  {
    LookupText(AllChannelHandleTypes, ChannelHandleTypeText, h);
  }
}
