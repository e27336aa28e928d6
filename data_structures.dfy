/** The record types the rating engine consumes and produces. Every Python
    dataclass is a value here; fields typed `float` are `real`, `int` fields are
    `int`, optional fields are `Option`. Dataclass defaults are the datatype
    constructors' default parameter values. */
module DataStructures {
  import opened Common

  /** Which table columns hold which piece of match information.
      `PostInit` is the dataclass' `__post_init__`; `NewColumnNames` is what a
      Python call `ColumnNames(...)` produces. */
  datatype ColumnNames = ColumnNames(
    teamId: string,
    matchId: string,
    startDate: string,
    playerId: string,
    performance: string := "performance",
    league: Option<string> := None,
    participationWeight: Option<string> := None,
    projectedParticipationWeight: Option<string> := None,
    teamPlayersPercentagePlayingTime: Option<string> := None,
    ratingUpdateId: Option<string> := None)

  /** `__post_init__`: a missing rating update id falls back to the match id,
      a missing projected participation weight to the participation weight. */
  function PostInit(c: ColumnNames): (r: ColumnNames)
    ensures r.ratingUpdateId.Some?
    ensures c.ratingUpdateId.Some? ==> r.ratingUpdateId == c.ratingUpdateId
    ensures c.ratingUpdateId.None? ==> r.ratingUpdateId == Some(c.matchId)
    ensures c.projectedParticipationWeight.Some? ==> r.projectedParticipationWeight == c.projectedParticipationWeight
    ensures c.projectedParticipationWeight.None? ==> r.projectedParticipationWeight == c.participationWeight
    ensures r.(ratingUpdateId := c.ratingUpdateId, projectedParticipationWeight := c.projectedParticipationWeight) == c
  {
    var withUpdateId :=
      if c.ratingUpdateId.None? then c.(ratingUpdateId := Some(c.matchId)) else c;
    if withUpdateId.projectedParticipationWeight.None?
    then withUpdateId.(projectedParticipationWeight := withUpdateId.participationWeight)
    else withUpdateId
  }

  /** The Python constructor call `ColumnNames(...)`: the field defaults, then `__post_init__`. */
  function NewColumnNames(
    teamId: string, matchId: string, startDate: string, playerId: string,
    performance: string := "performance",
    league: Option<string> := None,
    participationWeight: Option<string> := None,
    projectedParticipationWeight: Option<string> := None,
    teamPlayersPercentagePlayingTime: Option<string> := None,
    ratingUpdateId: Option<string> := None): (c: ColumnNames)
    ensures c.teamId == teamId && c.matchId == matchId && c.startDate == startDate && c.playerId == playerId
    ensures c.performance == performance && c.league == league
    ensures c.participationWeight == participationWeight
    ensures c.teamPlayersPercentagePlayingTime == teamPlayersPercentagePlayingTime
    ensures c.ratingUpdateId == if ratingUpdateId.None? then Some(matchId) else ratingUpdateId
    ensures c.projectedParticipationWeight ==
      if projectedParticipationWeight.None? then participationWeight else projectedParticipationWeight
  {
    PostInit(ColumnNames(teamId, matchId, startDate, playerId, performance, league,
      participationWeight, projectedParticipationWeight, teamPlayersPercentagePlayingTime, ratingUpdateId))
  }

  /** Running `__post_init__` a second time changes nothing. */
  lemma PostInitIdempotent(c: ColumnNames)
    ensures PostInit(PostInit(c)) == PostInit(c)
  {
  }

  /** With only the four required names given, performance is "performance",
      league and the weight columns are absent and updates are grouped per match. */
  lemma NewColumnNamesDefaults(teamId: string, matchId: string, startDate: string, playerId: string)
    ensures var c := NewColumnNames(teamId, matchId, startDate, playerId);
      && c.performance == "performance"
      && c.league.None? && c.participationWeight.None?
      && c.projectedParticipationWeight.None?
      && c.teamPlayersPercentagePlayingTime.None?
      && c.ratingUpdateId == Some(matchId)
  {
  }

  /** Parameters that decide an unseen player's starting rating. */
  datatype StartRatingParameters = StartRatingParameters(
    startLeagueRatings: Option<map<string, real>> := None,
    leagueQuantile: real := 0.2,
    teamRatingSubtract: real := 80.0,
    teamWeight: real := 0.2)

  /** `StartRatingParameters()` with no arguments. */
  function DefaultStartRatingParameters(): (p: StartRatingParameters)
    ensures p.startLeagueRatings.None?
    ensures p.leagueQuantile == 0.2 && p.teamRatingSubtract == 80.0 && p.teamWeight == 0.2
  {
    StartRatingParameters()
  }

  datatype MatchPerformance = MatchPerformance(
    performanceValue: real,
    participationWeight: real,
    projectedParticipationWeight: real,
    ratio: map<string, real>)

  /** The stored rating state of one player. */
  datatype PlayerRating = PlayerRating(
    id: string,
    ratingValue: real,
    name: Option<string> := None,
    gamesPlayed: int := 0,
    lastMatchDayNumber: Option<int> := None,
    certainRatio: real := 0.0,
    certainSum: real := 0.0,
    prevRatingChanges: Option<seq<real>> := None)

  /** A player first seen: `PlayerRating(id=..., rating_value=...)`. */
  function NewPlayerRating(id: string, ratingValue: real): (r: PlayerRating)
    ensures r.id == id && r.ratingValue == ratingValue && r.name.None?
    ensures r.gamesPlayed == 0 && r.certainRatio == 0.0 && r.certainSum == 0.0
    ensures r.lastMatchDayNumber.None? && r.prevRatingChanges.None?
  {
    PlayerRating(id, ratingValue)
  }

  datatype Team = Team(id: string, playerIds: seq<string>, lastMatchDayNumber: int, name: Option<string> := None)

  datatype TeamRating = TeamRating(
    id: string,
    name: string,
    ratingValue: real,
    players: seq<PlayerRating>,
    gamesPlayed: int := 0,
    lastMatchDayNumber: Option<int> := None)

  datatype PreMatchPlayerRating = PreMatchPlayerRating(
    id: string,
    ratingValue: real,
    gamesPlayed: int,
    projectedRatingValue: real,
    certainRatio: real,
    league: Option<string>,
    matchPerformance: MatchPerformance)

  datatype PreMatchTeamRating = PreMatchTeamRating(
    id: string,
    players: seq<PreMatchPlayerRating>,
    ratingValue: real,
    league: Option<string>,
    projectedRatingValue: real)

  datatype PreMatchRating = PreMatchRating(id: string, teams: seq<PreMatchTeamRating>, dayNumber: int)

  datatype PlayerRatingChange = PlayerRatingChange(
    id: string,
    dayNumber: int,
    league: Option<string>,
    participationWeight: real,
    predictedPerformance: real,
    performance: real,
    preMatchRatingValue: real,
    ratingChangeValue: real)

  datatype TeamRatingChange = TeamRatingChange(
    id: string,
    players: seq<PlayerRatingChange>,
    predictedPerformance: real,
    performance: real,
    preMatchRatingValue: real,
    ratingChangeValue: real,
    league: Option<string>)

  datatype PostMatchTeamRatingChange = PostMatchTeamRatingChange(
    id: string,
    players: seq<PlayerRatingChange>,
    ratingValue: real,
    predictedPerformance: real)

  datatype PostMatchRatingChange = PostMatchRatingChange(id: string, teams: seq<PostMatchTeamRatingChange>)

  datatype MatchRating = MatchRating(id: string, preMatchRating: PreMatchRating, postMatchRating: PostMatchRatingChange)

  datatype MatchRatings = MatchRatings(
    preMatchTeamRatingValues: seq<real>,
    preMatchPlayerRatingValues: seq<real>,
    preMatchOpponentRatingValues: seq<real>,
    playerRatingChanges: seq<real>,
    playerLeagues: seq<Option<string>>,
    teamOpponentLeagues: seq<Option<string>>,
    matchIds: seq<string>)

  datatype MatchPlayer = MatchPlayer(id: string, performance: MatchPerformance, league: Option<string> := None)

  datatype MatchTeam = MatchTeam(id: string, players: seq<MatchPlayer>, league: Option<string> := None)

  datatype Match = Match(id: string, updateId: string, teams: seq<MatchTeam>, dayNumber: int, league: Option<string> := None)
}
