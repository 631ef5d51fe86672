/**
 * The 1v1 ladder game: who won, whether it was a draw, and how the end of a
 * valid game moves each player's ladder score and league.
 *
 * Scores are counted in half-points so that the changes 0.5, 1, 1.5, -0.5
 * and 0 are exact integers. Player, and the parts of a game its base class
 * owns (validity, armies, reported results, player options), are modelled
 * as plain fields, since that base class is not part of this model.
 */
module Ladder {
  import opened Wrappers

  datatype PlayerState = Idle | SearchingLadder | Hosting | Joining

  /** Only VALID matters to the ladder; every other validity state behaves alike. */
  datatype Validity = Valid | NotValid

  /** What the server sends on a player's lobby connection. */
  datatype LobbyMessage =
    | WelcomeNotice
    | LearningNotice(progress: real)
    | GameLaunch(mod: string, mapName: string, mapId: int, reason: string, uid: int, args: seq<string>)

  class Player {
    const id: int
    const login: string
    /** The deviation half of the player's ladder rating. */
    const deviation: real
    var state: PlayerState
    var league: Option<int>
    var game: LadderGame?
    /** Every message sent on the player's lobby connection, in order. */
    var sent: seq<LobbyMessage>

    constructor (id: int, login: string, deviation: real)
      ensures this.id == id && this.login == login && this.deviation == deviation
      ensures state == Idle && league == None && game == null && sent == []
    {
      this.id := id;
      this.login := login;
      this.deviation := deviation;
      state := Idle;
      league := None;
      game := null;
      sent := [];
    }
  }

  /** One reported result for an army; the ladder reads only its outcome ("victory", "draw", ...). */
  datatype Report = Report(reporter: int, outcome: string)

  /** The exceptions a ladder game's end can raise: a missing key of a dictionary, or a bad call or unpack. */
  datatype GameError = KeyError | TypeError

  const ARMY: string := "Army"
  const START_SPOT: string := "StartSpot"
  const TEAM: string := "Team"
  const VICTORY: string := "victory"
  const DRAW: string := "draw"

  /** Some report in `reports` has outcome `o`. */
  predicate HasOutcome(reports: seq<Report>, o: string)
  {
    exists i :: 0 <= i < |reports| && reports[i].outcome == o
  }

  /** A player's row in the ladder season table; `score` in half-points. */
  datatype Standing = Standing(league: int, score: int)

  /** What the end of a valid ladder game writes. */
  datatype LadderEnd = DrawRecorded | Settled(season: map<int, Standing>)

  /** Minimum score, by league, above which a player moves up: 50, 75, 100, 150 points. */
  const LEAGUE_INCR_MIN: map<int, int> := map[1 := 100, 2 := 150, 3 := 200, 4 := 300]

  /**
   * The score change of one player in half-points: with even leagues a winner
   * gains 1 and a loser loses 0.5; otherwise a winner gains 0.5 in the highest
   * league and 1.5 below it, and a loser gains 1 in the highest league and 0
   * below it.
   */
  function ScoreChange(winner: bool, evenLeague: bool, inMaxLeague: bool): (r: int)
    ensures r as real == 2.0 * ScoreChangePoints(winner, evenLeague, inMaxLeague)
    ensures evenLeague ==> (r > 0 <==> winner)
    ensures !evenLeague ==> r >= 0
  {
    if winner then
      if evenLeague then 2 else if inMaxLeague then 1 else 3
    else
      if evenLeague then -1 else if inMaxLeague then 2 else 0
  }

  /**
   * The same table in points, as the season table stores it: the default for
   * a winner or a loser, overridden when the leagues differ.
   */
  function ScoreChangePoints(winner: bool, evenLeague: bool, inMaxLeague: bool): real
  {
    var default := if winner then 1.0 else -0.5;
    if evenLeague then default
    else if winner then (if inMaxLeague then 0.5 else 1.5)
    else (if inMaxLeague then 1.0 else 0.0)
  }

  /** The stored score after a change: GREATEST(0, score + change). */
  function NewScore(score: int, change: int): (r: int)
    ensures r >= 0 && r >= score + change
    ensures r == 0 || r == score + change
  {
    if score + change < 0 then 0 else score + change
  }

  /** Leagues 1 to 4 move up, with the score reset, once the score exceeds their minimum. */
  function Promoted(st: Standing): (r: Standing)
    ensures r == st || r == Standing(st.league + 1, 0)
    ensures r.league == st.league + 1 <==> 1 <= st.league <= 4 && st.score > LEAGUE_INCR_MIN[st.league]
  {
    if st.league in LEAGUE_INCR_MIN && st.score > LEAGUE_INCR_MIN[st.league]
    then Standing(st.league + 1, 0)
    else st
  }

  /** One player's row after a decided game: the clamped score change, then promotion. */
  function Settle(st: Standing, winner: bool, evenLeague: bool, inMaxLeague: bool): (r: Standing)
    ensures r.score >= 0
    ensures r.league == st.league || (r.league == st.league + 1 && 1 <= st.league <= 4 && r.score == 0)
    ensures r.league == st.league ==> r.score == NewScore(st.score, ScoreChange(winner, evenLeague, inMaxLeague))
  {
    Promoted(Standing(st.league, NewScore(st.score, ScoreChange(winner, evenLeague, inMaxLeague))))
  }

  class LadderGame {
    const id: int
    const gameMode: string
    var maxPlayers: int
    var host: Player?
    var name: string
    var mapFilePath: string
    var validity: Validity
    var players: seq<Player>
    var armies: seq<int>
    var results: map<int, seq<Report>>
    var options: map<(int, string), int>
    /** The rating kinds whose changes rate_game persisted, in order. */
    var ratingsPersisted: seq<string>
    /** How many ladder updates on_game_end scheduled. */
    var ladderUpdates: nat

    /** A ladder game is for two players. */
    constructor (id: int, gameMode: string)
      ensures this.id == id && this.gameMode == gameMode && maxPlayers == 2
      ensures options == map[] && ratingsPersisted == [] && ladderUpdates == 0
    {
      this.id := id;
      this.gameMode := gameMode;
      maxPlayers := 2;
      options := map[];
      ratingsPersisted := [];
      ladderUpdates := 0;
    }

    /** Some army has some report of a draw. */
    ghost predicate Drawn()
      reads this
      requires forall k :: 0 <= k < |armies| ==> armies[k] in results
    {
      exists k :: 0 <= k < |armies| && HasOutcome(results[armies[k]], DRAW)
    }

    /** The player's army has a report of victory. */
    predicate Won(playerId: int)
      reads this
      requires (playerId, ARMY) in options && options[(playerId, ARMY)] in results
    {
      HasOutcome(results[options[(playerId, ARMY)]], VICTORY)
    }

    method SetPlayerOption(playerId: int, key: string, value: int)
      modifies this`options
      ensures options == old(options)[(playerId, key) := value]
    {
      options := options[(playerId, key) := value];
    }

    /** Ratings are computed and persisted for valid games only. */
    method RateGame()
      modifies this`ratingsPersisted
      ensures ratingsPersisted == old(ratingsPersisted) + (if validity == Valid then ["ladder1v1"] else [])
    {
      if validity == Valid {
        ratingsPersisted := ratingsPersisted + ["ladder1v1"];
      }
    }

    /** The ladder update is scheduled for valid games only. */
    method OnGameEnd()
      modifies this`ladderUpdates
      ensures ladderUpdates == old(ladderUpdates) + (if validity == Valid then 1 else 0)
    {
      if validity == Valid {
        ladderUpdates := ladderUpdates + 1;
      }
    }

    /**
     * The first k armies all have reports, and none of them reports a draw:
     * the draw scan has passed them.
     */
    ghost predicate ScannedNoDraw(k: int)
      reads this
      requires 0 <= k <= |armies|
    {
      forall j :: 0 <= j < k ==> armies[j] in results && !HasOutcome(results[armies[j]], DRAW)
    }

    /**
     * 1 if some report for the army is a victory, 0 otherwise; an army with
     * no reports is a KeyError.
     */
    method GetArmyResult(army: int) returns (r: Result<int, GameError>)
      ensures army !in results <==> r == Failure(KeyError)
      ensures army in results ==> r.Success? && (r.value == 0 || r.value == 1)
      ensures army in results ==> (r == Success(1) <==> HasOutcome(results[army], VICTORY))
    {
      if army !in results {
        return Failure(KeyError);
      }
      var reports := results[army];
      for i := 0 to |reports|
        invariant forall j :: 0 <= j < i ==> reports[j].outcome != VICTORY
      {
        if reports[i].outcome == VICTORY {
          return Success(1);
        }
      }
      return Success(0);
    }

    /** A player wins iff their army has a victory report; an army with no reports is a KeyError. */
    method IsWinner(player: Player) returns (w: Result<bool, GameError>)
      requires (player.id, ARMY) in options
      ensures options[(player.id, ARMY)] !in results <==> w == Failure(KeyError)
      ensures options[(player.id, ARMY)] in results ==> w == Success(Won(player.id))
    {
      var result := GetArmyResult(options[(player.id, ARMY)]);
      if result.Failure? {
        return Failure(result.error);
      }
      return Success(result.value > 0);
    }

    /**
     * The armies are scanned in order: the first army that has no reports is
     * a KeyError, the first with a draw report makes the game a draw, and a
     * scan that passes every army finds no draw.
     */
    method IsDraw() returns (d: Result<bool, GameError>)
      ensures d.Failure? ==> d.error == KeyError
      ensures d == Success(true) <==>
                exists k :: 0 <= k < |armies| && ScannedNoDraw(k) && armies[k] in results
                              && HasOutcome(results[armies[k]], DRAW)
      ensures d.Failure? <==> exists k :: 0 <= k < |armies| && ScannedNoDraw(k) && armies[k] !in results
      ensures d == Success(false) <==> ScannedNoDraw(|armies|)
      ensures (forall k :: 0 <= k < |armies| ==> armies[k] in results) ==> d == Success(Drawn())
    {
      for k := 0 to |armies|
        invariant ScannedNoDraw(k)
      {
        if armies[k] !in results {
          return Failure(KeyError);
        }
        var reports := results[armies[k]];
        for i := 0 to |reports|
          invariant forall j :: 0 <= j < i ==> reports[j].outcome != DRAW
        {
          if reports[i].outcome == DRAW {
            return Success(true);
          }
        }
      }
      return Success(false);
    }

    /**
     * The season table after a decided game: each player in turn gets
     * Settle with whether they won, whether the leagues were even, and
     * whether they are in the highest league.
     */
    function SeasonAfter(season: map<int, Standing>, ps: seq<Player>, evenLeague: bool, maxLeagueIds: set<int>)
      : (r: map<int, Standing>)
      reads this
      requires forall p :: p in ps ==> (p.id, ARMY) in options && options[(p.id, ARMY)] in results
      requires forall p :: p in ps ==> p.id in season
      ensures r.Keys == season.Keys
    {
      if ps == [] then season
      else
        var before := SeasonAfter(season, ps[..|ps| - 1], evenLeague, maxLeagueIds);
        var p := ps[|ps| - 1];
        before[p.id := Settle(before[p.id], Won(p.id), evenLeague, p.id in maxLeagueIds)]
    }

    /** Settling one more player of `ps` extends the table by that player's row. */
    lemma SeasonAfterStep(season: map<int, Standing>, ps: seq<Player>, evenLeague: bool, maxLeagueIds: set<int>, i: int)
      requires forall p :: p in ps ==> (p.id, ARMY) in options && options[(p.id, ARMY)] in results
      requires forall p :: p in ps ==> p.id in season
      requires 0 <= i < |ps|
      ensures var before := SeasonAfter(season, ps[..i], evenLeague, maxLeagueIds);
              SeasonAfter(season, ps[..i + 1], evenLeague, maxLeagueIds)
              == before[ps[i].id := Settle(before[ps[i].id], Won(ps[i].id), evenLeague, ps[i].id in maxLeagueIds)]
    {
      assert ps[..i + 1][..i] == ps[..i];
    }

    /**
     * The end of a valid ladder game: a draw only counts a draw for the map;
     * otherwise every player's row is settled in turn.
     */
    method SettleLadder(season: map<int, Standing>, evenLeague: bool, maxLeagueIds: set<int>)
      returns (r: LadderEnd)
      requires forall k :: 0 <= k < |armies| ==> armies[k] in results
      requires forall p :: p in players ==> (p.id, ARMY) in options && options[(p.id, ARMY)] in results
      requires forall p :: p in players ==> p.id in season
      ensures Drawn() ==> r == DrawRecorded
      ensures !Drawn() ==> r == Settled(SeasonAfter(season, players, evenLeague, maxLeagueIds))
    {
      var draw := IsDraw();
      if draw.value {
        return DrawRecorded;
      }
      var table := season;
      for i := 0 to |players|
        invariant table == SeasonAfter(season, players[..i], evenLeague, maxLeagueIds)
      {
        var p := players[i];
        var winner := IsWinner(p);
        SeasonAfterStep(season, players, evenLeague, maxLeagueIds, i);
        table := table[p.id := Settle(table[p.id], winner.value, evenLeague, p.id in maxLeagueIds)];
      }
      assert players[..|players|] == players;
      return Settled(table);
    }
  }

  /** A row a ladder season can hold: league 1 to 5, score not negative. */
  predicate InRange(st: Standing)
  {
    1 <= st.league <= 5 && st.score >= 0
  }

  /**
   * Settling the season leaves the rows of players not in the game as they
   * were, and keeps every row in range: no score below zero, no league above 5.
   */
  lemma {:induction false} SeasonAfterRows(g: LadderGame, season: map<int, Standing>, ps: seq<Player>,
                                           evenLeague: bool, maxLeagueIds: set<int>)
    requires forall p :: p in ps ==> (p.id, ARMY) in g.options && g.options[(p.id, ARMY)] in g.results
    requires forall p :: p in ps ==> p.id in season
    ensures forall id :: id in season && (forall p :: p in ps ==> p.id != id) ==>
              g.SeasonAfter(season, ps, evenLeague, maxLeagueIds)[id] == season[id]
    ensures (forall id :: id in season ==> InRange(season[id])) ==>
              forall id :: id in season ==> InRange(g.SeasonAfter(season, ps, evenLeague, maxLeagueIds)[id])
  {
    if ps != [] {
      SeasonAfterRows(g, season, ps[..|ps| - 1], evenLeague, maxLeagueIds);
      forall id | id in season && (forall p :: p in ps ==> p.id != id)
        ensures forall p :: p in ps[..|ps| - 1] ==> p.id != id
      {
        forall p | p in ps[..|ps| - 1] ensures p.id != id {
          assert p in ps;
        }
      }
    }
  }

  /**
   * When the players' ids are distinct, each player's row is settled exactly
   * once, from its row before the game.
   */
  lemma {:induction false} SeasonAfterSettlesEach(g: LadderGame, season: map<int, Standing>, ps: seq<Player>,
                                                  evenLeague: bool, maxLeagueIds: set<int>, i: int)
    requires forall p :: p in ps ==> (p.id, ARMY) in g.options && g.options[(p.id, ARMY)] in g.results
    requires forall p :: p in ps ==> p.id in season
    requires forall j, k :: 0 <= j < k < |ps| ==> ps[j].id != ps[k].id
    requires 0 <= i < |ps|
    ensures g.SeasonAfter(season, ps, evenLeague, maxLeagueIds)[ps[i].id]
         == Settle(season[ps[i].id], g.Won(ps[i].id), evenLeague, ps[i].id in maxLeagueIds)
  {
    var init := ps[..|ps| - 1];
    if i < |ps| - 1 {
      SeasonAfterSettlesEach(g, season, init, evenLeague, maxLeagueIds, i);
    } else {
      SeasonAfterRows(g, season, init, evenLeague, maxLeagueIds);
      forall p | p in init ensures p.id != ps[i].id {
        var j :| 0 <= j < |init| && init[j] == p;
      }
    }
  }


  /**
   * The end of a valid ladder game as lines 40-51 stand: a draw is recorded;
   * a decided game reaches line 51, where all() is given two arguments, and
   * raises TypeError before any row is written.
   */
  function EndAsWritten(drawn: bool): (r: Result<LadderEnd, GameError>)
  {
    if drawn then Success(DrawRecorded) else Failure(TypeError)
  }

  /**
   * As written, no decided game changes a score; with the intended even-league
   * flag a winner in an even game gains one point.
   */
  lemma DecidedGameScoresNothingAsWritten()
    ensures EndAsWritten(false) == Failure(TypeError)
    ensures Settle(Standing(1, 0), true, true, false) == Standing(1, 2)
  {
  }

  /**
   * One player's rows after lines 71-94 with the promotion UPDATE's parameter
   * bindings as written and its SQL text as intended. As written, the SQL
   * strings at lines 76-77 and 92-93 also lack a space before WHERE, so the
   * SELECT fails before this UPDATE runs; this models the statement once that
   * is fixed. The clamped score is stored, but the promotion UPDATE receives
   * (player id, new league) for "SET league = %s ... WHERE idUser = %s", so
   * the row of the user whose id is the new league number takes the player's
   * id as its league and a zero score; unless that user is the player, the
   * player keeps their league.
   */
  function SettleRowAsWritten(season: map<int, Standing>, playerId: int, winner: bool, evenLeague: bool,
                              inMaxLeague: bool): (r: map<int, Standing>)
    requires playerId in season
    ensures r.Keys == season.Keys
    ensures forall id :: id in season && id != playerId && id != season[playerId].league + 1 ==> r[id] == season[id]
  {
    var st := season[playerId];
    var scored := Standing(st.league, NewScore(st.score, ScoreChange(winner, evenLeague, inMaxLeague)));
    var t := season[playerId := scored];
    if Promoted(scored) != scored && scored.league + 1 in t
    then t[scored.league + 1 := Standing(playerId, 0)]
    else t
  }

  /**
   * Player 7 at 50 points in league 1 wins an even game. With the bindings as
   * written (and the SQL text's missing spaces fixed), their row stays in
   * league 1 at 51 points and user 2's row is moved to "league 7"; settled as
   * intended, player 7 moves up to league 2 with a zero score.
   */
  lemma PromotionSwapAsWritten()
    ensures var season := map[7 := Standing(1, 100), 2 := Standing(3, 10)];
            && SettleRowAsWritten(season, 7, true, true, false) == map[7 := Standing(1, 102), 2 := Standing(7, 0)]
            && Settle(season[7], true, true, false) == Standing(2, 0)
  {
    var season := map[7 := Standing(1, 100), 2 := Standing(3, 10)];
    assert Promoted(Standing(1, 102)) == Standing(2, 0);
  }
}
