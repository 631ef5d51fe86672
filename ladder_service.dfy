/**
 * The 1v1 ladder queue: adding a player to the search list, and setting up a
 * ladder game between two matched players.
 *
 * The season-table lookup is an input (`LeagueRow`): what the query's
 * fetchone returned. The random map choice is an input index into the map
 * pool, and the new game's uuid and game mode are inputs.
 */
module LadderQueue {
  import opened Wrappers
  import opened Ladder

  /** What fetchone returned for the player's season row: no row, or a row whose league may be NULL. */
  datatype LeagueRow = NoRow | Row(league: Option<int>)

  /** The exceptions the two coroutines can raise. */
  datatype Error = TypeError | IndexError

  /**
   * getLeague's answer: a row's league when it is set and not 0, and no league
   * otherwise. Unpacking a missing row is a TypeError.
   */
  function LookedUpLeague(row: LeagueRow): (r: Result<Option<int>, Error>)
    ensures row.NoRow? <==> r == Failure(Error.TypeError)
    ensures r.Success? && r.value.Some? <==> row.Row? && row.league.Some? && row.league.value != 0
    ensures r.Success? && r.value.Some? ==> r.value == row.league
  {
    match row
    case NoRow => Failure(Error.TypeError)
    case Row(league) =>
      if league.Some? && league.value != 0 then Success(league) else Success(None)
  }

  /**
   * The notice sent to a player joining the queue, chosen by the deviation of
   * their ladder rating: a welcome above 490, the learning progress in percent
   * above 250, and nothing otherwise.
   */
  function NoticeFor(deviation: real): (n: Option<LobbyMessage>)
    ensures n == Some(WelcomeNotice) <==> deviation > 490.0
    ensures n.Some? && n.value.LearningNotice? <==> 250.0 < deviation <= 490.0
    ensures n == None <==> deviation <= 250.0
    ensures n.Some? && n.value.LearningNotice? ==>
              4.0 <= n.value.progress < 100.0 && n.value.progress * 2.5 == 500.0 - deviation
  {
    if deviation > 490.0 then Some(WelcomeNotice)
    else if deviation > 250.0 then Some(LearningNotice((500.0 - deviation) / 2.5))
    else None
  }

  /** The launch arguments of every ladder game. */
  const LAUNCH_ARGS: seq<string> := ["/players 2", "/team 1"]

  /** No player appears twice in the queue. */
  predicate Distinct(ps: seq<Player>)
  {
    forall i, j :: 0 <= i < j < |ps| ==> ps[i] != ps[j]
  }

  /** The options of a ladder game after the host's and the joiner's start spots and teams are set, in that order. */
  function Seated(host: int, joiner: int): (o: map<(int, string), int>)
  {
    map[(host, START_SPOT) := 1][(joiner, START_SPOT) := 2][(host, TEAM) := 2][(joiner, TEAM) := 3]
  }

  lemma SeatOptions(host: int, joiner: int)
    ensures Seated(host, joiner).Keys == {(host, START_SPOT), (joiner, START_SPOT), (host, TEAM), (joiner, TEAM)}
    ensures Seated(host, joiner)[(joiner, START_SPOT)] == 2 && Seated(host, joiner)[(joiner, TEAM)] == 3
    ensures host != joiner ==> Seated(host, joiner)[(host, START_SPOT)] == 1 && Seated(host, joiner)[(host, TEAM)] == 2
  {
  }

  class LadderService {
    /** The players searching for a ladder game, in the order they joined. */
    var players: seq<Player>
    /** The ids of the players for whom an initial season row (league 1, score 0) was inserted, in order. */
    var seasonInserts: seq<int>

    ghost predicate Valid()
      reads this
    {
      Distinct(players)
    }

    constructor ()
      ensures players == [] && seasonInserts == [] && Valid()
    {
      players := [];
      seasonInserts := [];
    }

    /**
     * Adds a player to the queue once. A player already queued gets 0 and
     * nothing changes. A missing season row fails before anything changes.
     * Otherwise the player is queued at the end, takes the looked-up league,
     * searches the ladder, receives the notice its deviation calls for, and
     * the result is 1; a player with no league also gets an initial season row.
     */
    method AddPlayer(player: Player, row: LeagueRow) returns (r: Result<int, Error>)
      requires Valid()
      modifies this, player
      ensures Valid()
      ensures player in old(players) ==>
                r == Success(0) && players == old(players) && seasonInserts == old(seasonInserts)
                && unchanged(player)
      ensures player !in old(players) && row.NoRow? ==>
                r == Failure(Error.TypeError) && players == old(players) && seasonInserts == old(seasonInserts)
                && unchanged(player)
      ensures player !in old(players) && row.Row? ==>
                var league := LookedUpLeague(row).value;
                && r == Success(1)
                && players == old(players) + [player]
                && seasonInserts == old(seasonInserts) + (if league.None? then [player.id] else [])
                && player.league == league
                && player.state == SearchingLadder
                && player.sent == old(player.sent) + (if NoticeFor(player.deviation).Some?
                                                      then [NoticeFor(player.deviation).value] else [])
                && player.game == old(player.game)
    {
      if player in players {
        return Success(0);
      }
      var looked := LookedUpLeague(row);
      if looked.Failure? {
        return Failure(looked.error);
      }
      var league := looked.value;
      if league.None? {
        seasonInserts := seasonInserts + [player.id];
      }
      player.league := league;
      players := players + [player];
      player.state := SearchingLadder;
      if player.deviation > 490.0 {
        player.sent := player.sent + [WelcomeNotice];
      } else if player.deviation > 250.0 {
        var progress := (500.0 - player.deviation) / 2.5;
        player.sent := player.sent + [LearningNotice(progress)];
      }
      return Success(1);
    }

    /**
     * Sets up a ladder game between two players: player 1 hosts, player 2
     * joins, both are put into one new game on the chosen map, the game is
     * named after both logins, the players take start spots 1 and 2 and teams
     * 2 and 3, and player 1 alone is sent the launch message. An empty map
     * pool fails once both states are set and before the game exists.
     */
    method StartGame(p1: Player, p2: Player, maps: seq<(int, string)>, pick: nat, uuid: int, gameMode: string)
      returns (r: Result<LadderGame, Error>)
      requires |maps| > 0 ==> pick < |maps|
      modifies p1, p2
      ensures p2.state == Joining
      ensures p1.state == if p1 == p2 then Joining else Hosting
      ensures maps == [] ==>
                && r == Failure(IndexError)
                && p1.game == old(p1.game) && p2.game == old(p2.game)
                && p1.sent == old(p1.sent) && p2.sent == old(p2.sent)
      ensures maps != [] ==> r.Success? && fresh(r.value)
      ensures maps != [] ==>
                var g := r.value;
                var (mapId, mapPath) := maps[pick];
                && g.id == uuid && g.gameMode == gameMode && g.maxPlayers == 2
                && p1.game == g && p2.game == g
                && g.host == p1
                && g.name == p1.login + " Vs " + p2.login
                && g.mapFilePath == mapPath
                && g.options == Seated(p1.id, p2.id)
                && p1.sent == old(p1.sent) + [GameLaunch(gameMode, mapPath, mapId, "ranked", uuid, LAUNCH_ARGS)]
                && (p1 != p2 ==> p2.sent == old(p2.sent))
      ensures p1.league == old(p1.league) && p2.league == old(p2.league)
    {
      p1.state := Hosting;
      p2.state := Joining;
      if |maps| == 0 {
        return Failure(IndexError);
      }
      var (mapId, mapPath) := maps[pick];
      var game := new LadderGame(uuid, gameMode);
      p1.game := game;
      p2.game := game;
      game.mapFilePath := mapPath;
      game.host := p1;
      game.name := p1.login + " Vs " + p2.login;
      game.SetPlayerOption(p1.id, START_SPOT, 1);
      game.SetPlayerOption(p2.id, START_SPOT, 2);
      game.SetPlayerOption(p1.id, TEAM, 2);
      game.SetPlayerOption(p2.id, TEAM, 3);
      p1.sent := p1.sent + [GameLaunch(game.gameMode, mapPath, mapId, "ranked", game.id, LAUNCH_ARGS)];
      return Success(game);
    }
  }

  /**
   * Two distinct players matched on a non-empty map pool end up in the same
   * fresh game, one hosting and one joining, on opposite start spots and teams.
   */
  method MatchTwo(maps: seq<(int, string)>, pick: nat) returns (host: Player, joiner: Player, r: Result<LadderGame, Error>)
    requires 0 <= pick < |maps|
    ensures host.state == Hosting && joiner.state == Joining
    ensures r.Success? && host.game == r.value && joiner.game == r.value
    ensures var o := r.value.options;
            && (host.id, START_SPOT) in o && (joiner.id, START_SPOT) in o && (host.id, TEAM) in o && (joiner.id, TEAM) in o
            && o[(host.id, START_SPOT)] != o[(joiner.id, START_SPOT)]
            && o[(host.id, TEAM)] != o[(joiner.id, TEAM)]
    ensures host.sent == [GameLaunch("ladder1v1", maps[pick].1, maps[pick].0, "ranked", 7, LAUNCH_ARGS)]
    ensures joiner.sent == []
  {
    var service := new LadderService();
    host := new Player(1, "alice", 100.0);
    joiner := new Player(2, "bob", 100.0);
    r := service.StartGame(host, joiner, maps, pick, 7, "ladder1v1");
    SeatOptions(1, 2);
  }

  /**
   * Adding the same player twice queues it once: the first add answers 1, the
   * second 0, and the player searches the ladder with the row's league.
   */
  method AddTwiceQueuesOnce(row: LeagueRow, deviation: real)
    returns (player: Player, first: Result<int, Error>, second: Result<int, Error>, queued: seq<Player>)
    requires row.Row?
    ensures first == Success(1) && second == Success(0)
    ensures queued == [player]
    ensures player.state == SearchingLadder && player.league == LookedUpLeague(row).value
    ensures |player.sent| == if deviation > 250.0 then 1 else 0
  {
    var service := new LadderService();
    player := new Player(1, "alice", deviation);
    first := service.AddPlayer(player, row);
    second := service.AddPlayer(player, row);
    queued := service.players;
  }
}
