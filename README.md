# Subscriptions, NAT packets and the 1v1 ladder — a Dafny model

This project models four pieces of the Forged Alliance Forever lobby server
(madformuse/server):

- **The publish/subscribe mixin** (`server/subscribable.py`). A `Subscribable` keeps a
  table from command id to an ordered list of `Subscription`s, with `"_all"` as the
  catch-all list. The model covers:
  - `subscribe`, which appends;
  - `unsubscribe`, which filters by receiver;
  - `notify`, which fires the message's own list and then the catch-all list;
  - a subscription's `__exit__`, `fire` and `wait_for`.

  Handler dispatch is a returned trace of `Call(receiver, command id, arguments)`.
  A receiver lists the handlers it has. Each wait handle (an asyncio future) is an
  explicit `Emission` state: absent, `Pending`, `Resolved` or `Cancelled`.
  `wait_for` is split at its suspension point:
  - `ArmWait` models lines 136-137;
  - `ResumeWait` models lines 138-139, with the deadline as an input.

  Other notifications can run in between.
- **The NAT packet rule** (`server/natpacketserver.py`, `_recv`). `Classify` decides,
  from what `recvfrom(512)` produced, one of four outcomes:
  - ignore;
  - swallow a would-block error;
  - raise;
  - publish `ProcessServerNatPacket` with `["host:port", token]` and acknowledge with
    `08 4F 4B`.

  `NatPacketServer.Recv` then runs the publish on the listener's subscription table
  and records the acknowledgement. Decoding is strict UTF-8, the same as Python's
  `bytes.decode()`. It is proved to round-trip with encoding in both directions.
- **Ladder game results** (`server/games/ladder_game.py`):
  - the `rate_game` / `on_game_end` validity gate;
  - `get_army_result`, `is_winner` and `is_draw` as loops over the result lists;
  - the score-change table and the clamp;
  - the promotion rule and the per-player settlement of a season table.

  Scores are integers counting half-points, so 0.5, 1, 1.5 and -0.5 are exact. The
  league thresholds of 50, 75, 100 and 150 points are therefore 100, 150, 200 and 300.
- **The ladder queue** (`server/games/ladder_service.py`):
  - `addPlayer`: add once, set the looked-up league, set the state, send a notice that
    depends on the deviation;
  - `startGame`: states, one shared new game, host, name, start spots and teams, and
    the launch message to player 1.

  Three values are inputs:
  - the season-table row;
  - the random map choice;
  - the new game's uuid.

Files:
- `wrappers.dfy`: `Option` and `Result`.
- `utf8.dfy`: bytes, UTF-8 encoding and strict decoding.
- `subscribable.dfy`
- `natpacketserver.dfy`
- `ladder_game.dfy`: includes a stand-in `Player` class with the fields the ladder code uses.
- `ladder_service.dfy`

## Model

| member | source | states |
|---|---|---|
| Subscriptions.Subscribable.constructor | server/subscribable.py:20-22 | A fresh table has exactly one list, `"_all"`, and it is empty; there are no wait handles. |
| Subscriptions.Subscribable.Subscribe | server/subscribable.py:39-47 | The new subscription records the receiver and the ids. No ids means `["_all"]`. A missing filter accepts everything. The subscription is appended once to the end of each listed id's list, and a missing list is created. The loop invariant ties this to `Registered`. |
| Subscriptions.RegisteredAt | server/subscribable.py:42-46 | After subscribing, the table's ids are the old ids plus the listed ones. Each list is its old contents followed by the subscription once per occurrence of its id. Unlisted lists are unchanged. |
| Subscriptions.Subscribable.Notify | server/subscribable.py:55-61 | A non-string command id fails the assertion. Otherwise the calls made are those of the id's own list in order, then those of `"_all"`. A target's pending handle for the id is resolved when its filter accepts. Only the targets are modified, so no other subscription's handles change. |
| Subscriptions.FireEach | server/subscribable.py:57-61 | Notify's two loops, run back to back over the two lists joined. It fires each subscription in list order. The calls equal `Dispatch` of the list. Each listed subscription's handles end as after one firing, even if it appears twice. |
| Subscriptions.NotifyOrder | server/subscribable.py:57-61 | Dispatch over notify's targets is the own list's calls, then the catch-all's. A message whose id is `"_all"` makes the catch-all calls twice. |
| Subscriptions.DispatchAppend | server/subscribable.py:57-61 | Dispatching two lists in a row is dispatching their concatenation. |
| Subscriptions.DispatchCalls | server/subscribable.py:118-124 | A call is made iff all four hold: it has the message's id, it has the message's arguments, its receiver has that handler, and a subscription of that receiver in the list accepts the arguments. |
| Subscriptions.CatchAllMessageTwice | server/subscribable.py:57-61 | On a fresh bus, a catch-all subscriber with an `_all` handler is called twice by one `"_all"` message. |
| Subscriptions.RemovalIds | server/subscribable.py:78-79 | `None` and the empty list both mean `["_all"]`. Any other list is used as given. |
| Subscriptions.Subscribable.Unsubscribe | server/subscribable.py:78-83 | The table becomes `Unsubscribed(old table, RemovalIds(ids), receiver)`. The loop invariant proves this. |
| Subscriptions.UnsubscribedAt | server/subscribable.py:80-83 | Unsubscribing keeps the table's ids. A listed id that is present loses every subscription of the receiver. Every other list is unchanged. |
| Subscriptions.WithoutCount | server/subscribable.py:82-83 | The filtered list holds no subscription of the receiver. Every other subscription appears exactly as often as before. |
| Subscriptions.WithoutAppend | server/subscribable.py:82-83 | Filtering keeps relative order, because it distributes over concatenation. |
| Subscriptions.WithoutIdempotent | server/subscribable.py:80-83 | Filtering twice by one receiver is filtering once, so a repeated id in the list does no more. |
| Subscriptions.ExitWithNoIdsDropsCatchAll | server/subscribable.py:78-83 | Leaving a subscription made with `[]` removes the receiver's other catch-all subscription. |
| Subscriptions.Subscription.constructor | server/subscribable.py:93-100 | A missing filter accepts every argument list. A given filter is kept. A new subscription has no wait handles. |
| Subscriptions.Subscription.Exit | server/subscribable.py:105-106 | Leaving the context unsubscribes the receiver from exactly the ids the subscription was created with. |
| Subscriptions.Subscription.Fire | server/subscribable.py:109-126 | When the filter rejects, nothing happens. When it accepts, a pending handle for the id becomes resolved, and the receiver's handler is called if it has one. |
| Subscriptions.AfterFireIdempotent | server/subscribable.py:119-121 | A second firing with the same verdict changes no handle. A handle is resolved at most once. |
| Subscriptions.Subscription.ArmWait | server/subscribable.py:136-137 | A handle is created, pending, only if none exists for the id. An existing handle is kept as it is. |
| Subscriptions.Subscription.ResumeWait | server/subscribable.py:138-139 | A resolved handle returns and is replaced by a pending one. A pending handle past its deadline is cancelled and the wait times out without re-arming. A cancelled handle raises CancelledError. Otherwise the wait goes on. |
| Subscriptions.FireBetweenWaits | server/subscribable.py:136-139 | A fire between two waits resolves the re-armed handle, so the second wait returns at once, even past its deadline. |
| Subscriptions.TimeoutLeavesCancelledHandle | server/subscribable.py:138-139 | After a timeout, a later fire does not resolve the kept handle, and the next wait on the id raises CancelledError. |
| Utf8.EncodeChar | server/natpacketserver.py:46 | A character encodes to 1-4 bytes: a valid lead byte, then continuation bytes. |
| Utf8.DecodeFirst | server/natpacketserver.py:46 | Strict decoding of one character consumes 1-4 bytes of the input. |
| Utf8.Encode | server/natpacketserver.py:46 | A string of n characters encodes to between n and 4n bytes. |
| Utf8.Decode | server/natpacketserver.py:42 | Strict decoding: `None` exactly where Python's strict decoder raises. A decoded string of n characters came from between n and 4n bytes. |
| Utf8.DecodeEncode | server/natpacketserver.py:46 | Decoding the UTF-8 encoding of any string gives that string back. |
| Utf8.EncodeDecode | server/natpacketserver.py:46 | Any byte string that decodes is exactly the encoding of what it decodes to. |
| NatPacket.ReadBytes | server/natpacketserver.py:39 | At most 512 bytes are read. They are a prefix of the datagram, and the whole datagram when it fits. |
| NatPacket.DecimalString | server/natpacketserver.py:46 | `str(port)` is a non-empty run of decimal digits. |
| NatPacket.DecimalRoundTrip | server/natpacketserver.py:46 | Reading back the digits of a port gives the port. |
| NatPacket.Classify | server/natpacketserver.py:38-48 | A receive error is swallowed iff it is would-block, and any other is raised with its errno. An empty datagram is an IndexError. A non-empty datagram whose first byte is not 0x08 is ignored. A tagged datagram raises UnicodeDecodeError iff the rest of the bytes read does not decode, and is published iff it does. |
| NatPacket.NatPacketServer.constructor | server/natpacketserver.py:9-12 | The listener's subscription table starts with only the empty catch-all list. |
| NatPacket.NatPacketServer.Recv | server/natpacketserver.py:37-57 | A would-block receive error is swallowed. Any other receive error, an empty datagram, or a payload that is not UTF-8 is raised. In those cases, and for an untagged datagram, nothing is published or sent. A tagged, decodable datagram is published once, and only then is `08 4F 4B` sent to its sender. A send error is swallowed if it is would-block and raised otherwise. |
| NatPacket.TaggedTokenEmits | server/natpacketserver.py:41-48 | A datagram of 0x08 followed by a token's UTF-8, at most 512 bytes, is published as `["host:port", token]` and acknowledged to its sender. |
| NatPacket.EmitComesFromTaggedToken | server/natpacketserver.py:41-48 | Whatever is published came from a datagram tagged 0x08. Its next bytes are exactly the token's encoding. The acknowledgement goes to its sender. |
| Ladder.LadderGame.constructor | server/games/ladder_game.py:20-23 | A ladder game is for at most two players. |
| Ladder.LadderGame.RateGame | server/games/ladder_game.py:25-28 | Ratings are persisted, as `ladder1v1`, iff the game is valid. |
| Ladder.LadderGame.OnGameEnd | server/games/ladder_game.py:33-37 | The ladder update is scheduled iff the game is valid. |
| Ladder.LadderGame.GetArmyResult | server/games/ladder_game.py:112-121 | An army with no reports is a KeyError, and only such an army. Otherwise the result is 0 or 1, and it is 1 iff some report of the army is a victory. |
| Ladder.LadderGame.IsWinner | server/games/ladder_game.py:30-31 | A KeyError iff the player's army has no reports. Otherwise the player wins iff their army has a victory report. |
| Ladder.LadderGame.IsDraw | server/games/ladder_game.py:104-110 | The armies are scanned in order. The result is a draw iff some army has a draw report and every army before it has reports, none of them a draw. It is a KeyError iff some army has no reports and every army before it has reports, none of them a draw. It is no draw iff every army has reports and none is a draw. When every army has reports, it is a draw iff some army reports a draw. |
| Ladder.ScoreChange | server/games/ladder_game.py:55-69 | In half-points, the change is exactly twice the source's table in points. In even leagues the score rises iff the player won. In uneven leagues no score falls. |
| Ladder.NewScore | server/games/ladder_game.py:71-74 | The stored score is `max(0, score + change)`: never negative, and never below `score + change`. |
| Ladder.Promoted | server/games/ladder_game.py:89-91 | A player moves up one league, with the score reset to 0, iff the league is 1-4 and the score is strictly above that league's minimum. Otherwise the row is unchanged. |
| Ladder.Settle | server/games/ladder_game.py:55-91 | A settled row's score is never negative. The league stays the same, or rises by one from 1-4 with a zero score. An unchanged league keeps the clamped score. |
| Ladder.LadderGame.SeasonAfter | server/games/ladder_game.py:55-91 | Settling the players in turn keeps the season's ids. |
| Ladder.SeasonAfterRows | server/games/ladder_game.py:55-91 | Rows of users not in the game are untouched. A season whose rows are all in leagues 1-5 with non-negative scores stays so. |
| Ladder.SeasonAfterSettlesEach | server/games/ladder_game.py:55-91 | With distinct player ids, each player's row is settled exactly once, from its row before the game. |
| Ladder.LadderGame.SettleLadder | server/games/ladder_game.py:40-91 | A draw records only a draw for the map. Otherwise the loop's table is `SeasonAfter` of the season over the players in order. |
| Ladder.SettleRowAsWritten | server/games/ladder_game.py:71-94 | Models the promotion write with the statement's bindings as written and the SQL text taken as intended: the season keeps its ids, and rows other than the player's and the new league number's user are untouched. |
| Ladder.DecidedGameScoresNothingAsWritten | server/games/ladder_game.py:50-51 | As written, a decided game raises TypeError. With the intended flag, an even-league winner gains one point. |
| Ladder.PromotionSwapAsWritten | server/games/ladder_game.py:92-94 | With the bindings as written, the promotion lands on another user's row. Settled as intended, the player moves up. |
| LadderQueue.LookedUpLeague | server/games/ladder_service.py:24-31 | A missing row is a TypeError. A league is returned iff the row's league is set and not 0, and then it is that league. |
| LadderQueue.NoticeFor | server/games/ladder_service.py:49-53 | The welcome notice iff the deviation is above 490. The learning notice iff it is in (250, 490], with progress `(500 - deviation) / 2.5` in [4, 100). No notice iff it is at most 250. |
| LadderQueue.LadderService.constructor | server/games/ladder_service.py:20-22 | The queue starts empty. |
| LadderQueue.LadderService.AddPlayer | server/games/ladder_service.py:34-56 | A queued player gets 0 and nothing changes. A missing season row raises and nothing changes. Otherwise the player is appended once at the end, the queue stays duplicate-free, and the player takes the looked-up league. The player's state becomes searching, the player is sent the notice its deviation calls for, and the result is 1. A player with no league gets an initial season row. |
| LadderQueue.AddTwiceQueuesOnce | server/games/ladder_service.py:34-56 | Adding one player twice answers 1, then 0. The queue holds the player once. |
| LadderQueue.LadderService.StartGame | server/games/ladder_service.py:62-99 | See the details below the table. |
| LadderQueue.SeatOptions | server/games/ladder_service.py:79-84 | The seated options hold exactly the two players' start spots and teams. Player 2 has start spot 2 and team 3. When the ids differ, player 1 has start spot 1 and team 2. |
| LadderQueue.MatchTwo | server/games/ladder_service.py:62-99 | Two matched players share a fresh game, one hosting and one joining, on different start spots and teams. Only the host is sent the launch message. |

`StartGame` in detail:
- Player 1 hosts and player 2 joins. When they are the same object, the later assignment wins.
- An empty map pool raises IndexError after the states are set, and before any game exists.
- Otherwise both players get one fresh game with these fields:
  - the uuid as its id and two players;
  - player 1 as host;
  - the name `login1 + " Vs " + login2`;
  - the chosen map's path.
- The game's options are `Seated(id1, id2)`: start spots 1 and 2, then teams 2 and 3, set in the source's order.
- Player 1 alone is sent the launch message `("ranked", uid, ["/players 2", "/team 1"])`.

## Findings

| source | as written | input that shows it | evidently intended | confidence | as-written member | corrected member |
|---|---|---|---|---|---|---|
| server/games/ladder_game.py:51 | `all(self.players, lambda p: ...)` passes two arguments to `all`, which takes one. Every decided valid game raises TypeError before any score is written. | Any valid, non-drawn ladder game. | `evenLeague` is whether all players share the first player's league. The model takes it as an input. | high, not executed | Ladder.DecidedGameScoresNothingAsWritten | Ladder.LadderGame.SettleLadder |
| server/games/ladder_game.py:92-94 | The promotion UPDATE's parameters `(player.id, pleague)` are bound in the wrong order to `SET league = %s ... WHERE idUser = %s`. Once the statement runs, the row of the user whose id equals the new league gets the player's id as its league, and the player stays in their league. | Player 7 in league 1 at 50 points wins an even game. Their row stays at league 1, 51 points. User 2's row becomes league 7 with score 0. | The player's own row moves to league + 1 with score 0. | high, not executed | Ladder.PromotionSwapAsWritten | Ladder.Settle |

The second finding is about the statement's parameter bindings. It shows only once
line 51 is fixed and once the missing spaces in the SQL text are fixed: the strings at
server/games/ladder_game.py:76-77 concatenate to `FROM {}WHERE`, and those at 92-93 to
`score = 0WHERE`. As written, the SELECT at line 76 fails before the promotion UPDATE is
reached. The rest of the model uses the intended behaviour: `SettleLadder`, `SeasonAfter`
and `Settle`.

## Left out

- Socket plumbing is not modelled: binding, non-blocking mode, reader registration, shutdown and close (server/natpacketserver.py:14-35). Line 23 passes `self._recv()` instead of the callback; that line is not modelled. The unused `_subscribers` dictionary (line 20) is also not modelled.
- What `recvfrom` and `sendto` do is an input. The would-block errno is 11, its Linux value.
- An empty datagram raises IndexError at `data[0]` (server/natpacketserver.py:41); the model raises it too.
- asyncio is not modelled: futures, the event loop, `asyncio.wait_for` timing, coroutines and `asyncio.async`. A timeout is the `deadlinePassed` input of `ResumeWait`. `wait_for`'s `timeout=None` (wait forever) is the case where that input is never true.
- Logging and the `with_logger` decorator are not modelled. The debug line at server/natpacketserver.py:42 decodes the payload before the notify. The model keeps that effect: an undecodable payload raises before anything is published.
- Handler lookup by `getattr` is replaced by each receiver's set of handled command ids. What a handler does is not modelled. That includes a handler that raises or re-enters the bus during `notify`.
- A message without an `arguments` key is not modelled. Such a message raises KeyError in `fire`. The model's `Message` always has arguments.
- Python's `==` on receivers and players is object identity here. `Player.__eq__` (server/players.py) is not part of this model.
- `Subscribable._emissions` is created empty and never used in the source. The model keeps it unchanged.
- All SQL is left out:
  - the season lookup in `getLeague`, which is the `LeagueRow` input;
  - the initial-row insert, which is recorded as the id appended to `seasonInserts`;
  - the score and league UPDATEs, which become the `Standing` season map;
  - the map draw counter, which becomes `DrawRecorded`;
  - the division lookup at server/games/ladder_game.py:96-102, where `player.division` is not modelled.
- `maxleague` and `evenLeague` (server/games/ladder_game.py:50-51) are inputs: `evenLeague` and the set of ids in the highest league. As written those lines raise (see Findings).
- `compute_rating`, `persist_rating_change_stats` and the `Game` base class are not modelled. The server/games/game.py base is not part of this model. A persisted rating is the recorded kind `"ladder1v1"`. Player options are a map written by `SetPlayerOption`. The game mode is an input.
- `getMatchQuality` is not modelled. It is a call into the trueskill library.
- `random.choice` over the ladder maps is the `pick` index. `createUuid` is the `uuid` input.
- The learning progress is an exact real. Float rounding and its `str()` formatting are not modelled. The notices' HTML texts are the constructors `WelcomeNotice` and `LearningNotice(progress)`.
- The connectivity prober is not modelled. server/connectivity.py is not part of this model.
- Ladder.LadderGame.IsWinner, Ladder.LadderGame.SeasonAfter, Ladder.LadderGame.SettleLadder: their requires exclude two error paths of the source. A player without an `Army` option is excluded because what `get_player_option` does then belongs to the `Game` base class, which is not part of this model. A player without a season row is also excluded; the unpack at server/games/ladder_game.py:80 would raise TypeError after the earlier players' rows were written. SettleLadder also requires every army, and every player's army, to have reports, so the KeyError that `IsDraw`, `IsWinner` and `GetArmyResult` model (lines 107 and 118) does not arise inside it.
- Ladder.LadderGame.SeasonAfter: its own contract states only that the ids are kept. What it does to each row is stated by `SeasonAfterRows` and `SeasonAfterSettlesEach`.
- Ladder.SettleRowAsWritten: its contract states only the rows it cannot touch. `PromotionSwapAsWritten` exhibits the misplaced write on a concrete season.
