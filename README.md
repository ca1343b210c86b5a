# Game registry model

A model, with proofs, of the game registry in `r69s_build_a_decentr.java`.

- A `Game` keeps its players in join order (the roster) and a leaderboard that maps a player id to a score.
- The integrator (`DecentralizedGamePrototypeIntegrator`) owns a map from game id to `Game`.
- It creates games, adds players to them and records scores.
- After each of those changes it makes one call to an injected observer (`DecentralizedGameNetwork`).
- It can also display a game's leaderboard.

The model has three modules:

- `GameModel` (`game_model.dfy`) is the registry as values: `Player`, `GameState`, `State` (games by id plus the log of notifications), and one function per operation.
  - Each function's contract says what the operation changes and what it leaves alone.
  - The lemmas concern repeated updates and whole sequences of calls (`Run`): consistency is kept, keys are never lost, and, whether or not some calls fail, the log keeps its old prefix and gains one notification per successful call, of the call's kind, in call order.
- `Registry` (`registry.dfy`) is the registry as the program keeps it.
  - Class `Game` updates `roster` and `leaderboard` in place.
  - Class `Integrator` holds `games: map<string, Game>` and the observer's log `log: seq<Event>`.
  - Every mutating method is proved to take the registry's value (`Abstract()`) to exactly what the matching `GameModel` function gives. So each function's properties carry over to the objects.
  - `Valid()` ties each stored object to its id and to the ghost `model`, and keeps every roster covered by its leaderboard.
- `Demo` (`demo.dfy`) replays the program's `main` script on the classes.
  - `DemoScript` proves the final leaderboards of both games, the first game's roster, and the full ordered list of eight notifications.

The observer's three callbacks become the three `Event` constructors. Each records the game's id and name (the callback gets the whole live `Game`; the model keeps its two immutable fields), plus the player, or the player id and score.

A Java `NullPointerException` would occur when `joinGame`, `updateScore` or `displayLeaderboard` is given an unknown id. The model returns `Failed(NotFound(id))` (or `Err(NotFound(id))`) instead, with the registry and the log unchanged. That is what happens in Java too: the dereference fails before any mutation or notification.

## Model

| member | source | states |
|---|---|---|
| GameModel.NewGame | r69s_build_a_decentr.java:21-26 | a new game carries the given id and name, with an empty roster and an empty leaderboard, so the roster is covered |
| GameModel.AddPlayer | r69s_build_a_decentr.java:28-31 | the roster grows by exactly the player, at the end, with the old roster as prefix. There is no duplicate check: the player's multiset count rises by one. The leaderboard gains or overwrites only the player's entry, with the player's score. Coverage is preserved |
| GameModel.SetScore | r69s_build_a_decentr.java:33-35 | the entry for the id is set to the score whether or not the id is on the roster. The key set becomes old keys plus the id. Roster and all other entries are unchanged. Coverage is preserved |
| GameModel.SetScoreIdempotent | r69s_build_a_decentr.java:33-35 | repeating the same score update leaves the game exactly as the first update left it |
| GameModel.Empty | r69s_build_a_decentr.java:52-55 | the registry starts with no games and an empty log |
| GameModel.CreateGame | r69s_build_a_decentr.java:57-61 | the id maps to a fresh empty game of that name, replacing any earlier one. Other games are unchanged. The keys gain the id. The log gains exactly one creation event |
| GameModel.JoinGame | r69s_build_a_decentr.java:63-67 | an unknown id gives NotFound and leaves the whole state as it was. A known id: only that game changes, as AddPlayer says; the key set is unchanged; one join event naming the game and the player is appended |
| GameModel.UpdateScore | r69s_build_a_decentr.java:69-73 | an unknown id gives NotFound and leaves the whole state as it was. A known id: only that game changes, as SetScore says; the key set is unchanged; one score event with the game, player id and score is appended |
| GameModel.UpdateScoreTwice | r69s_build_a_decentr.java:69-73 | issuing the same registry score update twice leaves every game as after the first, while the second still sends its own notification |
| GameModel.StepLog | r69s_build_a_decentr.java:57-73 | a call fails exactly when it is a join or update with an unknown id. A failed call changes nothing. A successful call appends exactly one event of its own kind after the old log. Only creation adds a key |
| GameModel.RunConsistent | r69s_build_a_decentr.java:24-35 | from a consistent state, every game stored under its own id with its roster covered by its leaderboard still holds after any sequence of calls |
| GameModel.RunKeys | r69s_build_a_decentr.java:57-73 | games are never removed: after any sequence of calls the ids are the initial ones plus those created |
| GameModel.TargetsStep | r69s_build_a_decentr.java:63-73 | the first call of a sequence whose joins and updates all name existing games succeeds, and the rest of the sequence still names existing games |
| GameModel.RunAllDone | r69s_build_a_decentr.java:63-73 | when every join and update names a game that exists at that point, every call of the sequence succeeds |
| GameModel.RunLogFollows | r69s_build_a_decentr.java:60-72 | under the same condition the log grows by exactly one event per call, each of its call's kind, in call order, after the old log |
| GameModel.RunLog | r69s_build_a_decentr.java:57-73 | for any sequence of calls, failing ones included, the log keeps its old contents as a prefix and what is appended lists, in order, the kind of each call whose outcome is Done and nothing else |
| Registry.Game.constructor | r69s_build_a_decentr.java:21-26 | the new object holds NewGame(id, name) and is valid |
| Registry.Game.AddPlayer | r69s_build_a_decentr.java:28-31 | the object's contents become AddPlayer of its old contents; validity is kept |
| Registry.Game.UpdateScore | r69s_build_a_decentr.java:33-35 | the object's contents become SetScore of its old contents; validity is kept |
| Registry.Game.GetLeaderboard | r69s_build_a_decentr.java:37-39 | returns the game's leaderboard, which for a valid game has an entry for every roster id |
| Registry.Integrator.ValidIsConsistent | r69s_build_a_decentr.java:50-73 | a valid integrator's value keeps each game under its own id with its roster covered |
| Registry.Integrator.constructor | r69s_build_a_decentr.java:52-55 | a new integrator owns no games, and its value is Empty() |
| Registry.Integrator.CreateGame | r69s_build_a_decentr.java:57-61 | the value becomes GameModel.CreateGame of the old value. The id now maps to a freshly allocated object, every other id keeps its object, and that object is the only one the registry gains. Validity is kept |
| Registry.Integrator.JoinGame | r69s_build_a_decentr.java:63-67 | value and outcome are GameModel.JoinGame of the old value. The map from id to object and the owned objects stay the same. Validity is kept |
| Registry.Integrator.UpdateScore | r69s_build_a_decentr.java:69-73 | value and outcome are GameModel.UpdateScore of the old value. The map from id to object and the owned objects stay the same. Validity is kept |
| Registry.Integrator.DisplayLeaderboard | r69s_build_a_decentr.java:75-82 | an unknown id gives NotFound. A known id gives the game's name and one line per leaderboard entry: every entry exactly once, with its score, in some order. It changes nothing and emits no event |
| Demo.DemoScript | r69s_build_a_decentr.java:86-106 | after the script, game1's leaderboard lists player1:10 and player2:20 and its roster is [Alice, Bob]. game2's lists player1:30. The log is the two creations, the three joins and the three score updates, in call order, with their data |

## Left out

- Console output: the text printed by `displayLeaderboard` (lines 78-81) and by all of `DecentralizedGameNetworkImpl` (lines 109-124). Notifications are abstract `Event` values in the integrator's `log`. `DisplayLeaderboard` returns the lines it would print as `(id, score)` pairs rather than printing them.
- The observer object itself (`network`, line 49): the integrator records the calls it would make, in order, in `log`.
- `HashMap` iteration order (line 79): it is unspecified. `DisplayLeaderboard` picks the next key arbitrarily, and its contract promises every entry exactly once in some order.
- Java reference aliasing: `getLeaderboard` returns the live map (line 38), and one `Player` object is shared by two games (lines 96, 98). No code writes through either reference and `Player` fields never change, so `Player` is an immutable datatype and the leaderboard is returned as a value.
- Registry.Integrator.CreateGame: it returns the created game object as a ghost result, which `createGame` does not do. The extra result only lets callers see which object the registry gained.
- Game objects replaced by a second `createGame` on the same id stay in the ghost `Repr` set of owned objects. Java would simply drop them; the model never uses them again.
- Concurrency, networking and "decentralisation": none exists in the code.
- Integer overflow: scores are stored and never computed, so `int` is used.
- The `Main` class wrapper and `DecentralizedGameNetworkImpl` (lines 85, 109-124) are not part of this model beyond the script itself.
- Leaderboard entries for players not on the roster are not excluded. `updateScore` (lines 33-35, 69-73) creates an entry for any id, and `GameModel.SetScore` states exactly that. So the invariant is only that roster ids are leaderboard keys, not that the two sets are equal.
- Null references: the model assumes players, ids and names are never null. In Java `joinGame` with a null player appends `null` to the roster (line 29) and then throws at `player.id` (line 30), leaving the roster grown with no leaderboard entry and no notification; the `Player` datatype cannot express that partial update.
- A misbehaving observer: the model assumes the observer neither throws, nor calls back into the registry, nor writes through the live `Game` reference each callback receives (lines 43-45), so an `Event` keeps only the game's id and name. In Java a null or throwing `network` (accepted by the constructor, line 52) would let `createGame` store the game at line 59 and then throw at line 60 with no notification recorded, and likewise for lines 66 and 72.
