/**
  The registry as the program keeps it: game objects whose roster and
  leaderboard are updated in place, and an integrator that owns the map from
  game id to game and hands one notification to its observer per mutating
  call. Each method is proved to do what the matching function of GameModel
  says, on the state that Contents() and Abstract() read off the objects.
 */
module Registry {
  import opened GameModel

  class Game {
    const id: string
    const name: string
    var roster: seq<Player>
    var leaderboard: map<string, int>

    /** The value this object currently holds. */
    function Contents(): GameState
      reads this
    {
      GameState(id, name, roster, leaderboard)
    }

    /** Every player on the roster has a leaderboard entry. */
    ghost predicate Valid()
      reads this
    {
      RosterCovered(Contents())
    }

    constructor (id: string, name: string)
      ensures Valid()
      ensures Contents() == NewGame(id, name)
    {
      this.id := id;
      this.name := name;
      roster := [];
      leaderboard := map[];
    }

    method AddPlayer(player: Player)
      modifies this
      ensures Contents() == GameModel.AddPlayer(old(Contents()), player)
      ensures old(Valid()) ==> Valid()
    {
      roster := roster + [player];
      leaderboard := leaderboard[player.id := player.score];
    }

    method UpdateScore(playerId: string, score: int)
      modifies this
      ensures Contents() == SetScore(old(Contents()), playerId, score)
      ensures old(Valid()) ==> Valid()
    {
      leaderboard := leaderboard[playerId := score];
    }

    /** The current leaderboard, which holds an entry for everyone on the roster. */
    method GetLeaderboard() returns (board: map<string, int>)
      ensures board == leaderboard
      // Only re-exports the invariant in terms of the result, for callers.
      ensures Valid() ==> forall i :: 0 <= i < |roster| ==> roster[i].id in board
    {
      board := leaderboard;
    }
  }

  /** What displaying a leaderboard shows: the game's name and one line per entry. */
  datatype Report = Report(gameName: string, lines: seq<(string, int)>)

  /** The lines show each entry of the board exactly once, in some order. */
  ghost predicate ListsExactly(lines: seq<(string, int)>, board: map<string, int>)
  {
    && (forall i :: 0 <= i < |lines| ==> lines[i].0 in board && board[lines[i].0] == lines[i].1)
    && (forall k :: k in board ==> exists i :: 0 <= i < |lines| && lines[i].0 == k)
    && (forall i, j :: 0 <= i < j < |lines| ==> lines[i].0 != lines[j].0)
  }

  class Integrator {
    var games: map<string, Game>
    /** The notifications handed to the observer, oldest first. */
    var log: seq<Event>
    /** The game objects this registry has allocated. */
    ghost var Repr: set<Game>
    /** The contents of each stored game, by id. */
    ghost var model: map<string, GameState>

    /** The registry's value: each game's contents, and the log. */
    ghost function Abstract(): State
      reads this
    {
      State(model, log)
    }

    /**
      Each id holds its own game object, which carries that id, holds what
      the model records, and keeps its roster covered.
     */
    ghost predicate Valid()
      reads this, Repr
    {
      && games.Keys == model.Keys
      && (forall k :: k in games ==> Filed(k))
    }

    /** The object stored under k is owned, carries k as its id, and holds what the model records. */
    ghost predicate Filed(k: string)
      requires k in games && k in model
      reads this, Repr
    {
      games[k] in Repr && games[k].id == k && games[k].Contents() == model[k] && games[k].Valid()
    }

    /** A valid registry holds a consistent value. */
    lemma ValidIsConsistent()
      requires Valid()
      ensures Consistent(Abstract())
    {
    }

    constructor ()
      ensures Valid() && Repr == {}
      ensures Abstract() == Empty()
    {
      games := map[];
      log := [];
      Repr := {};
      model := map[];
    }

    /**
      Allocates a fresh game under the id, replacing whatever was stored
      there, and notifies the observer. The new object is returned as a
      ghost so that callers can follow what the registry owns.
     */
    method CreateGame(gameId: string, gameName: string) returns (ghost game: Game)
      requires Valid()
      modifies this
      ensures Valid() && fresh(game) && Repr == old(Repr) + {game}
      ensures games == old(games)[gameId := game]
      ensures Abstract() == GameModel.CreateGame(old(Abstract()), gameId, gameName)
    {
      var created := new Game(gameId, gameName);
      Store(created);
      game := created;
    }

    /** Files a game object that nobody else holds under its own id. */
    method Store(game: Game)
      requires Valid() && game !in Repr && game.Valid()
      modifies this
      ensures Valid() && games == old(games)[game.id := game] && Repr == old(Repr) + {game}
      ensures Abstract() == State(old(model)[game.id := game.Contents()], old(log) + [GameCreated(game.id, game.name)])
    {
      games, Repr, model, log := games[game.id := game], Repr + {game}, model[game.id := game.Contents()], log + [GameCreated(game.id, game.name)];
    }

    /**
      Adds the player to the stored game and notifies the observer. An
      unknown id fails before anything changes.
     */
    method JoinGame(gameId: string, player: Player) returns (r: Outcome)
      requires Valid()
      modifies this, Repr
      ensures Valid() && Repr == old(Repr)
      ensures games == old(games)
      ensures (Abstract(), r) == GameModel.JoinGame(old(Abstract()), gameId, player)
    {
      if gameId !in games {
        return Failed(NotFound(gameId));
      }
      var game := games[gameId];
      game.AddPlayer(player);
      model, log, r := model[gameId := game.Contents()], log + [PlayerJoined(gameId, game.name, player)], Done;
    }

    /**
      Writes the score into the stored game's leaderboard and notifies the
      observer. An unknown id fails before anything changes.
     */
    method UpdateScore(gameId: string, playerId: string, score: int) returns (r: Outcome)
      requires Valid()
      modifies this, Repr
      ensures Valid() && Repr == old(Repr)
      ensures games == old(games)
      ensures (Abstract(), r) == GameModel.UpdateScore(old(Abstract()), gameId, playerId, score)
    {
      if gameId !in games {
        return Failed(NotFound(gameId));
      }
      var game := games[gameId];
      game.UpdateScore(playerId, score);
      model, log, r := model[gameId := game.Contents()], log + [ScoreUpdated(gameId, game.name, playerId, score)], Done;
    }

    /**
      Reads the game's leaderboard and walks its entries in no particular
      order, producing the lines a display shows. Changes nothing and
      notifies nobody.
     */
    method DisplayLeaderboard(gameId: string) returns (r: Result<Report>)
      ensures gameId !in games ==> r == Err(NotFound(gameId))
      ensures gameId in games ==>
        && r.Ok?
        && r.value.gameName == games[gameId].name
        && ListsExactly(r.value.lines, games[gameId].leaderboard)
    {
      if gameId !in games {
        return Err(NotFound(gameId));
      }
      var game := games[gameId];
      var board := game.GetLeaderboard();
      var lines: seq<(string, int)> := [];
      var rest := board.Keys;
      while rest != {}
        invariant rest <= board.Keys
        invariant forall i :: 0 <= i < |lines| ==> lines[i].0 in board && lines[i].0 !in rest && board[lines[i].0] == lines[i].1
        invariant forall k :: k in board && k !in rest ==> exists i :: 0 <= i < |lines| && lines[i].0 == k
        invariant forall i, j :: 0 <= i < j < |lines| ==> lines[i].0 != lines[j].0
        decreases rest
      {
        var k :| k in rest;
        ghost var prev := lines;
        lines := lines + [(k, board[k])];
        rest := rest - {k};
        assert forall i :: 0 <= i < |prev| ==> lines[i] == prev[i];
        assert lines[|prev|].0 == k;
      }
      r := Ok(Report(game.name, lines));
    }
  }
}
