/**
  The program's entry script, replayed on the registry classes: two games
  are created, three joins and three score updates follow, and both
  leaderboards are displayed. The constants below spell out the value the
  registry holds after each call, so that each step is checked on its own.
 */
module Demo {
  import opened GameModel
  import opened Registry

  const Alice := Player("player1", "Alice", 0)
  const Bob := Player("player2", "Bob", 0)
  const Name1 := "Decentralized Game"
  const Name2 := "Blockchain Battle"

  // The first game's contents after each call that touches it, then the second's.
  ghost const A0 := GameState("game1", Name1, [], map[])
  ghost const A1 := GameState("game1", Name1, [Alice], map["player1" := 0])
  ghost const A2 := GameState("game1", Name1, [Alice, Bob], map["player1" := 0, "player2" := 0])
  ghost const A3 := GameState("game1", Name1, [Alice, Bob], map["player1" := 10, "player2" := 0])
  ghost const A4 := GameState("game1", Name1, [Alice, Bob], map["player1" := 10, "player2" := 20])
  ghost const B0 := GameState("game2", Name2, [], map[])
  ghost const B1 := GameState("game2", Name2, [Alice], map["player1" := 0])
  ghost const B2 := GameState("game2", Name2, [Alice], map["player1" := 30])

  /** Every notification the script sends, in order. */
  const Log: seq<Event> := [
    GameCreated("game1", Name1), GameCreated("game2", Name2),
    PlayerJoined("game1", Name1, Alice), PlayerJoined("game1", Name1, Bob), PlayerJoined("game2", Name2, Alice),
    ScoreUpdated("game1", Name1, "player1", 10), ScoreUpdated("game1", Name1, "player2", 20),
    ScoreUpdated("game2", Name2, "player1", 30)]

  // The registry's value after the first, second, ... eighth call.
  ghost const S1 := State(map["game1" := A0], Log[..1])
  ghost const S2 := State(map["game1" := A0, "game2" := B0], Log[..2])
  ghost const S3 := State(map["game1" := A1, "game2" := B0], Log[..3])
  ghost const S4 := State(map["game1" := A2, "game2" := B0], Log[..4])
  ghost const S5 := State(map["game1" := A2, "game2" := B1], Log[..5])
  ghost const S6 := State(map["game1" := A3, "game2" := B1], Log[..6])
  ghost const S7 := State(map["game1" := A4, "game2" := B1], Log[..7])
  ghost const S8 := State(map["game1" := A4, "game2" := B2], Log)

  lemma Distinct()
    ensures "game1" != "game2" && "player1" != "player2"
  {
    assert "game1"[4] != "game2"[4];
    assert "player1"[6] != "player2"[6];
  }

  lemma LogPrefix(n: nat)
    requires 0 < n <= |Log|
    ensures Log[..n - 1] + [Log[n - 1]] == Log[..n]
  {}

  // Each call of the script takes the registry from one value above to the next.

  lemma Call1()
    ensures CreateGame(Empty(), "game1", Name1) == S1
  {
    LogPrefix(1);
  }

  lemma Call2()
    ensures CreateGame(S1, "game2", Name2) == S2
  {
    LogPrefix(2);
  }

  lemma Call3()
    ensures JoinGame(S2, "game1", Alice) == (S3, Done)
  {
    Distinct();
    LogPrefix(3);
    assert S2.games["game1" := A1] == S3.games;
  }

  lemma Call4()
    ensures JoinGame(S3, "game1", Bob) == (S4, Done)
  {
    Distinct();
    LogPrefix(4);
    assert AddPlayer(A1, Bob).roster == A2.roster;
    assert S3.games["game1" := A2] == S4.games;
  }

  lemma Call5()
    ensures JoinGame(S4, "game2", Alice) == (S5, Done)
  {
    Distinct();
    LogPrefix(5);
    assert S4.games["game2" := B1] == S5.games;
  }

  lemma Call6()
    ensures UpdateScore(S5, "game1", "player1", 10) == (S6, Done)
  {
    Distinct();
    LogPrefix(6);
    assert SetScore(A2, "player1", 10) == A3;
    assert S5.games["game1" := A3] == S6.games;
  }

  lemma Call7()
    ensures UpdateScore(S6, "game1", "player2", 20) == (S7, Done)
  {
    Distinct();
    LogPrefix(7);
    assert SetScore(A3, "player2", 20) == A4;
    assert S6.games["game1" := A4] == S7.games;
  }

  lemma Call8()
    ensures UpdateScore(S7, "game2", "player1", 30) == (S8, Done)
  {
    Distinct();
    LogPrefix(8);
    assert SetScore(B1, "player1", 30).leaderboard == B2.leaderboard;
    assert S7.games["game2" := B2] == S8.games;
    assert Log[..8] == Log;
  }

  lemma FinalGames()
    ensures S8.games.Keys == {"game1", "game2"}
    ensures S8.games["game1"] == A4 && S8.games["game2"] == B2
  {
    Distinct();
  }

  /** The script's first call: the first game is created in a fresh registry. */
  method CreateFirst() returns (integrator: Integrator)
    ensures fresh(integrator) && fresh(integrator.Repr)
    ensures integrator.Valid() && integrator.Abstract() == S1
  {
    integrator := new Integrator();
    ghost var game1 := integrator.CreateGame("game1", "Decentralized Game");
    Call1();
  }

  /** The script's first two calls: both games are created. */
  method CreateBoth() returns (integrator: Integrator)
    ensures fresh(integrator) && fresh(integrator.Repr)
    ensures integrator.Valid() && integrator.Abstract() == S2
  {
    integrator := CreateFirst();
    ghost var first := integrator.Repr;
    ghost var game2 := integrator.CreateGame("game2", "Blockchain Battle");
    assert fresh(game2) && integrator.Repr == first + {game2};
    Call2();
  }

  /** The script's three joins. */
  method JoinAll(integrator: Integrator)
    requires integrator.Valid() && integrator.Abstract() == S2
    modifies integrator, integrator.Repr
    ensures integrator.Valid() && integrator.Repr == old(integrator.Repr)
    ensures integrator.Abstract() == S5
  {
    var player1 := Player("player1", "Alice", 0);
    var player2 := Player("player2", "Bob", 0);
    var o := integrator.JoinGame("game1", player1);
    Call3();
    o := integrator.JoinGame("game1", player2);
    Call4();
    o := integrator.JoinGame("game2", player1);
    Call5();
  }

  /** The script's three score updates. */
  method UpdateAll(integrator: Integrator)
    requires integrator.Valid() && integrator.Abstract() == S5
    modifies integrator, integrator.Repr
    ensures integrator.Valid() && integrator.Repr == old(integrator.Repr)
    ensures integrator.Abstract() == S8
  {
    var o := integrator.UpdateScore("game1", "player1", 10);
    Call6();
    o := integrator.UpdateScore("game1", "player2", 20);
    Call7();
    o := integrator.UpdateScore("game2", "player1", 30);
    Call8();
  }

  /**
    The demonstration script: two games, three joins, three score updates,
    then both leaderboards are displayed.
   */
  method DemoScript() returns (report1: Result<Report>, roster1: seq<Player>, report2: Result<Report>, events: seq<Event>)
    ensures report1.Ok? && report1.value.gameName == "Decentralized Game"
    ensures ListsExactly(report1.value.lines, map["player1" := 10, "player2" := 20])
    ensures roster1 == [Player("player1", "Alice", 0), Player("player2", "Bob", 0)]
    ensures report2.Ok? && report2.value.gameName == "Blockchain Battle"
    ensures ListsExactly(report2.value.lines, map["player1" := 30])
    ensures events == [
      GameCreated("game1", "Decentralized Game"),
      GameCreated("game2", "Blockchain Battle"),
      PlayerJoined("game1", "Decentralized Game", Player("player1", "Alice", 0)),
      PlayerJoined("game1", "Decentralized Game", Player("player2", "Bob", 0)),
      PlayerJoined("game2", "Blockchain Battle", Player("player1", "Alice", 0)),
      ScoreUpdated("game1", "Decentralized Game", "player1", 10),
      ScoreUpdated("game1", "Decentralized Game", "player2", 20),
      ScoreUpdated("game2", "Blockchain Battle", "player1", 30)]
  {
    var integrator := CreateBoth();
    JoinAll(integrator);
    UpdateAll(integrator);
    FinalGames();

    roster1 := integrator.games["game1"].roster;
    report1 := integrator.DisplayLeaderboard("game1");
    report2 := integrator.DisplayLeaderboard("game2");
    events := integrator.log;
  }
}
