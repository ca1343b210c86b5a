/**
  Value-level meaning of the game registry: players, games, the registry
  with the log of notifications sent to its observer, and the effect of
  each operation on them. The classes in module Registry are proved to
  follow these functions; the lemmas here are about sequences of calls.
 */
module GameModel {

  /** A player as the caller builds it; never changed after construction. */
  datatype Player = Player(id: string, name: string, score: int)

  /** One notification to the observer, with the data each callback receives. */
  datatype Event =
    | GameCreated(gameId: string, gameName: string)
    | PlayerJoined(gameId: string, gameName: string, player: Player)
    | ScoreUpdated(gameId: string, gameName: string, playerId: string, score: int)

  datatype Error = NotFound(gameId: string)

  /** What a mutating call reports: it happened, or the game id was unknown. */
  datatype Outcome = Done | Failed(error: Error)

  datatype Result<T> = Ok(value: T) | Err(error: Error)

  /** The contents of one game: roster in join order, leaderboard by player id. */
  datatype GameState = GameState(id: string, name: string, roster: seq<Player>, leaderboard: map<string, int>)

  /** The registry's games by id, and every notification sent so far, oldest first. */
  datatype State = State(games: map<string, GameState>, log: seq<Event>)

  /** Every player on the roster has a leaderboard entry. */
  predicate RosterCovered(g: GameState)
  {
    forall i :: 0 <= i < |g.roster| ==> g.roster[i].id in g.leaderboard
  }

  /** Each game is stored under its own id and keeps its roster covered. */
  predicate Consistent(st: State)
  {
    forall k :: k in st.games ==> st.games[k].id == k && RosterCovered(st.games[k])
  }

  // ---------------------------------------------------------------------
  // One game

  function NewGame(id: string, name: string): (g: GameState)
    ensures g.id == id && g.name == name
    ensures |g.roster| == 0 && |g.leaderboard| == 0
    ensures RosterCovered(g)
  {
    GameState(id, name, [], map[])
  }

  /** Appending keeps the old sequence as a prefix and raises the appended element's count by one. */
  lemma AppendFacts(s: seq<Player>, p: Player)
    ensures (s + [p])[..|s|] == s
    ensures multiset(s + [p])[p] == multiset(s)[p] + 1
  {
    assert (s + [p])[..|s|] == s;
    assert multiset(s + [p]) == multiset(s) + multiset{p};
  }

  /** Appending a player and writing its entry keeps the roster covered. */
  lemma AppendCovered(g: GameState, p: Player)
    ensures RosterCovered(g) ==> RosterCovered(GameState(g.id, g.name, g.roster + [p], g.leaderboard[p.id := p.score]))
  {
  }

  /** Joining appends to the roster (no duplicate check) and overwrites the player's entry. */
  function AddPlayer(g: GameState, p: Player): (r: GameState)
    ensures r.id == g.id && r.name == g.name
    ensures |r.roster| == |g.roster| + 1 && r.roster[..|g.roster|] == g.roster && r.roster[|g.roster|] == p
    ensures multiset(r.roster)[p] == multiset(g.roster)[p] + 1
    ensures r.leaderboard.Keys == g.leaderboard.Keys + {p.id}
    ensures r.leaderboard[p.id] == p.score
    ensures forall k :: k in g.leaderboard && k != p.id ==> r.leaderboard[k] == g.leaderboard[k]
    ensures RosterCovered(g) ==> RosterCovered(r)
  {
    AppendFacts(g.roster, p);
    AppendCovered(g, p);
    GameState(g.id, g.name, g.roster + [p], g.leaderboard[p.id := p.score])
  }

  /** A score update writes the entry whether or not the player is on the roster. */
  function SetScore(g: GameState, playerId: string, score: int): (r: GameState)
    ensures r.id == g.id && r.name == g.name && r.roster == g.roster
    ensures r.leaderboard.Keys == g.leaderboard.Keys + {playerId}
    ensures r.leaderboard[playerId] == score
    ensures forall k :: k in g.leaderboard && k != playerId ==> r.leaderboard[k] == g.leaderboard[k]
    ensures RosterCovered(g) ==> RosterCovered(r)
  {
    GameState(g.id, g.name, g.roster, g.leaderboard[playerId := score])
  }

  /** Repeating a score update leaves the game as the first update left it. */
  lemma SetScoreIdempotent(g: GameState, playerId: string, score: int)
    ensures SetScore(SetScore(g, playerId, score), playerId, score) == SetScore(g, playerId, score)
  {
    var once := SetScore(g, playerId, score);
    assert once.leaderboard[playerId := score] == once.leaderboard;
  }

  // ---------------------------------------------------------------------
  // The registry

  function Empty(): (st: State)
    ensures |st.games| == 0 && |st.log| == 0
    ensures Consistent(st)
  {
    State(map[], [])
  }

  /** Creation always succeeds and replaces any game already stored under the id. */
  function CreateGame(st: State, gameId: string, gameName: string): (r: State)
    ensures r.games.Keys == st.games.Keys + {gameId}
    ensures r.games[gameId].id == gameId && r.games[gameId].name == gameName
    ensures r.games[gameId].roster == [] && r.games[gameId].leaderboard == map[]
    ensures forall k :: k in st.games && k != gameId ==> r.games[k] == st.games[k]
    ensures r.log == st.log + [GameCreated(gameId, gameName)]
    ensures Consistent(st) ==> Consistent(r)
  {
    State(st.games[gameId := NewGame(gameId, gameName)], st.log + [GameCreated(gameId, gameName)])
  }

  function JoinGame(st: State, gameId: string, p: Player): (r: (State, Outcome))
    ensures gameId !in st.games ==> r == (st, Failed(NotFound(gameId)))
    ensures gameId in st.games ==>
      && r.1 == Done
      && r.0.games.Keys == st.games.Keys
      && r.0.games[gameId] == AddPlayer(st.games[gameId], p)
      && r.0.log == st.log + [PlayerJoined(gameId, st.games[gameId].name, p)]
    ensures forall k :: k in st.games && k != gameId ==> r.0.games[k] == st.games[k]
    ensures Consistent(st) ==> Consistent(r.0)
  {
    if gameId !in st.games then
      (st, Failed(NotFound(gameId)))
    else
      var g := st.games[gameId];
      (State(st.games[gameId := AddPlayer(g, p)], st.log + [PlayerJoined(gameId, g.name, p)]), Done)
  }

  function UpdateScore(st: State, gameId: string, playerId: string, score: int): (r: (State, Outcome))
    ensures gameId !in st.games ==> r == (st, Failed(NotFound(gameId)))
    ensures gameId in st.games ==>
      && r.1 == Done
      && r.0.games.Keys == st.games.Keys
      && r.0.games[gameId] == SetScore(st.games[gameId], playerId, score)
      && r.0.log == st.log + [ScoreUpdated(gameId, st.games[gameId].name, playerId, score)]
    ensures forall k :: k in st.games && k != gameId ==> r.0.games[k] == st.games[k]
    ensures Consistent(st) ==> Consistent(r.0)
  {
    if gameId !in st.games then
      (st, Failed(NotFound(gameId)))
    else
      var g := st.games[gameId];
      (State(st.games[gameId := SetScore(g, playerId, score)], st.log + [ScoreUpdated(gameId, g.name, playerId, score)]), Done)
  }

  /** The second of two equal score updates changes no game and still sends its notification. */
  lemma UpdateScoreTwice(st: State, gameId: string, playerId: string, score: int)
    requires gameId in st.games
    ensures var once := UpdateScore(st, gameId, playerId, score).0;
            var twice := UpdateScore(once, gameId, playerId, score).0;
            twice.games == once.games && twice.log == once.log + [once.log[|once.log| - 1]]
  {
    var once := UpdateScore(st, gameId, playerId, score).0;
    SetScoreIdempotent(st.games[gameId], playerId, score);
    assert once.games[gameId := SetScore(once.games[gameId], playerId, score)] == once.games;
  }

  // ---------------------------------------------------------------------
  // Sequences of calls, as a driver such as the demo script issues them

  datatype Call =
    | Create(gameId: string, gameName: string)
    | Join(gameId: string, player: Player)
    | Update(gameId: string, playerId: string, score: int)

  datatype Kind = Creation | Joining | Scoring

  function CallKind(c: Call): Kind
  {
    match c
    case Create(_, _) => Creation
    case Join(_, _) => Joining
    case Update(_, _, _) => Scoring
  }

  function EventKind(e: Event): Kind
  {
    match e
    case GameCreated(_, _) => Creation
    case PlayerJoined(_, _, _) => Joining
    case ScoreUpdated(_, _, _, _) => Scoring
  }

  function Step(st: State, c: Call): (State, Outcome)
  {
    match c
    case Create(g, n) => (CreateGame(st, g, n), Done)
    case Join(g, p) => JoinGame(st, g, p)
    case Update(g, pid, s) => UpdateScore(st, g, pid, s)
  }

  /** Issues the calls in order; returns the final state and each call's outcome. */
  function Run(st: State, calls: seq<Call>): (State, seq<Outcome>)
    decreases |calls|
  {
    if calls == [] then (st, [])
    else
      var (next, o) := Step(st, calls[0]);
      var (last, os) := Run(next, calls[1..]);
      (last, [o] + os)
  }

  /** The ids that Create calls in the sequence introduce. */
  function CreatedIds(calls: seq<Call>): set<string>
    decreases |calls|
  {
    if calls == [] then {}
    else (if calls[0].Create? then {calls[0].gameId} else {}) + CreatedIds(calls[1..])
  }

  /** Every Join and Update names a game that exists when it is issued. */
  predicate TargetsExist(ids: set<string>, calls: seq<Call>)
    decreases |calls|
  {
    calls == [] ||
    (match calls[0]
     case Create(g, _) => TargetsExist(ids + {g}, calls[1..])
     case Join(g, _) => g in ids && TargetsExist(ids, calls[1..])
     case Update(g, _, _) => g in ids && TargetsExist(ids, calls[1..]))
  }

  /** Consistency holds after any sequence of calls. */
  lemma {:induction false} RunConsistent(st: State, calls: seq<Call>)
    requires Consistent(st)
    ensures Consistent(Run(st, calls).0)
    decreases |calls|
  {
    if calls != [] {
      RunConsistent(Step(st, calls[0]).0, calls[1..]);
    }
  }

  /** Games are never removed: the registry ends with the ids it had plus those created. */
  lemma {:induction false} RunKeys(st: State, calls: seq<Call>)
    ensures Run(st, calls).0.games.Keys == st.games.Keys + CreatedIds(calls)
    decreases |calls|
  {
    if calls != [] {
      var next := Step(st, calls[0]).0;
      RunKeys(next, calls[1..]);
      StepLog(st, calls[0]);
    }
  }

  /**
    A call that fails changes nothing; one that succeeds sends exactly one
    notification of its kind. Only a creation adds a key.
   */
  lemma StepLog(st: State, c: Call)
    ensures Step(st, c).1.Failed? ==> Step(st, c).0 == st
    ensures Step(st, c).1 == Done ==>
      |Step(st, c).0.log| == |st.log| + 1 && Step(st, c).0.log[..|st.log|] == st.log &&
      EventKind(Step(st, c).0.log[|st.log|]) == CallKind(c)
    ensures Step(st, c).1 == Done <==> (c.Create? || c.gameId in st.games)
    ensures Step(st, c).0.games.Keys == st.games.Keys + (if c.Create? then {c.gameId} else {})
  {
    var next := Step(st, c).0;
    if Step(st, c).1 == Done {
      assert next.log[..|st.log|] == st.log;
    }
  }

  /** Each call left one notification of its own kind, in call order, after the earlier log. */
  predicate LogFollows(before: seq<Event>, after: seq<Event>, calls: seq<Call>)
  {
    && |after| == |before| + |calls|
    && after[..|before|] == before
    && forall i :: 0 <= i < |calls| ==> EventKind(after[|before| + i]) == CallKind(calls[i])
  }

  lemma LogFollowsConcat(a: seq<Event>, b: seq<Event>, d: seq<Event>, calls: seq<Call>)
    requires calls != []
    requires LogFollows(a, b, calls[..1]) && LogFollows(b, d, calls[1..])
    ensures LogFollows(a, d, calls)
  {
    assert d[..|a|] == b[..|b|][..|a|];
    forall i | 0 <= i < |calls|
      ensures EventKind(d[|a| + i]) == CallKind(calls[i])
    {
      if i == 0 {
        assert d[|a|] == d[..|b|][|a|];
      } else {
        assert calls[i] == calls[1..][i - 1];
        assert |a| + i == |b| + (i - 1);
      }
    }
  }

  /** Running a non-empty sequence is one step followed by the run of the rest. */
  lemma RunCons(st: State, calls: seq<Call>)
    requires calls != []
    ensures Run(st, calls).0 == Run(Step(st, calls[0]).0, calls[1..]).0
    ensures Run(st, calls).1 == [Step(st, calls[0]).1] + Run(Step(st, calls[0]).0, calls[1..]).1
  {
  }

  /** The first call of a sequence whose targets exist succeeds, and the rest still has its targets. */
  lemma TargetsStep(st: State, calls: seq<Call>)
    requires calls != [] && TargetsExist(st.games.Keys, calls)
    ensures Step(st, calls[0]).1 == Done
    ensures TargetsExist(Step(st, calls[0]).0.games.Keys, calls[1..])
  {
    StepLog(st, calls[0]);
  }

  /** When every call names an existing game, every call succeeds. */
  lemma {:induction false} RunAllDone(st: State, calls: seq<Call>)
    requires TargetsExist(st.games.Keys, calls)
    ensures |Run(st, calls).1| == |calls|
    ensures forall i :: 0 <= i < |calls| ==> Run(st, calls).1[i] == Done
    decreases |calls|
  {
    if calls != [] {
      var next := Step(st, calls[0]).0;
      TargetsStep(st, calls);
      RunAllDone(next, calls[1..]);
      RunCons(st, calls);
    }
  }

  /**
    When every call names an existing game, the log grows by one
    notification per call, of the call's kind, in call order.
   */
  lemma {:induction false} RunLogFollows(st: State, calls: seq<Call>)
    requires TargetsExist(st.games.Keys, calls)
    ensures LogFollows(st.log, Run(st, calls).0.log, calls)
    decreases |calls|
  {
    if calls == [] {
      assert st.log[..|st.log|] == st.log;
    } else {
      var next := Step(st, calls[0]).0;
      TargetsStep(st, calls);
      RunLogFollows(next, calls[1..]);
      RunCons(st, calls);
      StepLog(st, calls[0]);
      assert calls[..1] == [calls[0]];
      LogFollowsConcat(st.log, next.log, Run(next, calls[1..]).0.log, calls);
    }
  }

  /** The kinds of a sequence of notifications, in order. */
  function Kinds(events: seq<Event>): (ks: seq<Kind>)
    ensures |ks| == |events|
    decreases |events|
  {
    if events == [] then [] else [EventKind(events[0])] + Kinds(events[1..])
  }

  /** The kinds of the calls whose outcome is Done, in call order. */
  function DoneKinds(calls: seq<Call>, outs: seq<Outcome>): (ks: seq<Kind>)
    requires |outs| == |calls|
    ensures |ks| <= |calls|
    decreases |calls|
  {
    if calls == [] then []
    else (if outs[0] == Done then [CallKind(calls[0])] else []) + DoneKinds(calls[1..], outs[1..])
  }

  /**
    For any sequence of calls, failing ones included, the old log is kept
    as a prefix and what is appended is one notification per successful
    call, of that call's kind, in call order.
   */
  lemma {:induction false} RunLog(st: State, calls: seq<Call>)
    ensures |Run(st, calls).1| == |calls|
    ensures |st.log| <= |Run(st, calls).0.log| && Run(st, calls).0.log[..|st.log|] == st.log
    ensures Kinds(Run(st, calls).0.log[|st.log|..]) == DoneKinds(calls, Run(st, calls).1)
    decreases |calls|
  {
    if calls == [] {
      assert st.log[..|st.log|] == st.log;
      assert st.log[|st.log|..] == [];
    } else {
      var next := Step(st, calls[0]).0;
      var o := Step(st, calls[0]).1;
      StepLog(st, calls[0]);
      RunLog(next, calls[1..]);
      RunCons(st, calls);
      var last := Run(st, calls).0.log;
      var outs := Run(st, calls).1;
      assert outs[1..] == Run(next, calls[1..]).1;
      assert last[..|next.log|] == next.log;
      if o == Done {
        assert last[..|st.log|] == next.log[..|st.log|];
        assert last[|st.log|] == next.log[|st.log|];
        assert last[|st.log|..][1..] == last[|next.log|..];
      } else {
        assert next == st;
      }
    }
  }
}
