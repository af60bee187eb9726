/** Two complete runs of the service, for any players it knows, in which overlapping calls do harm. In both, the
    calls of any one player come one after the other, and each call does its store calls before its notices. */
module Scenarios {
  import opened Base
  import opened Boards
  import opened Matches
  import opened Histories
  import opened MatchStores
  import opened PlayerStores
  import opened Recording
  import opened LiveGames
  import opened Matchmakers
  import opened Services
  import opened Persistence
  import opened Effects
  import opened Books

  // ----- runs in pieces -----

  lemma RunUnfolds(s: Service, acts: seq<Action>, a: Action)
    ensures Run(s, acts + [a]) == Next(Run(s, acts), a)
  {
    assert (acts + [a])[..|acts|] == acts;
  }

  lemma {:induction false} RunAppends(s: Service, acts: seq<Action>, more: seq<Action>)
    ensures Run(s, acts + more) == Run(Run(s, acts), more)
  {
    hide Next;
    if more == [] {
      assert acts + more == acts;
    } else {
      var n := |more| - 1;
      RunAppends(s, acts, more[..n]);
      RunUnfolds(s, acts + more[..n], more[n]);
      assert acts + more == acts + more[..n] + [more[n]];
    }
  }

  lemma RunTwo(s: Service, a: Action, b: Action)
    ensures Run(s, [a, b]) == Next(Next(s, a), b)
  {
    hide Next;
    RunUnfolds(s, [], a);
    RunUnfolds(s, [a], b);
    assert [] + [a] == [a] && [a] + [b] == [a, b];
  }

  lemma RunFour(s: Service, a: Action, b: Action, c: Action, d: Action)
    ensures Run(s, [a, b, c, d]) == Next(Next(Next(Next(s, a), b), c), d)
  {
    hide Next;
    RunTwo(s, a, b);
    RunAppends(s, [a, b], [c, d]);
    RunTwo(Run(s, [a, b]), c, d);
    assert [a, b] + [c, d] == [a, b, c, d];
  }

  lemma RunFive(s: Service, a: Action, b: Action, c: Action, d: Action, e: Action)
    ensures Run(s, [a, b, c, d, e]) == Next(Next(Next(Next(Next(s, a), b), c), d), e)
  {
    hide Next;
    RunFour(s, a, b, c, d);
    RunUnfolds(s, [a, b, c, d], e);
    assert [a, b, c, d] + [e] == [a, b, c, d, e];
  }

  // ----- two players meet -----

  /** Nobody waits, no join is half done, and every save has been made. */
  ghost predicate Calm(s: Service) {
    Consistent(s) && s.lobby.queue == [] && s.lobby.checked == multiset{} && s.lobby.popped == [] && s.saves == []
  }

  ghost predicate CanMeet(s: Service, p: PlayerID, q: PlayerID, id: MatchID) {
    && Calm(s) && p != q && {p, q} <= s.ledger.store.byID.Keys
    && p !in s.lobby.games.byPlayer && q !in s.lobby.games.byPlayer && id !in s.history && id !in s.rows
  }

  function Meeting(p: PlayerID, q: PlayerID, id: MatchID): seq<Action> {
    [JoinCheck(p), JoinQueue(p), JoinCheck(q), JoinQueue(q), StartPopped(0, id, true, true)]
  }

  lemma TwoJoins(l: Lobby, p: PlayerID, q: PlayerID)
    requires Orderly(l) && l.queue == [] && l.checked == multiset{} && l.popped == []
    requires p != q && p !in l.games.byPlayer && q !in l.games.byPlayer
    ensures var l' := LobbyStep(LobbyStep(LobbyStep(LobbyStep(l, Check(p)), Queue(p)), Check(q)), Queue(q));
            l' == l.(log := l.log + [Joined(p)] + [Joined(q)], popped := [Pair(p, q)], pairs := l.pairs + [Pair(p, q)])
  {
    hide Mirror, InPlay;
    VisitAlone(l, p);
    StepKeepsOrder(l, Check(p));
    StepKeepsOrder(LobbyStep(l, Check(p)), Queue(p));
    VisitAlone(l.(queue := [p], log := l.log + [Joined(p)]), q);
  }

  lemma QueueActions(s: Service, p: PlayerID, q: PlayerID)
    ensures Next(Next(Next(Next(s, JoinCheck(p)), JoinQueue(p)), JoinCheck(q)), JoinQueue(q)) ==
            s.(lobby := LobbyStep(LobbyStep(LobbyStep(LobbyStep(s.lobby, Check(p)), Queue(p)), Check(q)), Queue(q)))
  {
    hide LobbyStep;
  }

  lemma PairStartsPlaying(s: Service, p: PlayerID, q: PlayerID, id: MatchID)
    requires s.lobby.popped == [Pair(p, q)] && p != q && {p, q} <= s.ledger.store.byID.Keys
    requires p !in s.lobby.games.byPlayer && q !in s.lobby.games.byPlayer && id !in s.history && id !in s.rows
    ensures var s' := Next(s, StartPopped(0, id, true, true));
            && s'.history == s.history[id := Begun(p, q)] && s'.rows.Keys == s.rows.Keys + {id}
            && s'.saves == s.saves && s'.ledger == s.ledger && s'.notices == s.notices
            && s'.lobby == s.lobby.(popped := [], games := s'.lobby.games)
            && s'.lobby.games.byPlayer == s.lobby.games.byPlayer[p := id][q := id]
  {
    hide StartPair, LobbyStep, RowOf, NoticesOf;
    StartAlone(s.lobby, id, NamesOf(s.ledger.store));
    PairStarts(s.lobby, id, NamesOf(s.ledger.store));
    StartedPairDiffers(s.lobby, 0, id, NamesOf(s.ledger.store));
  }

  lemma {:induction false} RunKeepsConsistent(s: Service, acts: seq<Action>)
    requires Consistent(s)
    ensures Consistent(Run(s, acts))
  {
    hide Next, Consistent;
    if acts != [] {
      RunKeepsConsistent(s, acts[..|acts| - 1]);
      StepKeepsConsistent(Run(s, acts[..|acts| - 1]), acts[|acts| - 1]);
    }
  }

  lemma Meet(s: Service, p: PlayerID, q: PlayerID, id: MatchID)
    requires CanMeet(s, p, q, id)
    ensures var s' := Run(s, Meeting(p, q, id));
            && Calm(s') && s'.history == s.history[id := Begun(p, q)] && s'.rows.Keys == s.rows.Keys + {id}
            && s'.ledger == s.ledger && s'.notices == s.notices
            && s'.lobby.games.byPlayer == s.lobby.games.byPlayer[p := id][q := id]
  {
    hide HistoriesFit, SavesFit, NoticesFit, Sound, SignupsFit, Mirror, InPlay, FirstComeFirstPaired;
    hide LobbyStep, Next, Run;
    RunFive(s, JoinCheck(p), JoinQueue(p), JoinCheck(q), JoinQueue(q), StartPopped(0, id, true, true));
    QueueActions(s, p, q);
    TwoJoins(s.lobby, p, q);
    PairStartsPlaying(s.(lobby := s.lobby.(log := s.lobby.log + [Joined(p)] + [Joined(q)], popped := [Pair(p, q)],
                                           pairs := s.lobby.pairs + [Pair(p, q)])), p, q, id);
    RunKeepsConsistent(s, Meeting(p, q, id));
  }

  lemma PairStarts(l: Lobby, id: MatchID, names: map<PlayerID, string>)
    requires l.popped != []
    requires var pair := l.popped[0];
             && pair.x != pair.o && pair.x in names && pair.o in names
             && pair.x !in l.games.byPlayer && pair.o !in l.games.byPlayer
    ensures StartPair(l.games, l.popped[0], id, names).Ok?
  {
  }

  // ----- the first moves of a match -----

  lemma NoLineOfTwo(u: int, v: int, k: int)
    requires 0 <= k < 8
    ensures !(Line(k) <= {u, v})
  {
    match k
    case 0 => assert {0, 3, 6} <= Line(0);
    case 1 => assert {1, 4, 7} <= Line(1);
    case 2 => assert {2, 5, 8} <= Line(2);
    case 3 => assert {0, 1, 2} <= Line(3);
    case 4 => assert {3, 4, 5} <= Line(4);
    case 5 => assert {6, 7, 8} <= Line(5);
    case 6 => assert {0, 4, 8} <= Line(6);
    case _ => assert {2, 4, 6} <= Line(7);
  }

  /** Four moves give neither side a line. */
  lemma FourMovesWinNothing(ms: seq<Move>)
    requires |ms| <= 4 && forall i :: 0 <= i < |ms| ==> ms[i].mark == Side(i)
    ensures !IsOver(ms) && StatusOf(ms) == InProgress
  {
    forall m: Mark
      ensures !Wins(Histories.Played(ms, m))
    {
      var first := if m == X then 0 else 1;
      var u: int := if first < |ms| then ms[first].cell as int else -1;
      var v: int := if first + 2 < |ms| then ms[first + 2].cell as int else -1;
      assert Histories.Played(ms, m) <= {u, v};
      forall k | 0 <= k < 8
        ensures !(Line(k) <= Histories.Played(ms, m))
      {
        NoLineOfTwo(u, v, k);
      }
    }
  }

  lemma EarlyMoveIsInOrder(s: Service, p: PlayerID, cell: Int64, id: MatchID)
    requires Consistent(s) && p in s.lobby.games.byPlayer && s.lobby.games.byPlayer[p] == id && id in s.history
    requires var h := s.history[id];
             && |h.moves| <= 4 && MarkOf(h.x, h.o, p) == Side(|h.moves|) && 0 <= cell < BOARD_SIZE
             && forall i :: 0 <= i < |h.moves| ==> h.moves[i].cell != cell
    ensures CanPlay(s, p, cell, id)
    ensures var h := s.history[id];
            |h.moves| <= 3 ==> StatusOf(h.moves + [Matches.Move(MarkOf(h.x, h.o, p), cell)]) == InProgress
  {
    hide Orderly, SavesFit, NoticesFit, Sound, SignupsFit, StatusOf, IsOver, EventsOf, PositionOf, ResultsOf, TellsOf;
    var h := s.history[id];
    assert FairHistory(id, h);
    FourMovesWinNothing(h.moves);
    if |h.moves| <= 3 {
      FourMovesWinNothing(h.moves + [Matches.Move(MarkOf(h.x, h.o, p), cell)]);
    }
  }

  /** One of the first four moves: the match goes on, and only its snapshot is added to what is pending. */
  lemma PlayEarly(s: Service, p: PlayerID, cell: Int64, id: MatchID, ms: seq<Move>)
    requires Consistent(s) && p in s.lobby.games.byPlayer && s.lobby.games.byPlayer[p] == id && id in s.history
    requires var h := s.history[id];
             && |h.moves| <= 3 && MarkOf(h.x, h.o, p) == Side(|h.moves|) && 0 <= cell < BOARD_SIZE
             && (forall i :: 0 <= i < |h.moves| ==> h.moves[i].cell != cell)
             && ms == h.moves + [Matches.Move(MarkOf(h.x, h.o, p), cell)]
    ensures var s', h := Next(s, Action.Move(p, cell)), s.history[id];
            && Consistent(s') && id in s'.history && s'.history == s.history[id := s'.history[id]]
            && s'.history[id].moves == ms && s'.history[id].x == h.x && s'.history[id].o == h.o
            && s'.history[id].ending == Open
            && s'.saves == s.saves + [MatchRecord(id, h.x, h.o, InProgress, ms)] && s'.rows == s.rows
            && |s'.notices| == |s.notices| + 2 && s'.notices[..|s.notices|] == s.notices
            && s'.ledger == s.ledger && s'.lobby == s.lobby.(games := s'.lobby.games)
            && s'.lobby.games.byPlayer == s.lobby.games.byPlayer
  {
    hide Consistent, Next, CanPlay, StatusOf, PositionOf, ResultsOf;
    EarlyMoveIsInOrder(s, p, cell, id);
    PlayOne(s, p, cell, id);
    assert s.ledger.due + [] == s.ledger.due;
  }

  // ----- an older save lands last -----

  lemma BootedCanMeet(s: Service, p: PlayerID, q: PlayerID, id: MatchID)
    requires Booted(s) && p != q && {p, q} <= s.ledger.store.byID.Keys && id !in s.rows
    ensures CanMeet(s, p, q, id) && s.notices == [] && s.history == map[]
  {
    EveryRunIsConsistent(s, []);
  }

  /** Each player's call stops after its unlock; then the second saves, the first saves, and both notify. */
  function StaleSaveRun(p: PlayerID, q: PlayerID, id: MatchID): seq<Action> {
    Meeting(p, q, id) + [Action.Move(p, 0), Action.Move(q, 1), StoreMatch(1, true), StoreMatch(0, true)]
    + [Deliver(0), Deliver(0), Deliver(0), Deliver(0)]
  }

  /** Two known players meet and make a move each, and the save of the first move lands after that of the
      second: both calls are complete, no save has failed, and the row is one move behind the match. */
  lemma OlderSaveCanLandLast(s: Service, p: PlayerID, q: PlayerID, id: MatchID)
    requires Booted(s) && p != q && {p, q} <= s.ledger.store.byID.Keys && id !in s.rows
    ensures var s', first, second := Run(s, StaleSaveRun(p, q, id)), Matches.Move(X, 0), Matches.Move(O, 1);
            && s'.saves == [] && s'.notices == [] && id in s'.history && s'.history[id].ending == Open
            && s'.history[id].moves == [first, second]
            && LoadRow(s'.rows, id) == Ok(Some(MatchRecord(id, p, q, InProgress, [first])))
  {
    hide Next, Run, Booted, Consistent;
    var moves := [Action.Move(p, 0), Action.Move(q, 1), StoreMatch(1, true), StoreMatch(0, true)];
    var s1 := Run(s, Meeting(p, q, id));
    BootedCanMeet(s, p, q, id);
    Meet(s, p, q, id);
    RunAppends(s, Meeting(p, q, id), moves);
    RunAppends(s, Meeting(p, q, id) + moves, [Deliver(0), Deliver(0), Deliver(0), Deliver(0)]);
    RunFour(s1, moves[0], moves[1], moves[2], moves[3]);
    TwoMovesPending(s1, p, q, id);
    SavesLandInReverse(Next(Next(s1, Action.Move(p, 0)), Action.Move(q, 1)));
    DeliverFour(Run(s1, moves));
  }

  lemma TwoMovesPending(s: Service, p: PlayerID, q: PlayerID, id: MatchID)
    requires Consistent(s) && s.saves == [] && p != q && id in s.history && s.history[id] == Begun(p, q)
    requires var g := s.lobby.games; p in g.byPlayer && q in g.byPlayer && g.byPlayer[p] == g.byPlayer[q] == id
    ensures var s', first, second := Next(Next(s, Action.Move(p, 0)), Action.Move(q, 1)), Matches.Move(X, 0), Matches.Move(O, 1);
            && Consistent(s') && |s'.notices| == |s.notices| + 4 && id in s'.history
            && s'.history[id].moves == [first, second] && s'.history[id].ending == Open
            && s'.saves == [MatchRecord(id, p, q, InProgress, [first]), MatchRecord(id, p, q, InProgress, [first, second])]
  {
    hide Next, Consistent;
    var first, second := Matches.Move(X, 0), Matches.Move(O, 1);
    PlayEarly(s, p, 0, id, [first]);
    PlayEarly(Next(s, Action.Move(p, 0)), q, 1, id, [first, second]);
  }

  lemma SavesLandInReverse(s: Service)
    requires Consistent(s) && |s.saves| == 2
    ensures var s', r := Next(Next(s, StoreMatch(1, true)), StoreMatch(0, true)), s.saves[0];
            s'.saves == [] && s'.history == s.history && s'.notices == s.notices && LoadRow(s'.rows, r.id) == Ok(Some(r))
  {
    hide Consistent, SaveRow, LoadRow;
    assert Without(s.saves, 1) == [s.saves[0]] && Without([s.saves[0]], 0) == [];
    StepKeepsConsistent(s, StoreMatch(1, true));
    LastStoreWins(Next(s, StoreMatch(1, true)), 0);
  }

  lemma DeliverOne(s: Service, i: nat)
    requires i < |s.notices|
    ensures Next(s, Deliver(i)) == s.(notices := Without(s.notices, i), delivered := Next(s, Deliver(i)).delivered)
  {
    hide Heard;
  }

  lemma DeliverFour(s: Service)
    requires |s.notices| == 4
    ensures var s' := Run(s, [Deliver(0), Deliver(0), Deliver(0), Deliver(0)]);
            s' == s.(notices := [], delivered := s'.delivered)
  {
    hide Next;
    RunFour(s, Deliver(0), Deliver(0), Deliver(0), Deliver(0));
    DeliverOne(s, 0);
    var s1 := Next(s, Deliver(0));
    DeliverOne(s1, 0);
    var s2 := Next(s1, Deliver(0));
    DeliverOne(s2, 0);
    DeliverOne(Next(s2, Deliver(0)), 0);
  }

  // ----- two defeats recorded at once -----

  /** One of the first four moves made whole: the move, its save and its two notices, behind k that wait. */
  function Turn(p: PlayerID, cell: Int64, k: nat): seq<Action> {
    [Action.Move(p, cell), StoreMatch(0, true), Deliver(k), Deliver(k)]
  }

  /** The match has moved on to ms, whole calls later: nothing else has changed but what its rows and delivered
      notices say. */
  ghost predicate Advanced(s: Service, s': Service, id: MatchID, ms: seq<Move>) {
    && Consistent(s') && s'.saves == s.saves == [] && s'.notices == s.notices
    && id in s.history && id in s'.history && s'.history == s.history[id := s'.history[id]]
    && s'.history[id].moves == ms && s'.history[id].x == s.history[id].x && s'.history[id].o == s.history[id].o
    && s'.rows.Keys == s.rows.Keys && s'.ledger == s.ledger && s'.lobby == s.lobby.(games := s'.lobby.games)
    && s'.lobby.games.byPlayer == s.lobby.games.byPlayer
  }

  ghost predicate CanTakeTurn(s: Service, p: PlayerID, cell: Int64, id: MatchID) {
    && Consistent(s) && s.saves == [] && p in s.lobby.games.byPlayer && s.lobby.games.byPlayer[p] == id
    && id in s.history && id in s.rows && 0 <= cell < BOARD_SIZE
    && var h := s.history[id];
       && |h.moves| <= 3 && MarkOf(h.x, h.o, p) == Side(|h.moves|)
       && forall i :: 0 <= i < |h.moves| ==> h.moves[i].cell != cell
  }

  lemma PlayTurn(s: Service, p: PlayerID, cell: Int64, id: MatchID, k: nat, ms: seq<Move>)
    requires CanTakeTurn(s, p, cell, id) && k == |s.notices|
    requires ms == s.history[id].moves + [Matches.Move(MarkOf(s.history[id].x, s.history[id].o, p), cell)]
    ensures Advanced(s, Run(s, Turn(p, cell, k)), id, ms)
  {
    hide Next, Run, Consistent;
    RunFour(s, Action.Move(p, cell), StoreMatch(0, true), Deliver(k), Deliver(k));
    RunKeepsConsistent(s, Turn(p, cell, k));
    PlayEarly(s, p, cell, id, ms);
    var s1 := Next(s, Action.Move(p, cell));
    StoreOne(s1);
    var s2 := Next(s1, StoreMatch(0, true));
    DeliverOne(s2, k);
    DeliverOne(Next(s2, Deliver(k)), k);
    assert Without(Without(s1.notices, k), k) == s.notices;
  }

  lemma StoreOne(s: Service)
    requires |s.saves| == 1 && s.saves[0].id in s.rows
    ensures var s' := Next(s, StoreMatch(0, true));
            s' == s.(saves := [], rows := s'.rows) && s'.rows.Keys == s.rows.Keys
  {
    assert Without(s.saves, 0) == [];
  }

  function ColumnMoves(): seq<Move> {
    [Matches.Move(X, 0), Matches.Move(O, 1), Matches.Move(X, 3), Matches.Move(O, 4), Matches.Move(X, 6)]
  }

  lemma ColumnWins()
    ensures StatusOf(ColumnMoves()) == XWon
  {
    var ms := ColumnMoves();
    assert ms[0].cell == 0 && ms[2].cell == 3 && ms[4].cell == 6;
    assert Line(0) <= Histories.Played(ms, X);
  }

  lemma WinnersResults(id: MatchID, p: PlayerID, q: PlayerID)
    requires p != q
    ensures ResultsOf(PositionOf(id, p, q, ColumnMoves())) == [SeatResult(p, Win), SeatResult(q, Loss)]
  {
    ColumnWins();
    ResultsArePaired(PositionOf(id, p, q, ColumnMoves()));
  }

  function FourTurns(p: PlayerID, q: PlayerID, k: nat): seq<Action> {
    (Turn(p, 0, k) + Turn(q, 1, k)) + (Turn(p, 3, k) + Turn(q, 4, k))
  }

  lemma TurnAdvances(s: Service, s': Service, p: PlayerID, cell: Int64, id: MatchID, k: nat, ms: seq<Move>,
                     ms': seq<Move>)
    requires Advanced(s, s', id, ms) && id in s.rows && k == |s.notices|
    requires p in s.lobby.games.byPlayer && s.lobby.games.byPlayer[p] == id && 0 <= cell < BOARD_SIZE
    requires |ms| <= 3 && MarkOf(s.history[id].x, s.history[id].o, p) == Side(|ms|)
    requires (forall i :: 0 <= i < |ms| ==> ms[i].cell != cell) && ms' == ms + [Matches.Move(Side(|ms|), cell)]
    ensures Advanced(s, Run(s', Turn(p, cell, k)), id, ms')
  {
    hide Run, Turn, Consistent;
    PlayTurn(s', p, cell, id, k, ms');
  }

  lemma NotYetAdvanced(s: Service, p: PlayerID, q: PlayerID, id: MatchID)
    requires Consistent(s) && s.saves == [] && id in s.history && s.history[id] == Begun(p, q)
    ensures Advanced(s, s, id, [])
  {
    hide Consistent;
  }

  lemma FourTurnsPlayed(s: Service, p: PlayerID, q: PlayerID, id: MatchID)
    requires Consistent(s) && s.saves == [] && p != q && id in s.history && s.history[id] == Begun(p, q) && id in s.rows
    requires var g := s.lobby.games; p in g.byPlayer && q in g.byPlayer && g.byPlayer[p] == g.byPlayer[q] == id
    ensures Advanced(s, Run(s, FourTurns(p, q, |s.notices|)), id, ColumnMoves()[..4])
  {
    hide Run, Consistent, Turn, Advanced;
    var k := |s.notices|;
    var a, b, c, d := Matches.Move(X, 0), Matches.Move(O, 1), Matches.Move(X, 3), Matches.Move(O, 4);
    var s1 := Run(s, Turn(p, 0, k));
    var s2 := Run(s1, Turn(q, 1, k));
    RunAppends(s, Turn(p, 0, k) + Turn(q, 1, k), Turn(p, 3, k) + Turn(q, 4, k));
    RunAppends(s, Turn(p, 0, k), Turn(q, 1, k));
    RunAppends(s2, Turn(p, 3, k), Turn(q, 4, k));
    NotYetAdvanced(s, p, q, id);
    TurnAdvances(s, s, p, 0, id, k, [], [a]);
    TurnAdvances(s, s1, q, 1, id, k, [a], [a, b]);
    TurnAdvances(s, s2, p, 3, id, k, [a, b], [a, b, c]);
    TurnAdvances(s, Run(s2, Turn(p, 3, k)), q, 4, id, k, [a, b, c], [a, b, c, d]);
    assert ColumnMoves()[..4] == [a, b, c, d];
  }

  /** The winning move and its save; the call has its results and its notices still to handle. */
  lemma WinningMove(s: Service, p: PlayerID, q: PlayerID, id: MatchID)
    requires Consistent(s) && s.saves == [] && p != q && id in s.history && s.history[id].x == p && s.history[id].o == q
    requires s.history[id].moves == ColumnMoves()[..4] && id in s.rows
    requires p in s.lobby.games.byPlayer && s.lobby.games.byPlayer[p] == id
    ensures var s' := Run(s, [Action.Move(p, 6), StoreMatch(0, true)]);
            && Consistent(s') && s'.saves == [] && |s'.notices| == |s.notices| + 2
            && id in s'.history && s'.history == s.history[id := s'.history[id]]
            && s'.history[id].x == p && s'.history[id].o == q
            && s'.history[id].moves == ColumnMoves() && s'.history[id].ending == Finished && s'.rows.Keys == s.rows.Keys
            && s'.ledger == s.ledger.(due := s.ledger.due + [SeatResult(p, Win), SeatResult(q, Loss)])
            && s'.lobby == s.lobby.(games := s'.lobby.games)
            && s'.lobby.games.byPlayer == s.lobby.games.byPlayer - {p, q}
  {
    hide Next, Run, Consistent, CanPlay, StatusOf, ResultsOf, PositionOf;
    var ms := ColumnMoves();
    RunTwo(s, Action.Move(p, 6), StoreMatch(0, true));
    RunKeepsConsistent(s, [Action.Move(p, 6), StoreMatch(0, true)]);
    EarlyMoveIsInOrder(s, p, 6, id);
    PlayOne(s, p, 6, id);
    assert ms == ms[..4] + [Matches.Move(X, 6)];
    ColumnWins();
    WinnersResults(id, p, q);
    StoreOne(Next(s, Action.Move(p, 6)));
  }

  /** Two players meet, and the first to join takes the first column, behind k notices that wait. */
  function MatchWon(p: PlayerID, q: PlayerID, id: MatchID, k: nat): seq<Action> {
    Meeting(p, q, id) + FourTurns(p, q, k) + [Action.Move(p, 6), StoreMatch(0, true)]
  }

  lemma WinMatch(s: Service, p: PlayerID, q: PlayerID, id: MatchID)
    requires CanMeet(s, p, q, id)
    ensures var s' := Run(s, MatchWon(p, q, id, |s.notices|));
            && Calm(s') && |s'.notices| == |s.notices| + 2
            && id in s'.history && s'.history == s.history[id := s'.history[id]]
            && s'.history[id].x == p && s'.history[id].o == q
            && s'.history[id].moves == ColumnMoves() && s'.history[id].ending == Finished
            && s'.rows.Keys == s.rows.Keys + {id}
            && s'.ledger == s.ledger.(due := s.ledger.due + [SeatResult(p, Win), SeatResult(q, Loss)])
            && s'.lobby.games.byPlayer == s.lobby.games.byPlayer
  {
    hide Run, Consistent, Meeting, FourTurns, ColumnMoves;
    var k := |s.notices|;
    var s1 := Run(s, Meeting(p, q, id));
    Meet(s, p, q, id);
    RunAppends(s, Meeting(p, q, id), FourTurns(p, q, k));
    RunAppends(s, Meeting(p, q, id) + FourTurns(p, q, k), [Action.Move(p, 6), StoreMatch(0, true)]);
    FourTurnsPlayed(s1, p, q, id);
    WinningMove(Run(s1, FourTurns(p, q, k)), p, q, id);
    var byPlayer := s.lobby.games.byPlayer;
    assert byPlayer[p := id][q := id] - {p, q} == byPlayer;
  }

  /** q beats p, then r beats p; the two finishing calls, made by the winners, record their results while the
      other is at it, and then notify. */
  function TwoDefeatsAtOnceRun(p: PlayerID, q: PlayerID, r: PlayerID, i: MatchID, j: MatchID): seq<Action> {
    MatchWon(q, p, i, 0) + MatchWon(r, p, j, 2) + OverlappingRecords() + [Deliver(0), Deliver(0), Deliver(0), Deliver(0)]
  }

  /** Each winner's record is made whole; then both records of the loser load before either saves. */
  function OverlappingRecords(): seq<Action> {
    [LoadStats(0, true), StoreStats(0, true), LoadStats(1, true), StoreStats(0, true)]
    + [LoadStats(0, true), LoadStats(0, true), StoreStats(0, true), StoreStats(0, true)]
  }

  predicate IsCallStep(e: Event) {
    e.Load? || e.Land?
  }

  function RecordStep(e: Event): Action
    requires IsCallStep(e)
  {
    match e
    case Load(i, ok) => LoadStats(i, ok)
    case Land(i, ok) => StoreStats(i, ok)
  }

  lemma RecordStepMovesLedger(s: Service, e: Event)
    requires IsCallStep(e)
    ensures Next(s, RecordStep(e)) == s.(ledger := Step(s.ledger, e))
  {
    hide Step;
  }

  lemma FourRecordSteps(s: Service, a: Event, b: Event, c: Event, d: Event, acts: seq<Action>)
    requires IsCallStep(a) && IsCallStep(b) && IsCallStep(c) && IsCallStep(d)
    requires acts == [RecordStep(a), RecordStep(b), RecordStep(c), RecordStep(d)]
    ensures Run(s, acts) == s.(ledger := RunLedger(s.ledger, [a, b, c, d]))
  {
    hide Step, Next, RecordStep;
    RunFour(s, acts[0], acts[1], acts[2], acts[3]);
    Recording.RunFour(s.ledger, a, b, c, d);
    var s1 := Next(s, acts[0]);
    RecordStepMovesLedger(s, a);
    RecordStepMovesLedger(s1, b);
    RecordStepMovesLedger(Next(s1, acts[1]), c);
    RecordStepMovesLedger(Next(Next(s1, acts[1]), acts[2]), d);
  }

  lemma RecordsRunOnLedger(s: Service)
    ensures Run(s, OverlappingRecords()) == s.(ledger := RunLedger(s.ledger, OverlappingCalls()))
  {
    hide Step, Next, Run, RunLedger;
    var first := [LoadStats(0, true), StoreStats(0, true), LoadStats(1, true), StoreStats(0, true)];
    var rest := [LoadStats(0, true), LoadStats(0, true), StoreStats(0, true), StoreStats(0, true)];
    RunAppends(s, first, rest);
    Recording.RunAppends(s.ledger, OneByOne(), TwoAtOnce());
    FourRecordSteps(s, Load(0, true), Land(0, true), Load(1, true), Land(0, true), first);
    FourRecordSteps(Run(s, first), Load(0, true), Load(0, true), Land(0, true), Land(0, true), rest);
  }

  lemma BothMatchesWon(s: Service, p: PlayerID, q: PlayerID, r: PlayerID, i: MatchID, j: MatchID)
    requires Booted(s) && {p, q, r} <= s.ledger.store.byID.Keys && p != q && q != r && r != p
    requires i != j && i !in s.rows && j !in s.rows
    ensures var s' := Run(s, MatchWon(q, p, i, 0) + MatchWon(r, p, j, 2));
            && s'.saves == [] && |s'.notices| == 4
            && s'.ledger == s.ledger.(due := [SeatResult(q, Win), SeatResult(p, Loss),
                                              SeatResult(r, Win), SeatResult(p, Loss)])
            && s'.history.Keys == {i, j}
            && s'.history[i].o == s'.history[j].o == p && s'.history[i].x != p && s'.history[j].x != p
            && s'.history[i].moves == ColumnMoves() && s'.history[i].ending == Finished
            && s'.history[j].moves == ColumnMoves() && s'.history[j].ending == Finished
  {
    hide Run, Consistent, MatchWon, ColumnMoves, Opening;
    RunAppends(s, MatchWon(q, p, i, 0), MatchWon(r, p, j, 2));
    BootedCanMeet(s, q, p, i);
    WinMatch(s, q, p, i);
    assert s.ledger.due == [] by {
      NothingOwedAtBoot(s);
    }
    WinMatch(Run(s, MatchWon(q, p, i, 0)), r, p, j);
  }

  lemma NothingOwedAtBoot(s: Service)
    requires Booted(s)
    ensures var l := s.ledger; l.due == [] && l.loaded == [] && l.dropped == [] && Indexed(l.store)
    ensures s.ledger.ideal == StatsOf(s.ledger.store)
  {
  }

  /** The loser of two matches, recorded by overlapping calls: every call is complete and no store call has
      failed, two lost matches are on the books, and the store shows one; the winners' wins are right. */
  lemma OverlappingFinishesLoseADefeat(s: Service, p: PlayerID, q: PlayerID, r: PlayerID, i: MatchID, j: MatchID)
    requires Booted(s) && {p, q, r} <= s.ledger.store.byID.Keys && p != q && q != r && r != p
    requires i != j && i !in s.rows && j !in s.rows
    ensures var s', before := Run(s, TwoDefeatsAtOnceRun(p, q, r, i, j)), s.ledger.store.byID;
            var l := s'.ledger;
            && l.due == [] && l.loaded == [] && l.dropped == [] && s'.saves == [] && s'.notices == []
            && {p, q, r} <= l.store.byID.Keys
            && EarnedBy(FinishedOf(s'.history), p, Loss) == {i, j}
            && l.store.byID[p].stats == AddOutcome(before[p].stats, Loss)
            && l.store.byID[q].stats == AddOutcome(before[q].stats, Win)
            && l.store.byID[r].stats == AddOutcome(before[r].stats, Win)
  {
    hide Run, Booted, RunLedger, EarnedBy, FinishedOf, OverlappingRecords, OverlappingCalls, Indexed;
    hide ColumnMoves, MatchWon, AddOutcome;
    var both := MatchWon(q, p, i, 0) + MatchWon(r, p, j, 2);
    var s2 := Run(s, both);
    RunAppends(s, both, OverlappingRecords());
    RunAppends(s, both + OverlappingRecords(), [Deliver(0), Deliver(0), Deliver(0), Deliver(0)]);
    NothingOwedAtBoot(s);
    BothMatchesWon(s, p, q, r, i, j);
    RecordsRunOnLedger(s2);
    OverlapOutcome(s2.ledger, p, q, r);
    DeliverFour(Run(s2, OverlappingRecords()));
    TwoDefeats(s2.history, p, i, j);
  }

  lemma TwoDefeats(history: map<MatchID, History>, p: PlayerID, i: MatchID, j: MatchID)
    requires history.Keys == {i, j} && history[i].o == history[j].o == p && history[i].x != p && history[j].x != p
    requires history[i].moves == ColumnMoves() && history[i].ending == Finished
    requires history[j].moves == ColumnMoves() && history[j].ending == Finished
    ensures EarnedBy(FinishedOf(history), p, Loss) == {i, j}
  {
    ColumnWins();
    assert Wins(Histories.Played(ColumnMoves(), X));
    assert Earned(history[i], p, Loss) && Earned(history[j], p, Loss);
  }
}
