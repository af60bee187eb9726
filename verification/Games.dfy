/** The live-game service: the matches in progress and who is in which, guarded by one mutex.
    Each function below is what one critical section does; the class does it in place. */
module LiveGames {
  import opened Base
  import opened Boards
  import opened Matches
  import opened Histories
  import opened MatchStores
  import opened Recording

  datatype EventKind = MatchStarted | StateChanged | MatchEnded | OpponentLeft

  /** The match as shown to one of its players. */
  datatype MatchState = MatchState(
    matchID: MatchID, cells: Cells, yourMark: Mark, turn: Mark, status: Status, outcome: Outcome, opponent: string)

  datatype Notice = Notice(to: PlayerID, kind: EventKind, state: MatchState)

  datatype ActiveValue = ActiveValue(game: MatchValue, names: map<PlayerID, string>)

  datatype GamesValue = GamesValue(active: map<MatchID, ActiveValue>, byPlayer: map<PlayerID, MatchID>)

  const NO_MATCHES := GamesValue(map[], map[])

  // ----- snapshots -----

  function NameIn(names: map<PlayerID, string>, p: PlayerID): string {
    if p in names then names[p] else ""
  }

  function StateFor(a: ActiveValue, p: PlayerID): MatchState {
    var m := a.game;
    MatchState(m.id, m.board, MarkOf(m.x, m.o, p), m.turn, m.status, OutcomeFor(m, p),
               NameIn(a.names, OpponentOf(m, p)))
  }

  function NoticesOf(a: ActiveValue, kind: EventKind): seq<Notice> {
    [Notice(a.game.x, kind, StateFor(a, a.game.x)), Notice(a.game.o, kind, StateFor(a, a.game.o))]
  }

  function ResultsOf(m: MatchValue): seq<SeatResult> {
    [SeatResult(m.x, OutcomeFor(m, m.x)), SeatResult(m.o, OutcomeFor(m, m.o))]
  }

  // ----- critical sections -----

  function Enter(g: GamesValue, a: ActiveValue): GamesValue {
    var m := a.game;
    GamesValue(g.active[m.id := a], g.byPlayer[m.x := m.id][m.o := m.id])
  }

  function StartMatch(g: GamesValue, id: MatchID, x: PlayerID, o: PlayerID, xName: string,
                      oName: string): Result<GamesValue> {
    match NewMatch(id, x, o)
    case Err(e) => Err(e)
    case Ok(m) =>
      if x in g.byPlayer || o in g.byPlayer then Err(AlreadyInMatch)
      else Ok(Enter(g, ActiveValue(m, map[x := xName, o := oName])))
  }

  function Lookup(g: GamesValue, p: PlayerID): Option<MatchID> {
    if p !in g.byPlayer then None
    else if g.byPlayer[p] !in g.active then None
    else Some(g.byPlayer[p])
  }

  function Forget(g: GamesValue, m: MatchValue): GamesValue {
    GamesValue(g.active - {m.id}, g.byPlayer - {m.x, m.o})
  }

  /** The match a player is in after one accepted move, and the service after it. */
  datatype Moved = Moved(after: GamesValue, played: ActiveValue) {
    predicate Over() {
      played.game.status != InProgress
    }

    function Kind(): EventKind {
      if Over() then MatchEnded else StateChanged
    }

    function Results(): seq<SeatResult> {
      if Over() then ResultsOf(played.game) else []
    }
  }

  function Put(g: GamesValue, id: MatchID, a: ActiveValue): GamesValue {
    g.(active := g.active[id := a])
  }

  function MoveInMatch(g: GamesValue, p: PlayerID, cell: Int64): Result<Moved> {
    match Lookup(g, p)
    case None => Err(NoActiveMatch)
    case Some(id) =>
      match ApplyMove(g.active[id].game, p, cell)
      case Err(e) => Err(e)
      case Ok(m) =>
        var a := g.active[id].(game := m);
        var g' := Put(g, id, a);
        Ok(AfterMove(g', a))
  }

  /** A finished match is dropped. */
  function AfterMove(g: GamesValue, a: ActiveValue): Moved {
    Moved(if a.game.status != InProgress then Forget(g, a.game) else g, a)
  }

  lemma PutBack(g: GamesValue, id: MatchID)
    requires id in g.active
    ensures Put(g, id, g.active[id]) == g
  {
  }

  /** The match given up, told to the player who stays. */
  function AbandonMatch(g: GamesValue, p: PlayerID): Option<(GamesValue, Notice)> {
    match Lookup(g, p)
    case None => None
    case Some(id) =>
      Some((Forget(g, g.active[id].game), FarewellOf(g.active[id], p)))
  }

  function FarewellOf(a: ActiveValue, p: PlayerID): Notice {
    var opponent := OpponentOf(a.game, p);
    Notice(opponent, OpponentLeft, StateFor(a, opponent))
  }

  // ----- the mirror invariant -----

  ghost predicate Seated(g: GamesValue, id: MatchID)
    requires id in g.active
  {
    var m := g.active[id].game;
    && m.id == id && m.x != m.o
    && m.x in g.byPlayer && g.byPlayer[m.x] == id
    && m.o in g.byPlayer && g.byPlayer[m.o] == id
  }

  ghost predicate PlaysIn(g: GamesValue, p: PlayerID)
    requires p in g.byPlayer
  {
    var id := g.byPlayer[p];
    id in g.active && (p == g.active[id].game.x || p == g.active[id].game.o)
  }

  /** The two maps mirror each other: everyone listed plays in the match listed, and both players of
      every match are listed under it. */
  ghost predicate Mirror(g: GamesValue) {
    && (forall id :: id in g.active ==> Seated(g, id))
    && (forall p :: p in g.byPlayer ==> PlaysIn(g, p))
  }

  ghost predicate Fair(m: MatchValue) {
    Genuine(m) && m.status == InProgress
  }

  /** Every match kept is unfinished and as legal play left it. */
  ghost predicate InPlay(g: GamesValue) {
    forall id :: id in g.active ==> Fair(g.active[id].game)
  }

  lemma ForgetKeepsMirror(g: GamesValue, id: MatchID)
    requires Mirror(g) && id in g.active
    ensures Mirror(Forget(g, g.active[id].game))
  {
    var g' := Forget(g, g.active[id].game);
    assert Seated(g, id);
    forall i | i in g'.active
      ensures Seated(g', i)
    {
      assert Seated(g, i);
    }
    forall p | p in g'.byPlayer
      ensures PlaysIn(g', p)
    {
      assert PlaysIn(g, p);
    }
  }

  /** Replacing a match by one with the same ID and players. */
  lemma UpdateKeepsMirror(g: GamesValue, id: MatchID, a: ActiveValue)
    requires Mirror(g) && id in g.active
    requires a.game.id == id && a.game.x == g.active[id].game.x && a.game.o == g.active[id].game.o
    ensures Mirror(g.(active := g.active[id := a]))
  {
    var g' := g.(active := g.active[id := a]);
    forall i | i in g'.active
      ensures Seated(g', i)
    {
      assert Seated(g, i);
    }
    forall p | p in g'.byPlayer
      ensures PlaysIn(g', p)
    {
      assert PlaysIn(g, p);
    }
  }

  lemma StartKeepsMirror(g: GamesValue, id: MatchID, x: PlayerID, o: PlayerID, xName: string, oName: string)
    requires Mirror(g) && StartMatch(g, id, x, o, xName, oName).Ok?
    ensures Mirror(StartMatch(g, id, x, o, xName, oName).value) <==> id !in g.active
  {
    var g' := StartMatch(g, id, x, o, xName, oName).value;
    if id in g.active {
      assert Seated(g, id);
      assert !PlaysIn(g', g.active[id].game.x);
    } else {
      forall i | i in g'.active
        ensures Seated(g', i)
      {
        assert i != id ==> Seated(g, i);
      }
      forall p | p in g'.byPlayer
        ensures PlaysIn(g', p)
      {
        assert p != x && p != o ==> PlaysIn(g, p);
      }
    }
  }

  lemma StartKeepsInPlay(g: GamesValue, id: MatchID, x: PlayerID, o: PlayerID, xName: string, oName: string)
    requires InPlay(g) && StartMatch(g, id, x, o, xName, oName).Ok?
    ensures InPlay(StartMatch(g, id, x, o, xName, oName).value)
  {
    NewMatchIsGenuine(id, x, o);
  }

  /** Start is refused exactly for equal or busy players; otherwise the mirror survives exactly when the
      match ID is not in use. */
  lemma StartVerdict(g: GamesValue, id: MatchID, x: PlayerID, o: PlayerID, xName: string, oName: string)
    requires Mirror(g)
    ensures var r := StartMatch(g, id, x, o, xName, oName);
            && (r == Err(SamePlayer) <==> x == o)
            && (r == Err(AlreadyInMatch) <==> x != o && (x in g.byPlayer || o in g.byPlayer))
            && (r.Ok? <==> x != o && x !in g.byPlayer && o !in g.byPlayer)
            && (r.Ok? ==> (Mirror(r.value) <==> id !in g.active))
  {
    if StartMatch(g, id, x, o, xName, oName).Ok? {
      StartKeepsMirror(g, id, x, o, xName, oName);
    }
  }

  lemma MoveKeepsMirror(g: GamesValue, p: PlayerID, cell: Int64)
    requires Mirror(g) && MoveInMatch(g, p, cell).Ok?
    ensures Mirror(MoveInMatch(g, p, cell).value.after)
  {
    assert PlaysIn(g, p);
    var id := g.byPlayer[p];
    assert Seated(g, id);
    var a := MoveInMatch(g, p, cell).value.played;
    ApplyMoveKeepsPlayers(g.active[id].game, p, cell);
    UpdateKeepsMirror(g, id, a);
    if a.game.status != InProgress {
      ForgetKeepsMirror(g.(active := g.active[id := a]), id);
    }
  }

  lemma ApplyMoveKeepsPlayers(m: MatchValue, p: PlayerID, cell: Int64)
    requires ApplyMove(m, p, cell).Ok?
    ensures var m' := ApplyMove(m, p, cell).value;
            m'.id == m.id && m'.x == m.x && m'.o == m.o
  {
  }

  lemma MoveKeepsInPlay(g: GamesValue, p: PlayerID, cell: Int64)
    requires Mirror(g) && InPlay(g) && MoveInMatch(g, p, cell).Ok?
    ensures InPlay(MoveInMatch(g, p, cell).value.after)
    ensures Genuine(MoveInMatch(g, p, cell).value.played.game)
  {
    hide Genuine, ApplyMove;
    var m := g.active[g.byPlayer[p]].game;
    assert Fair(m) && Seated(g, g.byPlayer[p]);
    ApplyMoveKeepsPlayers(m, p, cell);
    ApplyMoveVerdict(m, p, cell);
    var moved := MoveInMatch(g, p, cell).value;
    forall id | id in moved.after.active
      ensures Fair(moved.after.active[id].game)
    {
      assert id != g.byPlayer[p] ==> Fair(g.active[id].game);
    }
  }

  lemma AbandonKeepsMirror(g: GamesValue, p: PlayerID)
    requires Mirror(g) && AbandonMatch(g, p).Some?
    ensures Mirror(AbandonMatch(g, p).value.0)
  {
    ForgetKeepsMirror(g, g.byPlayer[p]);
  }

  lemma AbandonKeepsInPlay(g: GamesValue, p: PlayerID)
    requires InPlay(g) && AbandonMatch(g, p).Some?
    ensures InPlay(AbandonMatch(g, p).value.0)
  {
    var g' := AbandonMatch(g, p).value.0;
    forall id | id in g'.active
      ensures Fair(g'.active[id].game)
    {
      assert Fair(g.active[id].game);
    }
  }

  /** The second read of Lookup never misses after the first hits. */
  lemma LookupNeverMisses(g: GamesValue, p: PlayerID)
    requires Mirror(g)
    ensures Lookup(g, p) == if p in g.byPlayer then Some(g.byPlayer[p]) else None
  {
    if p in g.byPlayer {
      assert PlaysIn(g, p);
    }
  }

  /** Move by anyone, anywhere: it fails with exactly one of four errors, decided by the player's match
      alone, and never with MatchFinished or NotAParticipant; otherwise the move is appended. */
  lemma MoveVerdict(g: GamesValue, p: PlayerID, cell: Int64)
    requires Mirror(g) && InPlay(g)
    ensures var r := MoveInMatch(g, p, cell);
            && r != Err(MatchFinished) && r != Err(NotAParticipant)
            && (p !in g.byPlayer <==> r == Err(NoActiveMatch))
            && (p in g.byPlayer ==>
                  var m := g.active[g.byPlayer[p]].game;
                  && (r == Err(NotYourTurn) <==> MarkOf(m.x, m.o, p) != m.turn)
                  && (r == Err(CellOutOfBounds) <==> MarkOf(m.x, m.o, p) == m.turn && !(0 <= cell < BOARD_SIZE))
                  && (r == Err(CellOccupied) <==>
                        MarkOf(m.x, m.o, p) == m.turn && 0 <= cell < BOARD_SIZE && m.board[cell] != Empty)
                  && (r.Ok? <==> MarkOf(m.x, m.o, p) == m.turn && 0 <= cell < BOARD_SIZE && m.board[cell] == Empty)
                  && (r.Ok? ==> r.value.played.game.moves == m.moves + [Move(m.turn, cell)]))
  {
    if p in g.byPlayer {
      assert PlaysIn(g, p);
      assert Seated(g, g.byPlayer[p]) && Fair(g.active[g.byPlayer[p]].game);
      ApplyMoveVerdict(g.active[g.byPlayer[p]].game, p, cell);
    }
  }

  /** Abandon by anyone: only a player in a match gives it up; the one notice goes to the other player, with
      that player's own undecided view; both are free again and no other match is touched. */
  lemma AbandonVerdict(g: GamesValue, p: PlayerID)
    requires Mirror(g) && InPlay(g)
    ensures AbandonMatch(g, p).Some? <==> p in g.byPlayer
    ensures p in g.byPlayer ==>
              var (g', n) := AbandonMatch(g, p).value;
              var id := g.byPlayer[p];
              && n.to != p && n.to in g.byPlayer && g.byPlayer[n.to] == id
              && n.kind == OpponentLeft && n.state.matchID == id && n.state.outcome == Undecided
              && n.state.yourMark == MarkOf(g.active[id].game.x, g.active[id].game.o, n.to)
              && n.state.opponent == NameIn(g.active[id].names, p)
              && g'.byPlayer == g.byPlayer - {p, n.to} && g'.active == g.active - {id}
  {
    if p in g.byPlayer {
      assert PlaysIn(g, p);
      assert Seated(g, g.byPlayer[p]) && Fair(g.active[g.byPlayer[p]].game);
    }
  }

  /** Nobody is in two matches, and twice as many players are listed as there are matches. */
  lemma {:induction false} TwoPlayersPerMatch(g: GamesValue)
    requires Mirror(g)
    ensures |g.byPlayer| == 2 * |g.active|
    decreases |g.active|
  {
    if g.active == map[] {
      assert g.byPlayer == map[];
    } else {
      var id :| id in g.active;
      ForgetCounts(g, id);
      ForgetKeepsMirror(g, id);
      TwoPlayersPerMatch(Forget(g, g.active[id].game));
    }
  }

  lemma ForgetCounts(g: GamesValue, id: MatchID)
    requires Mirror(g) && id in g.active
    ensures var g' := Forget(g, g.active[id].game);
            |g'.active| == |g.active| - 1 && |g'.byPlayer| == |g.byPlayer| - 2
  {
    assert Seated(g, id);
    var m := g.active[id].game;
    RemovalCounts(g.active, {id});
    RemovalCounts(g.byPlayer, {m.x, m.o});
  }

  lemma RemovalCounts<K, V>(m: map<K, V>, ks: set<K>)
    requires ks <= m.Keys
    ensures |m - ks| == |m| - |ks|
  {
    assert (m - ks).Keys == m.Keys - ks;
    assert |m.Keys - ks| == |m.Keys| - |ks|;
    assert |m| == |m.Keys| && |m - ks| == |(m - ks).Keys|;
  }

  /** The two results of a finished match are win and loss, in the winner's favour, or two draws. */
  lemma ResultsArePaired(m: MatchValue)
    requires m.x != m.o && m.status != InProgress
    ensures ResultsOf(m) == match m.status
                            case XWon => [SeatResult(m.x, Win), SeatResult(m.o, Loss)]
                            case OWon => [SeatResult(m.x, Loss), SeatResult(m.o, Win)]
                            case _ => [SeatResult(m.x, Draw), SeatResult(m.o, Draw)]
    ensures forall k :: Count(ResultsOf(m), k) ==
              if m.status == Drawn then (if k == Draw then 2 else 0)
              else if k == Win || k == Loss then 1 else 0
  {
    var rs := ResultsOf(m);
    assert rs == [rs[0]] + [rs[1]];
    forall k
      ensures Count(rs, k) == Count([rs[0]], k) + Count([rs[1]], k)
    {
      CountAppends([rs[0]], [rs[1]], k);
      CountOne(rs[0], k);
      CountOne(rs[1], k);
    }
  }

  // ----- what a player is shown -----

  /** s shows p the match of these players after the moves h: the marks where they were placed, whose turn it is or was
      last, how it stands by the lines and the full board, and p's own mark, result and opponent. */
  ghost predicate Shows(s: MatchState, id: MatchID, x: PlayerID, o: PlayerID, names: map<PlayerID, string>,
                        h: seq<Move>, p: PlayerID) {
    var xWins, oWins := Wins(Played(h, X)), Wins(Played(h, O));
    var full := |h| == 9 && !xWins && !oWins;
    && s.matchID == id
    && (forall c :: 0 <= c < 9 ==> (s.cells[c] == X <==> c in Played(h, X)) && (s.cells[c] == O <==> c in Played(h, O)))
    && (s.status == XWon <==> xWins) && (s.status == OWon <==> oWins) && (s.status == Drawn <==> full)
    && s.turn == (if s.status == InProgress then Side(|h|) else if h == [] then X else Side(|h| - 1))
    && (p == x ==> s.yourMark == X && (o in names ==> s.opponent == names[o]))
    && (p == o ==> s.yourMark == O && (x in names ==> s.opponent == names[x]))
    && (s.outcome == Win <==> (p == x && xWins) || (p == o && oWins))
    && (s.outcome == Loss <==> (p == x && oWins) || (p == o && xWins))
    && (s.outcome == Draw <==> full)
  }

  /** Every view of a match that legal play can reach shows what was played. */
  lemma StateShowsThePlay(a: ActiveValue, p: PlayerID)
    requires Genuine(a.game)
    ensures Shows(StateFor(a, p), a.game.id, a.game.x, a.game.o, a.names, a.game.moves, p)
  {
    hide LegalHistory, Played, Wins, BoardOf, StatusOf, TurnOf;
    CellsShowHistory(a.game.moves);
    StatusShowsHistory(a.game.moves);
  }

  /** Each of the two players is sent one notice, with that player's own view. */
  lemma NoticesShowThePlay(a: ActiveValue, kind: EventKind)
    requires Genuine(a.game)
    ensures var m, ns := a.game, NoticesOf(a, kind);
            && |ns| == 2 && ns[0].to == m.x && ns[1].to == m.o && ns[0].kind == ns[1].kind == kind
            && Shows(ns[0].state, m.id, m.x, m.o, a.names, m.moves, m.x)
            && Shows(ns[1].state, m.id, m.x, m.o, a.names, m.moves, m.o)
  {
    StateShowsThePlay(a, a.game.x);
    StateShowsThePlay(a, a.game.o);
  }

  /** The mover is shown the match with the move made. */
  lemma MoverSeesTheMove(g: GamesValue, p: PlayerID, cell: Int64)
    requires Mirror(g) && InPlay(g) && MoveInMatch(g, p, cell).Ok?
    ensures p in g.byPlayer && g.byPlayer[p] in g.active
    ensures var a := g.active[g.byPlayer[p]];
            Shows(StateFor(MoveInMatch(g, p, cell).value.played, p), a.game.id, a.game.x, a.game.o, a.names,
                  a.game.moves + [Move(a.game.turn, cell)], p)
  {
    hide Genuine, Shows, StateFor, ApplyMove;
    LookupNeverMisses(g, p);
    MoveVerdict(g, p, cell);
    MoveKeepsInPlay(g, p, cell);
    ApplyMoveKeepsPlayers(g.active[g.byPlayer[p]].game, p, cell);
    StateShowsThePlay(MoveInMatch(g, p, cell).value.played, p);
  }

  /** The player who stays is shown the match as it was left. */
  lemma FarewellShowsThePlay(a: ActiveValue, p: PlayerID)
    requires Genuine(a.game) && (p == a.game.x || p == a.game.o)
    ensures var m, n := a.game, FarewellOf(a, p);
            && n.to == (if p == m.x then m.o else m.x) && n.kind == OpponentLeft
            && Shows(n.state, m.id, m.x, m.o, a.names, m.moves, n.to)
  {
    hide Shows, StateFor;
    StateShowsThePlay(a, FarewellOf(a, p).to);
  }

  /** Both players see the same match, each with their own mark, the other's name and the mirrored outcome. */
  lemma StatesMirrorEachOther(a: ActiveValue)
    requires a.game.x != a.game.o
    ensures var sx, so := StateFor(a, a.game.x), StateFor(a, a.game.o);
            && sx.(yourMark := Empty, outcome := Undecided, opponent := "") == so.(yourMark := Empty, outcome := Undecided, opponent := "")
            && sx.yourMark == X && so.yourMark == O
            && sx.opponent == NameIn(a.names, a.game.o) && so.opponent == NameIn(a.names, a.game.x)
            && (sx.outcome == Win <==> so.outcome == Loss) && (sx.outcome == Loss <==> so.outcome == Win)
            && (sx.outcome == Draw <==> so.outcome == Draw)
  {
  }

  // ----- the service in place -----

  class ActiveMatch {
    const game: Match
    const names: map<PlayerID, string>

    constructor (game: Match, names: map<PlayerID, string>)
      ensures this.game == game && this.names == names
    {
      this.game := game;
      this.names := names;
    }

    ghost function Value(): ActiveValue
      requires game.Valid()
      reads game, game.board.cells
    {
      ActiveValue(game.Value(), names)
    }

    method State(p: PlayerID) returns (s: MatchState)
      requires game.Valid()
      ensures s == StateFor(Value(), p)
    {
      var mark, _ := game.SideOf(p);
      var outcome := game.OutcomeOf(p);
      var opponent := game.Opponent(p);
      s := MatchState(game.id, game.board.cells[..], mark, game.turn, game.status, outcome, NameIn(names, opponent));
    }

    method Notices(kind: EventKind) returns (ns: seq<Notice>)
      requires game.Valid()
      ensures ns == NoticesOf(Value(), kind)
    {
      var x, o := game.Seat(X), game.Seat(O);
      var sx := State(x);
      var so := State(o);
      ns := [Notice(x, kind, sx), Notice(o, kind, so)];
    }

    method Farewell(p: PlayerID) returns (n: Notice)
      requires game.Valid()
      ensures n == FarewellOf(Value(), p)
    {
      var opponent := game.Opponent(p);
      var state := State(opponent);
      n := Notice(opponent, OpponentLeft, state);
    }

    method Results() returns (rs: seq<SeatResult>)
      requires game.Valid()
      ensures rs == ResultsOf(game.Value())
    {
      var x, o := game.Seat(X), game.Seat(O);
      var rx := game.OutcomeOf(x);
      var ro := game.OutcomeOf(o);
      rs := [SeatResult(x, rx), SeatResult(o, ro)];
    }

    method Record() returns (r: MatchRecord)
      requires game.Valid()
      ensures r == RecordOf(game.Value())
    {
      r := MatchRecord(game.id, game.Seat(X), game.Seat(O), game.status, game.moves);
    }
  }

  class Games {
    var active: map<MatchID, ActiveMatch>
    var byPlayer: map<PlayerID, MatchID>

    ghost function Live(): set<object>
      reads this
    {
      (set id | id in active :: active[id].game) + (set id | id in active :: active[id].game.board.cells)
    }

    /** Every entry was there before, or is a brand-new match. */
    twostate predicate Grown()
      reads this
    {
      forall id :: id in active ==>
        || (id in old(active) && active[id] == old(active[id]))
        || (fresh(active[id]) && fresh(active[id].game) && fresh(active[id].game.board.cells))
    }

    /** Different entries are different matches on different boards. */
    ghost predicate Valid()
      reads this
    {
      && (forall id :: id in active ==> active[id].game.Valid())
      && (forall i, j :: i in active && j in active && i != j ==>
            active[i].game != active[j].game && active[i].game.board.cells != active[j].game.board.cells)
    }

    ghost function Value(): GamesValue
      requires Valid()
      reads this, Live()
    {
      GamesValue(map id | id in active :: active[id].Value(), byPlayer)
    }

    constructor ()
      ensures Valid() && Value() == NO_MATCHES
    {
      active, byPlayer := map[], map[];
    }

    /** The lock-held part of Start, with both players already loaded and a new ID drawn: the snapshot
        to save and the notices to send, in that order, before the lock is released. */
    method Start(id: MatchID, x: PlayerID, o: PlayerID, xName: string, oName: string)
      returns (r: Result<(MatchRecord, seq<Notice>)>)
      requires Valid()
      modifies this
      ensures Valid() && Grown()
      ensures match StartMatch(old(Value()), id, x, o, xName, oName)
              case Err(e) => r == Err(e) && Value() == old(Value())
              case Ok(g) => Value() == g && r == Ok((RecordOf(g.active[id].game), NoticesOf(g.active[id], MatchStarted)))
    {
      var entry := Admit(id, x, o, xName, oName);
      if entry.Err? {
        return Err(entry.error);
      }
      label Entered:
      ghost var g := Value();
      assert g.active[id] == entry.value.Value();
      var rec := entry.value.Record();
      var sent := entry.value.Notices(MatchStarted);
      AllocationChangesNothing@Entered();
      r := Ok((rec, sent));
    }

    method Admit(id: MatchID, x: PlayerID, o: PlayerID, xName: string, oName: string) returns (r: Result<ActiveMatch>)
      requires Valid()
      modifies this
      ensures Valid() && Grown()
      ensures match StartMatch(old(Value()), id, x, o, xName, oName)
              case Err(e) => r == Err(e) && Value() == old(Value())
              case Ok(g) => Value() == g && r.Ok? && id in active && active[id] == r.value
    {
      var game := Match.New(id, x, o);
      if game.Err? {
        AllocationChangesNothing();
        return Err(game.error);
      }
      var entry := new ActiveMatch(game.value, map[x := xName, o := oName]);
      if x in byPlayer || o in byPlayer {
        AllocationChangesNothing();
        return Err(AlreadyInMatch);
      }
      AllocationChangesNothing();
      Add(entry);
      r := Ok(entry);
    }

    /** Entries kept under their IDs keep their values while the matches themselves are left alone. */
    twostate lemma KeptEntries()
      requires old(Valid()) && Valid() && unchanged(old(Live()))
      ensures forall id :: id in active && id in old(active) && active[id] == old(active[id]) ==>
                Value().active[id] == old(Value()).active[id]
    {
    }

    twostate lemma AllocationChangesNothing()
      requires old(Valid()) && unchanged(this) && unchanged(old(Live()))
      ensures Valid() && Value() == old(Value())
    {
      KeptEntries();
      assert Value().active == old(Value()).active;
    }

    method Add(entry: ActiveMatch)
      requires Valid() && entry.game.Valid()
      requires forall i :: i in active ==> active[i].game != entry.game && active[i].game.board.cells != entry.game.board.cells
      modifies this
      ensures Valid() && active == old(active)[entry.game.id := entry]
      ensures Value() == Enter(old(Value()), entry.Value())
    {
      var id := entry.game.id;
      active := active[id := entry];
      byPlayer := byPlayer[entry.game.Seat(X) := id];
      byPlayer := byPlayer[entry.game.Seat(O) := id];
      Added(entry);
    }

    twostate lemma Added(entry: ActiveMatch)
      requires old(Valid()) && Valid() && entry.game.Valid() && unchanged(old(Live()))
      requires unchanged(entry.game) && unchanged(entry.game.board.cells)
      requires active == old(active)[entry.game.id := entry]
      requires byPlayer == old(byPlayer)[entry.game.Seat(X) := entry.game.id][entry.game.Seat(O) := entry.game.id]
      ensures Value() == Enter(old(Value()), entry.Value())
    {
      KeptEntries();
      EnteredEntries(old(Value()), entry.Value(), Value());
    }

    method InMatch(p: PlayerID) returns (busy: bool)
      requires Valid()
      ensures busy == (p in Value().byPlayer)
    {
      return p in byPlayer;
    }

    method State(p: PlayerID) returns (r: Result<MatchState>)
      requires Valid()
      ensures r == match Lookup(Value(), p)
                   case None => Err(NoActiveMatch)
                   case Some(id) => Ok(StateFor(Value().active[id], p))
    {
      var entry := Find(p);
      if entry == null {
        return Err(NoActiveMatch);
      }
      var s := entry.State(p);
      return Ok(s);
    }

    /** Applies a move to one match, in place; the other entries keep their values. */
    method Play(id: MatchID, p: PlayerID, cell: Int64) returns (err: Option<Error>)
      requires Valid() && id in active
      modifies active[id].game, active[id].game.board.cells
      ensures Value() == Put(old(Value()), id, active[id].Value())
      ensures match ApplyMove(old(active[id].game.Value()), p, cell)
              case Err(e) => err == Some(e) && active[id].game.Value() == old(active[id].game.Value())
              case Ok(m) => err == None && active[id].game.Value() == m
    {
      err := active[id].game.Apply(p, cell);
      OthersUntouched(id);
    }

    twostate lemma OthersUntouched(id: MatchID)
      requires old(Valid()) && unchanged(this) && id in active
      requires unchanged(old(Live()) - {active[id].game, active[id].game.board.cells})
      ensures Value() == Put(old(Value()), id, active[id].Value())
    {
      OtherEntriesKept(id);
      ReplacedEntry(old(Value()), id, active[id].Value(), Value());
    }

    twostate lemma OtherEntriesKept(id: MatchID)
      requires old(Valid()) && unchanged(this) && id in active
      requires unchanged(old(Live()) - {active[id].game, active[id].game.board.cells})
      ensures forall i :: i in active && i != id ==> Value().active[i] == old(Value()).active[i]
    {
      assert forall i :: i in active ==> active[i].game in old(Live()) && active[i].game.board.cells in old(Live());
    }

    /** The lock-held part of Move: the mover's view, and the snapshot, results and notices left to handle
        once the lock is released. A finishing move drops the match first. */
    method Move(p: PlayerID, cell: Int64)
      returns (r: Result<(MatchState, MatchRecord, seq<SeatResult>, seq<Notice>)>)
      requires Valid()
      modifies this, Live()
      ensures Valid() && Grown()
      ensures match MoveInMatch(old(Value()), p, cell)
              case Err(e) => r == Err(e) && Value() == old(Value())
              case Ok(mv) =>
                && Value() == mv.after
                && r == Ok((StateFor(mv.played, p), RecordOf(mv.played.game), mv.Results(), NoticesOf(mv.played, mv.Kind())))
    {
      hide StateFor, NoticesOf, ResultsOf, RecordOf, ApplyMove, AfterMove, Put;
      var entry := Find(p);
      if entry == null {
        AllocationChangesNothing();
        return Err(NoActiveMatch);
      }
      AllocationChangesNothing();
      r := MoveIn(byPlayer[p], p, cell);
    }

    /** What Move does with the match found. */
    method MoveIn(id: MatchID, p: PlayerID, cell: Int64)
      returns (r: Result<(MatchState, MatchRecord, seq<SeatResult>, seq<Notice>)>)
      requires Valid() && id in active
      modifies this, active[id].game, active[id].game.board.cells
      ensures Valid() && Grown()
      ensures match ApplyMove(old(active[id].game.Value()), p, cell)
              case Err(e) => r == Err(e) && Value() == old(Value())
              case Ok(m) =>
                var a := old(active[id].Value()).(game := m);
                var mv := AfterMove(Put(old(Value()), id, a), a);
                && Value() == mv.after
                && r == Ok((StateFor(mv.played, p), RecordOf(mv.played.game), mv.Results(), NoticesOf(mv.played, mv.Kind())))
    {
      hide StateFor, NoticesOf, ResultsOf, RecordOf, ApplyMove, AfterMove;
      var entry := active[id];
      var err := Play(id, p, cell);
      if err != None {
        PutBack(old(Value()), id);
        return Err(err.value);
      }
      r := Finish(entry, p);
    }

    /** What Move does after an accepted move on the entry. */
    method Finish(entry: ActiveMatch, p: PlayerID)
      returns (r: Result<(MatchState, MatchRecord, seq<SeatResult>, seq<Notice>)>)
      requires Valid() && entry.game.Valid()
      modifies this
      ensures Valid() && Grown()
      ensures var mv := AfterMove(old(Value()), old(entry.Value()));
              && Value() == mv.after
              && r == Ok((StateFor(mv.played, p), RecordOf(mv.played.game), mv.Results(), NoticesOf(mv.played, mv.Kind())))
    {
      hide StateFor, NoticesOf, ResultsOf, RecordOf, Forget;
      var kind := StateChanged;
      var results := [];
      if entry.game.status != InProgress {
        kind := MatchEnded;
        results := entry.Results();
        AllocationChangesNothing();
        Drop(entry);
      }
      label Settled:
      assert Value() == AfterMove(old(Value()), old(entry.Value())).after;
      var rec := entry.Record();
      var notices := entry.Notices(kind);
      var state := entry.State(p);
      AllocationChangesNothing@Settled();
      r := Ok((state, rec, results, notices));
    }

    /** The lock-held part of Abandon: the notice left to send. */
    method Abandon(p: PlayerID) returns (r: Option<Notice>)
      requires Valid()
      modifies this
      ensures Valid() && Grown()
      ensures match AbandonMatch(old(Value()), p)
              case None => r == None && Value() == old(Value())
              case Some((g, n)) => r == Some(n) && Value() == g
    {
      hide FarewellOf, Forget;
      var entry := Find(p);
      if entry == null {
        AllocationChangesNothing();
        return None;
      }
      AllocationChangesNothing();
      var n := GiveUp(entry, p);
      return Some(n);
    }

    /** What Abandon does with the entry found. */
    method GiveUp(entry: ActiveMatch, p: PlayerID) returns (n: Notice)
      requires Valid() && entry.game.Valid()
      modifies this
      ensures Valid() && Grown()
      ensures n == FarewellOf(old(entry.Value()), p)
      ensures Value() == Forget(old(Value()), old(entry.game.Value()))
    {
      hide FarewellOf, Forget;
      n := entry.Farewell(p);
      AllocationChangesNothing();
      Drop(entry);
    }

    method Find(p: PlayerID) returns (entry: ActiveMatch?)
      requires Valid()
      ensures match Lookup(Value(), p)
              case None => entry == null
              case Some(id) => id in active && entry == active[id]
    {
      if p !in byPlayer {
        return null;
      }
      if byPlayer[p] !in active {
        return null;
      }
      return active[byPlayer[p]];
    }

    method Drop(entry: ActiveMatch)
      requires Valid() && entry.game.Valid()
      modifies this
      ensures Valid() && Grown()
      ensures Value() == Forget(old(Value()), old(entry.game.Value()))
    {
      ghost var was, m := Value(), entry.game.Value();
      active := active - {entry.game.id};
      byPlayer := byPlayer - {entry.game.Seat(X)};
      byPlayer := byPlayer - {entry.game.Seat(O)};
      KeptEntries();
      ForgottenEntries(was, m, Value());
    }
  }

  lemma ForgottenEntries(was: GamesValue, m: MatchValue, g: GamesValue)
    requires g.active.Keys == was.active.Keys - {m.id} && g.byPlayer == was.byPlayer - {m.x} - {m.o}
    requires forall id :: id in g.active ==> g.active[id] == was.active[id]
    ensures g == Forget(was, m)
  {
    assert g.active == was.active - {m.id};
    assert g.byPlayer == was.byPlayer - {m.x, m.o};
  }

  lemma ReplacedEntry(was: GamesValue, id: MatchID, a: ActiveValue, g: GamesValue)
    requires g.active.Keys == was.active.Keys && g.byPlayer == was.byPlayer && id in g.active && g.active[id] == a
    requires forall i :: i in g.active && i != id ==> g.active[i] == was.active[i]
    ensures g == Put(was, id, a)
  {
    assert g.active == was.active[id := a];
  }

  lemma EnteredEntries(was: GamesValue, a: ActiveValue, g: GamesValue)
    requires var m := a.game; g.byPlayer == was.byPlayer[m.x := m.id][m.o := m.id]
    requires g.active.Keys == was.active.Keys + {a.game.id} && g.active[a.game.id] == a
    requires forall i :: i in g.active && i != a.game.id ==> g.active[i] == was.active[i]
    ensures g == Enter(was, a)
  {
    assert g.active == was.active[a.game.id := a];
  }
}
