/** Which move lists are legal games, and the position each one leads to, stated without replaying anything. */
module Histories {
  import opened Base
  import opened Boards
  import opened Matches

  /** X makes the even-numbered moves, O the odd ones. */
  function Side(k: nat): Mark {
    if k % 2 == 0 then X else O
  }

  lemma SidesAlternate(k: nat)
    ensures Opponent(Side(k)) == Side(k + 1)
  {
  }

  function Played(h: seq<Move>, m: Mark): set<int> {
    set i | 0 <= i < |h| && h[i].mark == m :: h[i].cell as int
  }

  ghost predicate HasWinner(h: seq<Move>) {
    Wins(Played(h, X)) || Wins(Played(h, O))
  }

  ghost predicate IsOver(h: seq<Move>) {
    HasWinner(h) || |h| == BOARD_SIZE
  }

  /** Marks alternate from X, cells are on the board and distinct, and nothing follows a completed line. */
  ghost predicate LegalHistory(h: seq<Move>) {
    && (forall i :: 0 <= i < |h| ==> h[i].mark == Side(i))
    && (forall i :: 0 <= i < |h| ==> 0 <= h[i].cell < BOARD_SIZE)
    && (forall i, j :: 0 <= i < j < |h| ==> h[i].cell != h[j].cell)
    && (forall n :: 0 <= n < |h| ==> !HasWinner(h[..n]))
  }

  ghost function StatusOf(h: seq<Move>): Status {
    if Wins(Played(h, X)) then XWon
    else if Wins(Played(h, O)) then OWon
    else if |h| == BOARD_SIZE then Drawn
    else InProgress
  }

  /** The side to move; once the game is over it stays with whoever moved last. */
  ghost function TurnOf(h: seq<Move>): Mark {
    if IsOver(h) && |h| > 0 then Side(|h| - 1) else Side(|h|)
  }

  function OccupantOf(h: seq<Move>, c: int): Mark {
    if c in Played(h, X) then X else if c in Played(h, O) then O else Empty
  }

  function BoardOf(h: seq<Move>): Cells {
    seq(BOARD_SIZE, c => OccupantOf(h, c))
  }

  ghost function PositionOf(id: MatchID, x: PlayerID, o: PlayerID, h: seq<Move>): MatchValue {
    MatchValue(id, x, o, BoardOf(h), TurnOf(h), StatusOf(h), h)
  }

  /** A match value that some legal history leads to. */
  ghost predicate Genuine(m: MatchValue) {
    m.x != m.o && LegalHistory(m.moves) && m == PositionOf(m.id, m.x, m.o, m.moves)
  }

  /** Why the move mv may not follow the history h, most general reason first. */
  ghost function Offence(h: seq<Move>, mv: Move): Option<Error> {
    if IsOver(h) then Some(MatchFinished)
    else if mv.mark == Empty then Some(NotAParticipant)
    else if mv.mark != Side(|h|) then Some(NotYourTurn)
    else if !(0 <= mv.cell < BOARD_SIZE) then Some(CellOutOfBounds)
    else if exists i :: 0 <= i < |h| && h[i].cell == mv.cell then Some(CellOccupied)
    else None
  }

  ghost function FirstOffence(h: seq<Move>): Option<Error> {
    if h == [] then None
    else
      var before := FirstOffence(h[..|h| - 1]);
      if before.Some? then before else Offence(h[..|h| - 1], h[|h| - 1])
  }

  // ----- legality grows one move at a time -----

  function AllCells(): set<int> {
    {0, 1, 2, 3, 4, 5, 6, 7, 8}
  }

  function Taken(h: seq<Move>): set<int> {
    set i | 0 <= i < |h| :: h[i].cell as int
  }

  lemma TakenBySides(h: seq<Move>)
    requires forall i :: 0 <= i < |h| ==> h[i].mark == Side(i)
    ensures Taken(h) == Played(h, X) + Played(h, O)
  {
    forall c | c in Taken(h)
      ensures c in Played(h, X) + Played(h, O)
    {
      var i :| 0 <= i < |h| && h[i].cell as int == c;
      assert c in Played(h, Side(i));
    }
  }

  /** At most nine moves fit, and nine of them fill the board. */
  lemma AtMostNineMoves(h: seq<Move>)
    requires LegalHistory(h)
    ensures |h| <= BOARD_SIZE
    ensures |h| == BOARD_SIZE <==> Taken(h) == AllCells()
  {
    CellsAreCounted(h);
    NineCells();
    assert Taken(h) <= AllCells();
    SubsetCardinality(Taken(h), AllCells());
  }

  lemma NineCells()
    ensures |AllCells()| == BOARD_SIZE
  {
    assert |{0, 1, 2, 3}| == 4;
    assert |{4, 5, 6, 7}| == 4;
    assert AllCells() == {0, 1, 2, 3} + {4, 5, 6, 7} + {8};
  }

  lemma SubsetCardinality(a: set<int>, b: set<int>)
    requires a <= b
    ensures |a| <= |b| && (|a| == |b| <==> a == b)
  {
    assert b == a + (b - a);
    assert |b| == |a| + |b - a|;
  }

  lemma {:induction false} CellsAreCounted(h: seq<Move>)
    requires forall i, j :: 0 <= i < j < |h| ==> h[i].cell != h[j].cell
    ensures |Taken(h)| == |h|
  {
    if h != [] {
      var n := |h| - 1;
      CellsAreCounted(h[..n]);
      TakenGrows(h[..n], h[n]);
      assert h == h[..n] + [h[n]];
    }
  }

  lemma TakenGrows(h: seq<Move>, mv: Move)
    ensures Taken(h + [mv]) == Taken(h) + {mv.cell as int}
  {
    var g := h + [mv];
    assert g[|h|] == mv;
    forall i | 0 <= i < |h|
      ensures h[i].cell as int in Taken(g)
    {
      assert g[i] == h[i];
    }
  }

  lemma LegalPrefix(h: seq<Move>, n: nat)
    requires LegalHistory(h) && n <= |h|
    ensures LegalHistory(h[..n])
  {
    forall k | 0 <= k < n
      ensures !HasWinner(h[..n][..k])
    {
      assert h[..n][..k] == h[..k];
    }
  }

  lemma LegalExtends(h: seq<Move>, mv: Move)
    requires LegalHistory(h)
    ensures LegalHistory(h + [mv]) <==> Offence(h, mv) == None
  {
    var g := h + [mv];
    assert g[..|h|] == h;
    forall n | 0 <= n < |h|
      ensures g[..n] == h[..n]
    {
    }
    if LegalHistory(g) {
      assert g[|h|] == mv;
      AtMostNineMoves(g);
    }
    if Offence(h, mv) == None {
      forall n | 0 <= n < |g|
        ensures !HasWinner(g[..n])
      {
        assert n < |h| ==> g[..n] == h[..n];
      }
    }
  }

  lemma {:induction false} NoOffenceIsLegal(h: seq<Move>)
    ensures FirstOffence(h) == None <==> LegalHistory(h)
  {
    if h != [] {
      var n := |h| - 1;
      var g := h[..n];
      NoOffenceIsLegal(g);
      assert h == g + [h[n]];
      if LegalHistory(h) {
        LegalPrefix(h, n);
      }
      if LegalHistory(g) {
        LegalExtends(g, h[n]);
      }
    }
  }

  lemma {:induction false} OffenceIsReported(h: seq<Move>, k: nat)
    requires k < |h| && LegalHistory(h[..k]) && Offence(h[..k], h[k]).Some?
    ensures FirstOffence(h) == Offence(h[..k], h[k])
  {
    var n := |h| - 1;
    if k == n {
      NoOffenceIsLegal(h[..n]);
    } else {
      assert h[..n][..k] == h[..k];
      OffenceIsReported(h[..n], k);
    }
  }

  lemma {:induction false} ReportedOffence(h: seq<Move>) returns (k: nat)
    requires FirstOffence(h).Some?
    ensures k < |h| && LegalHistory(h[..k]) && FirstOffence(h) == Offence(h[..k], h[k])
  {
    var n := |h| - 1;
    if FirstOffence(h[..n]).Some? {
      k := ReportedOffence(h[..n]);
      assert h[..n][..k] == h[..k];
    } else {
      k := n;
      NoOffenceIsLegal(h[..n]);
    }
  }

  /** Legal histories are exactly those with no offence at any move; otherwise the error is the
      offence that the first illegal move commits against the legal history before it. */
  lemma FirstOffenceMeaning(h: seq<Move>)
    ensures FirstOffence(h) == None <==> LegalHistory(h)
    ensures forall e :: FirstOffence(h) == Some(e) <==>
              exists k :: 0 <= k < |h| && LegalHistory(h[..k]) && Offence(h[..k], h[k]) == Some(e)
  {
    NoOffenceIsLegal(h);
    if FirstOffence(h).Some? {
      var k := ReportedOffence(h);
    }
    forall k | 0 <= k < |h| && LegalHistory(h[..k]) && Offence(h[..k], h[k]).Some?
      ensures FirstOffence(h) == Offence(h[..k], h[k])
    {
      OffenceIsReported(h, k);
    }
  }

  // ----- the board of a history -----

  lemma PlayedGrows(h: seq<Move>, mv: Move, m: Mark)
    ensures Played(h + [mv], m) == Played(h, m) + if mv.mark == m then {mv.cell as int} else {}
  {
    var g := h + [mv];
    assert g[|h|] == mv;
    forall c | c in Played(h, m)
      ensures c in Played(g, m)
    {
      var i :| 0 <= i < |h| && h[i].mark == m && h[i].cell as int == c;
      assert g[i] == h[i];
    }
  }

  lemma SidesAreDisjoint(h: seq<Move>)
    requires LegalHistory(h)
    ensures Played(h, X) * Played(h, O) == {}
    ensures Played(h, X) + Played(h, O) == Taken(h) <= AllCells()
  {
    TakenBySides(h);
  }

  lemma BoardShowsHistory(h: seq<Move>)
    requires LegalHistory(h)
    ensures Marked(BoardOf(h), X) == Played(h, X)
    ensures Marked(BoardOf(h), O) == Played(h, O)
    ensures Marked(BoardOf(h), Empty) == AllCells() - Taken(h)
    ensures Marked(BoardOf(h), Empty) == {} <==> |h| == BOARD_SIZE
  {
    SidesAreDisjoint(h);
    AtMostNineMoves(h);
    SetsOnBoard(BoardOf(h), Played(h, X), Played(h, O));
    assert AllCells() == Taken(h) + (AllCells() - Taken(h));
  }

  lemma SetsOnBoard(b: Cells, xs: set<int>, os: set<int>)
    requires xs * os == {} && xs + os <= AllCells()
    requires forall c :: 0 <= c < BOARD_SIZE ==> b[c] == if c in xs then X else if c in os then O else Empty
    ensures Marked(b, X) == xs && Marked(b, O) == os && Marked(b, Empty) == AllCells() - (xs + os)
  {
    forall c
      ensures c in Marked(b, X) <==> c in xs
      ensures c in Marked(b, O) <==> c in os
      ensures c in Marked(b, Empty) <==> c in AllCells() - (xs + os)
    {
      assert c in AllCells() <==> 0 <= c < BOARD_SIZE;
    }
  }

  lemma BoardGrows(h: seq<Move>, mv: Move)
    requires LegalHistory(h) && Offence(h, mv) == None
    ensures BoardOf(h + [mv]) == BoardOf(h)[mv.cell := mv.mark]
  {
    SidesAreDisjoint(h);
    PlayedGrows(h, mv, X);
    PlayedGrows(h, mv, O);
    assert mv.cell as int !in Taken(h);
  }

  /** A line completed by the last move runs through its cell. */
  lemma LineThroughLast(h: seq<Move>, m: Mark, k: int)
    requires h != [] && !HasWinner(h[..|h| - 1]) && m != Empty
    requires 0 <= k < 8 && Line(k) <= Played(h, m)
    ensures h[|h| - 1].mark == m && h[|h| - 1].cell as int in Line(k)
  {
    var g, last := h[..|h| - 1], h[|h| - 1];
    assert h == g + [last];
    PlayedGrows(g, last, m);
    assert !(Line(k) <= Played(g, m));
  }

  /** X and O never both own a line; the winner moved last, and every line it owns runs through the last cell. */
  lemma WinnerMovedLast(h: seq<Move>, m: Mark)
    requires LegalHistory(h) && m != Empty && Wins(Played(h, m))
    ensures |h| > 0 && h[|h| - 1].mark == m
    ensures !Wins(Played(h, Opponent(m)))
    ensures forall k :: 0 <= k < 8 && Line(k) <= Played(h, m) ==> h[|h| - 1].cell as int in Line(k)
  {
    var k :| 0 <= k < 8 && Line(k) <= Played(h, m);
    var c :| c in Line(k);
    assert c in Played(h, m);
    forall m': Mark, k | m' != Empty && 0 <= k < 8 && Line(k) <= Played(h, m')
      ensures h[|h| - 1].mark == m' && h[|h| - 1].cell as int in Line(k)
    {
      LineThroughLast(h, m', k);
    }
  }

  /** The scan of the board and the history agree on who has won. */
  lemma WinnerShowsHistory(h: seq<Move>)
    requires LegalHistory(h)
    ensures WinnerOf(BoardOf(h)) == X <==> Wins(Played(h, X))
    ensures WinnerOf(BoardOf(h)) == O <==> Wins(Played(h, O))
  {
    var b := BoardOf(h);
    BoardShowsHistory(h);
    ScanOrderIrrelevant(b);
    if Wins(Played(h, X)) {
      WinnerMovedLast(h, X);
    }
    assert HasLine(b, X) <==> Wins(Played(h, X));
    assert HasLine(b, O) <==> Wins(Played(h, O));
  }

  // ----- live play and replay against the closed form -----

  lemma NoMovesNoWinner()
    ensures LegalHistory([]) && !IsOver([])
  {
    forall k | 0 <= k < 8
      ensures !(Line(k) <= {})
    {
      var c :| c in Line(k);
    }
  }

  lemma CellsShowHistory(h: seq<Move>)
    requires LegalHistory(h)
    ensures forall c :: 0 <= c < 9 ==> (BoardOf(h)[c] == X <==> c in Played(h, X)) && (BoardOf(h)[c] == O <==> c in Played(h, O))
  {
    hide LegalHistory, Played;
    SidesAreDisjoint(h);
    forall c | 0 <= c < 9
      ensures (BoardOf(h)[c] == X <==> c in Played(h, X)) && (BoardOf(h)[c] == O <==> c in Played(h, O))
    {
      assert BoardOf(h)[c] == OccupantOf(h, c);
      assert !(c in Played(h, X) && c in Played(h, O)) by {
        assert c !in Played(h, X) * Played(h, O);
      }
    }
  }

  lemma StatusShowsHistory(h: seq<Move>)
    requires LegalHistory(h)
    ensures StatusOf(h) == XWon <==> Wins(Played(h, X))
    ensures StatusOf(h) == OWon <==> Wins(Played(h, O))
    ensures StatusOf(h) == Drawn <==> |h| == 9 && !Wins(Played(h, X)) && !Wins(Played(h, O))
    ensures TurnOf(h) == if StatusOf(h) == InProgress then Side(|h|) else if h == [] then X else Side(|h| - 1)
  {
    hide LegalHistory, Played, Wins;
    if Wins(Played(h, X)) {
      WinnerMovedLast(h, X);
    }
  }

  lemma SetCellVerdict(h: seq<Move>, mv: Move)
    requires LegalHistory(h) && !IsOver(h) && mv.mark == Side(|h|)
    ensures SetCell(BoardOf(h), mv.cell, mv.mark) ==
            match Offence(h, mv)
            case Some(e) => Err(e)
            case None => Ok(BoardOf(h + [mv]))
  {
    if 0 <= mv.cell < BOARD_SIZE {
      SidesAreDisjoint(h);
      assert BoardOf(h)[mv.cell] != Empty <==> mv.cell as int in Taken(h);
      if Offence(h, mv) == None {
        BoardGrows(h, mv);
      }
    }
  }

  /** Settling right after a legal move gives the status and turn its history determines. */
  lemma SettleVerdict(m: MatchValue, h: seq<Move>)
    requires LegalHistory(h) && h != [] && m.moves == h && m.board == BoardOf(h)
    requires m.turn == Side(|h| - 1) && m.status == InProgress
    ensures Settle(m, m.turn) == PositionOf(m.id, m.x, m.o, h)
  {
    hide LegalHistory, BoardOf, Marked, WinnerOf, Wins, Played;
    WinnerShowsHistory(h);
    assert Marked(m.board, Empty) == {} <==> |h| == BOARD_SIZE by {
      BoardShowsHistory(h);
    }
    SidesAlternate(|h| - 1);
    var s := Settle(m, m.turn);
    assert s.status == StatusOf(h);
    assert s.turn == TurnOf(h);
    assert s == m.(status := s.status, turn := s.turn);
  }

  /** One call of ApplyMove, on any match that legal play can reach: refused for exactly the
      offence it would be, otherwise the position of the longer history. */
  lemma ApplyMoveVerdict(m: MatchValue, p: PlayerID, cell: Int64)
    requires Genuine(m)
    ensures var mv := Move(MarkOf(m.x, m.o, p), cell);
            ApplyMove(m, p, cell) ==
            match Offence(m.moves, mv)
            case Some(e) => Err(e)
            case None => Ok(PositionOf(m.id, m.x, m.o, m.moves + [mv]))
    ensures ApplyMove(m, p, cell).Ok? ==> Genuine(ApplyMove(m, p, cell).value)
  {
    var h, mv := m.moves, Move(MarkOf(m.x, m.o, p), cell);
    if !IsOver(h) && mv.mark == Side(|h|) {
      SetCellVerdict(h, mv);
      if Offence(h, mv) == None {
        LegalExtends(h, mv);
        SettleVerdict(m.(board := BoardOf(h + [mv]), moves := h + [mv]), h + [mv]);
      }
    }
  }

  /** The marks the replay really uses: each stored mark is looked up as a player and back. */
  function Effective(x: PlayerID, o: PlayerID, ms: seq<Move>): (es: seq<Move>)
    ensures |es| == |ms|
  {
    seq(|ms|, i requires 0 <= i < |ms| => Move(MarkOf(x, o, PlayerOf(x, o, ms[i].mark)), ms[i].cell))
  }

  /** A replayed move is made by whoever plays its mark; one with no mark is made by the empty ID, if that is a player. */
  lemma EffectiveCases(x: PlayerID, o: PlayerID, ms: seq<Move>, i: nat)
    requires x != o && i < |ms|
    ensures Effective(x, o, ms)[i].cell == ms[i].cell
    ensures Effective(x, o, ms)[i].mark ==
            if ms[i].mark != Empty then ms[i].mark else if x == "" then X else if o == "" then O else Empty
  {
  }

  lemma EffectiveOfRealMarks(x: PlayerID, o: PlayerID, ms: seq<Move>)
    requires x != o
    requires forall i :: 0 <= i < |ms| ==> ms[i].mark != Empty || (x != "" && o != "")
    ensures Effective(x, o, ms) == ms
  {
  }

  lemma {:induction false} ReplayVerdict(m: MatchValue, ms: seq<Move>)
    requires m.x != m.o && NewMatch(m.id, m.x, m.o) == Ok(m)
    ensures var es := Effective(m.x, m.o, ms);
            Replay(m, ms) ==
            match FirstOffence(es)
            case Some(e) => Err(e)
            case None => Ok(PositionOf(m.id, m.x, m.o, es))
  {
    var es := Effective(m.x, m.o, ms);
    NoMovesNoWinner();
    if ms == [] {
      assert BoardOf(es) == EMPTY_BOARD;
    } else {
      var n := |ms| - 1;
      ReplayVerdict(m, ms[..n]);
      var g := Effective(m.x, m.o, ms[..n]);
      assert g == es[..n];
      assert es == g + [es[n]];
      FirstOffenceMeaning(g);
      if FirstOffence(g) == None {
        ApplyMoveVerdict(PositionOf(m.id, m.x, m.o, g), PlayerOf(m.x, m.o, ms[n].mark), ms[n].cell);
      }
    }
  }

  /** RestoreMatch on every input: two equal players are refused; otherwise it succeeds exactly on
      legal histories, with the position the history determines, and fails with the error of the
      first offending move. */
  lemma RestoreVerdict(id: MatchID, x: PlayerID, o: PlayerID, ms: seq<Move>)
    ensures var es := Effective(x, o, ms);
            RestoreMatch(id, x, o, ms) ==
            if x == o then Err(SamePlayer)
            else match FirstOffence(es)
                 case Some(e) => Err(e)
                 case None => Ok(PositionOf(id, x, o, es))
    ensures RestoreMatch(id, x, o, ms).Ok? <==> x != o && LegalHistory(Effective(x, o, ms))
  {
    FirstOffenceMeaning(Effective(x, o, ms));
    if x != o {
      ReplayVerdict(NewMatch(id, x, o).value, ms);
    }
  }

  /** A match replays from its own move list into itself. */
  lemma GenuineReplays(m: MatchValue)
    ensures Genuine(m) <==> m.x != m.o && (forall i :: 0 <= i < |m.moves| ==> m.moves[i].mark != Empty)
                            && RestoreMatch(m.id, m.x, m.o, m.moves) == Ok(m)
  {
    RestoreVerdict(m.id, m.x, m.o, m.moves);
    if m.x != m.o && forall i :: 0 <= i < |m.moves| ==> m.moves[i].mark != Empty {
      EffectiveOfRealMarks(m.x, m.o, m.moves);
    }
    FirstOffenceMeaning(m.moves);
  }

  lemma NewMatchIsGenuine(id: MatchID, x: PlayerID, o: PlayerID)
    requires x != o
    ensures Genuine(NewMatch(id, x, o).value)
    ensures NewMatch(id, x, o).value == PositionOf(id, x, o, [])
  {
    NoMovesNoWinner();
    assert BoardOf([]) == EMPTY_BOARD;
  }

  // ----- any sequence of calls -----

  datatype Call = Call(player: PlayerID, cell: Int64)

  /** Calls made one after the other on one match; a refused call changes nothing. */
  function PlayAll(m: MatchValue, calls: seq<Call>): MatchValue {
    if calls == [] then m
    else
      var m' := PlayAll(m, calls[..|calls| - 1]);
      var c := calls[|calls| - 1];
      match ApplyMove(m', c.player, c.cell)
      case Err(_) => m'
      case Ok(m'') => m''
  }

  /** Whatever anyone calls, with whatever cells, the match stays the position of a legal history of
      at most nine moves, it settles only on a line or a full board, and both players never own a line. */
  lemma {:induction false} AnyPlayIsLegal(id: MatchID, x: PlayerID, o: PlayerID, calls: seq<Call>)
    requires x != o
    ensures var m := PlayAll(NewMatch(id, x, o).value, calls);
            && Genuine(m) && m.id == id && m.x == x && m.o == o
            && |m.moves| <= BOARD_SIZE
            && !(HasLine(m.board, X) && HasLine(m.board, O))
            && (m.status == XWon <==> HasLine(m.board, X))
            && (m.status == OWon <==> HasLine(m.board, O))
            && (m.status == Drawn <==> Marked(m.board, Empty) == {} && !HasLine(m.board, X) && !HasLine(m.board, O))
  {
    var start := NewMatch(id, x, o).value;
    if calls == [] {
      NewMatchIsGenuine(id, x, o);
    } else {
      AnyPlayIsLegal(id, x, o, calls[..|calls| - 1]);
      var c := calls[|calls| - 1];
      ApplyMoveVerdict(PlayAll(start, calls[..|calls| - 1]), c.player, c.cell);
    }
    var m := PlayAll(start, calls);
    AtMostNineMoves(m.moves);
    BoardShowsHistory(m.moves);
    if Wins(Played(m.moves, X)) {
      WinnerMovedLast(m.moves, X);
    }
  }

  /** After a refused call the match is untouched; after an accepted one the history is one longer. */
  lemma AcceptedMovesAppend(m: MatchValue, p: PlayerID, cell: Int64)
    requires Genuine(m) && ApplyMove(m, p, cell).Ok?
    ensures var m' := ApplyMove(m, p, cell).value;
            && m'.moves == m.moves + [Move(MarkOf(m.x, m.o, p), cell)]
            && MarkOf(m.x, m.o, p) == Side(|m.moves|) == m.turn
            && (m'.status == InProgress ==> m'.turn == Opponent(m.turn))
            && (m'.status != InProgress ==> m'.turn == m.turn)
  {
    ApplyMoveVerdict(m, p, cell);
  }
}
