/** The match aggregate: its rules as functions on values, and the object that carries them out in place. */
module Matches {
  import opened Base
  import opened Boards

  datatype Status = InProgress | XWon | OWon | Drawn

  datatype Outcome = Undecided | Win | Loss | Draw

  datatype Move = Move(mark: Mark, cell: Int64)

  /** The content of a match: its fields, with the two-entry player map spelt out. */
  datatype MatchValue = MatchValue(
    id: MatchID, x: PlayerID, o: PlayerID,
    board: Cells, turn: Mark, status: Status, moves: seq<Move>)

  // ----- the rules on values -----

  function NewMatch(id: MatchID, x: PlayerID, o: PlayerID): Result<MatchValue> {
    if x == o then Err(SamePlayer)
    else Ok(MatchValue(id, x, o, EMPTY_BOARD, X, InProgress, []))
  }

  /** Who plays a mark; a mark nobody plays reads as the empty ID, as a missing map key does. */
  function PlayerOf(x: PlayerID, o: PlayerID, mark: Mark): PlayerID {
    match mark
    case X => x
    case O => o
    case Empty => ""
  }

  /** The mark p plays, Empty when p is not in the match. */
  function MarkOf(x: PlayerID, o: PlayerID, p: PlayerID): Mark {
    if p == x then X else if p == o then O else Empty
  }

  function OpponentOf(m: MatchValue, p: PlayerID): PlayerID {
    var mark := MarkOf(m.x, m.o, p);
    if mark == Empty then "" else PlayerOf(m.x, m.o, Opponent(mark))
  }

  function OutcomeFor(m: MatchValue, p: PlayerID): Outcome {
    var mark := MarkOf(m.x, m.o, p);
    if m.status == InProgress then Undecided
    else if m.status == Drawn then Draw
    else if mark == Empty then Undecided
    else if (m.status == XWon && mark == X) || (m.status == OWon && mark == O) then Win
    else Loss
  }

  /** What follows a move: a win for the owner of a line, a draw on a full board, or the other side's turn. */
  function Settle(m: MatchValue, justPlayed: Mark): MatchValue {
    var winner := WinnerOf(m.board);
    if winner == X then m.(status := XWon)
    else if winner == O then m.(status := OWon)
    else if Marked(m.board, Empty) == {} then m.(status := Drawn)
    else m.(turn := Opponent(justPlayed))
  }

  function ApplyMove(m: MatchValue, p: PlayerID, cell: Int64): Result<MatchValue> {
    var mark := MarkOf(m.x, m.o, p);
    if m.status != InProgress then Err(MatchFinished)
    else if mark == Empty then Err(NotAParticipant)
    else if mark != m.turn then Err(NotYourTurn)
    else
      match SetCell(m.board, cell, mark)
      case Err(e) => Err(e)
      case Ok(b) => Ok(Settle(m.(board := b, moves := m.moves + [Move(mark, cell)]), mark))
  }

  /** The mark p may place now, if it is p's turn. */
  predicate ToMove(m: MatchValue, p: PlayerID) {
    (p == m.x && m.turn == X) || (p == m.o && p != m.x && m.turn == O)
  }

  /** On any match whatever, the most general objection wins: over, then outsider, then out of turn, then off the
      board, then taken; with none the mark of the side to move is placed and the move recorded. */
  lemma MoveCases(m: MatchValue, p: PlayerID, cell: Int64)
    ensures var r := ApplyMove(m, p, cell);
            && (m.status != InProgress ==> r == Err(MatchFinished))
            && (m.status == InProgress && p != m.x && p != m.o ==> r == Err(NotAParticipant))
            && (m.status == InProgress && (p == m.x || p == m.o) && !ToMove(m, p) ==> r == Err(NotYourTurn))
            && (m.status == InProgress && ToMove(m, p) ==>
                  && (cell < 0 || 8 < cell ==> r == Err(CellOutOfBounds))
                  && (0 <= cell <= 8 && m.board[cell] != Empty ==> r == Err(CellOccupied))
                  && (0 <= cell <= 8 && m.board[cell] == Empty ==>
                        r.Ok? && r.value.board == m.board[cell := m.turn] && r.value.moves == m.moves + [Move(m.turn, cell)]))
  {
  }

  /** What a match means for p: nothing while it runs, a draw to everybody, and a win or a loss to its players. */
  lemma OutcomeCases(m: MatchValue, p: PlayerID)
    requires m.x != m.o
    ensures var r := OutcomeFor(m, p);
            && (r == Win <==> (m.status == XWon && p == m.x) || (m.status == OWon && p == m.o))
            && (r == Loss <==> (m.status == XWon && p == m.o) || (m.status == OWon && p == m.x))
            && (r == Draw <==> m.status == Drawn)
  {
  }

  /** The players of a match face each other; an outsider faces nobody. */
  lemma OpponentCases(m: MatchValue, p: PlayerID)
    requires m.x != m.o
    ensures OpponentOf(m, p) == if p == m.x then m.o else if p == m.o then m.x else ""
  {
  }

  /** Replays a list of moves one after the other, stopping at the first that is refused. */
  function Replay(m: MatchValue, ms: seq<Move>): Result<MatchValue> {
    if ms == [] then Ok(m)
    else
      var last := ms[|ms| - 1];
      match Replay(m, ms[..|ms| - 1])
      case Err(e) => Err(e)
      case Ok(m') => ApplyMove(m', PlayerOf(m.x, m.o, last.mark), last.cell)
  }

  function RestoreMatch(id: MatchID, x: PlayerID, o: PlayerID, ms: seq<Move>): Result<MatchValue> {
    match NewMatch(id, x, o)
    case Err(e) => Err(e)
    case Ok(m) => Replay(m, ms)
  }

  lemma ReplayStep(m: MatchValue, ms: seq<Move>, i: nat)
    requires i < |ms|
    ensures Replay(m, ms[..i + 1]) ==
            match Replay(m, ms[..i])
            case Err(e) => Err(e)
            case Ok(m') => ApplyMove(m', PlayerOf(m.x, m.o, ms[i].mark), ms[i].cell)
  {
    assert ms[..i + 1][..i] == ms[..i];
  }

  /** Replaying past a refused move still reports that refusal. */
  lemma {:induction false} ReplayStopsAtFirstError(m: MatchValue, ms: seq<Move>, k: nat)
    requires k <= |ms| && Replay(m, ms[..k]).Err?
    ensures Replay(m, ms) == Replay(m, ms[..k])
  {
    if k == |ms| {
      assert ms[..k] == ms;
    } else {
      assert ms[..|ms| - 1][..k] == ms[..k];
      ReplayStopsAtFirstError(m, ms[..|ms| - 1], k);
    }
  }

  // ----- the object -----

  class Match {
    const id: MatchID
    const players: map<Mark, PlayerID>
    const board: Board
    var turn: Mark
    var status: Status
    var moves: seq<Move>

    ghost predicate Valid() {
      board.Valid() && players.Keys == {X, O} && players[X] != players[O]
    }

    ghost function Value(): MatchValue
      requires Valid()
      reads this, board.cells
    {
      MatchValue(id, players[X], players[O], board.Value(), turn, status, moves)
    }

    /** The player map read at a mark; a missing key reads as the empty ID. */
    function Seat(mark: Mark): (p: PlayerID)
      ensures Valid() ==> p == PlayerOf(players[X], players[O], mark)
    {
      if mark in players then players[mark] else ""
    }

    constructor (id: MatchID, x: PlayerID, o: PlayerID)
      requires x != o
      ensures Valid() && fresh(board) && fresh(board.cells)
      ensures NewMatch(id, x, o) == Ok(Value())
    {
      this.id := id;
      players := map[X := x, O := o];
      board := new Board();
      turn := X;
      status := InProgress;
      moves := [];
    }

    /** Reads the side p plays by walking the player map in whatever order it comes. */
    method SideOf(p: PlayerID) returns (mark: Mark, ok: bool)
      requires Valid()
      ensures mark == MarkOf(players[X], players[O], p) && ok == (mark != Empty)
    {
      var todo := players.Keys;
      while todo != {}
        invariant todo <= players.Keys
        invariant forall k :: k in players.Keys - todo ==> players[k] != p
        decreases |todo|
      {
        var k :| k in todo;
        if players[k] == p {
          return k, true;
        }
        todo := todo - {k};
      }
      return Empty, false;
    }

    method Opponent(p: PlayerID) returns (q: PlayerID)
      requires Valid()
      ensures q == OpponentOf(Value(), p)
    {
      var mark, ok := SideOf(p);
      if !ok {
        return "";
      }
      return players[Base.Opponent(mark)];
    }

    method OutcomeOf(p: PlayerID) returns (r: Outcome)
      requires Valid()
      ensures r == OutcomeFor(Value(), p)
    {
      if status == InProgress {
        return Undecided;
      }
      if status == Drawn {
        return Draw;
      }
      var mark, ok := SideOf(p);
      if !ok {
        return Undecided;
      }
      if (status == XWon && mark == X) || (status == OWon && mark == O) {
        return Win;
      }
      return Loss;
    }

    /** A refused move changes nothing. */
    method Apply(p: PlayerID, cell: Int64) returns (err: Option<Error>)
      requires Valid()
      modifies this, board.cells
      ensures match ApplyMove(old(Value()), p, cell)
              case Ok(m) => err == None && Value() == m
              case Err(e) => err == Some(e) && Value() == old(Value())
    {
      if status != InProgress {
        return Some(MatchFinished);
      }
      var mark, ok := SideOf(p);
      if !ok {
        return Some(NotAParticipant);
      }
      if mark != turn {
        return Some(NotYourTurn);
      }
      err := board.Set(cell, mark);
      if err != None {
        return;
      }
      moves := moves + [Move(mark, cell)];
      SettleResult(mark);
    }

    method SettleResult(justPlayed: Mark)
      requires Valid()
      modifies `turn, `status
      ensures Value() == Settle(old(Value()), justPlayed)
    {
      var winner := board.Winner();
      if winner == X {
        status := XWon;
      } else if winner == O {
        status := OWon;
      } else {
        var full := board.IsFull();
        if full {
          status := Drawn;
        } else {
          turn := Base.Opponent(justPlayed);
        }
      }
    }

    static method New(id: MatchID, x: PlayerID, o: PlayerID) returns (r: Result<Match>)
      ensures match NewMatch(id, x, o)
              case Ok(m) => r.Ok? && fresh(r.value) && fresh(r.value.board) && fresh(r.value.board.cells)
                            && r.value.Valid() && r.value.Value() == m
              case Err(e) => r == Err(e)
    {
      if x == o {
        return Err(SamePlayer);
      }
      var m := new Match(id, x, o);
      return Ok(m);
    }

    /** Rebuilds a match from its move list through the same rules as live play. */
    static method Restore(id: MatchID, x: PlayerID, o: PlayerID, ms: seq<Move>) returns (r: Result<Match>)
      ensures match RestoreMatch(id, x, o, ms)
              case Ok(m) => r.Ok? && r.value.Valid() && r.value.Value() == m
              case Err(e) => r == Err(e)
    {
      r := New(id, x, o);
      if r.Err? {
        return;
      }
      var err := r.value.ApplyAll(ms);
      if err != None {
        return Err(err.value);
      }
    }

    method ApplyAll(ms: seq<Move>) returns (err: Option<Error>)
      requires Valid()
      modifies this, board.cells
      ensures match Replay(old(Value()), ms)
              case Ok(m) => err == None && Value() == m
              case Err(e) => err == Some(e)
    {
      ghost var start := Value();
      assert start.x == players[X] && start.o == players[O];
      for i := 0 to |ms|
        invariant Replay(start, ms[..i]) == Ok(Value())
      {
        ReplayStep(start, ms, i);
        err := Apply(Seat(ms[i].mark), ms[i].cell);
        if err != None {
          ReplayStopsAtFirstError(start, ms, i + 1);
          return;
        }
      }
      assert ms[..|ms|] == ms;
      err := None;
    }
  }
}
