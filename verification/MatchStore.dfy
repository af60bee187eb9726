/** Where matches are kept: the in-memory map of records and the table of text rows. */
module MatchStores {
  import opened Base
  import opened Matches
  import opened Histories
  import opened Encoding

  /** The snapshot of a match handed to a store. */
  datatype MatchRecord = MatchRecord(id: MatchID, x: PlayerID, o: PlayerID, status: Status, moves: seq<Move>)

  /** A row of the matches table, less its key. */
  datatype Row = Row(x: PlayerID, o: PlayerID, status: string, moves: string)

  function RecordOf(m: MatchValue): MatchRecord {
    MatchRecord(m.id, m.x, m.o, m.status, m.moves)
  }

  function RowOf(r: MatchRecord): Row {
    Row(r.x, r.o, StatusText(r.status), Encode(r.moves))
  }

  /** The upsert: a second save of an id replaces the status and the moves, not the players. */
  function SaveRow(rows: map<MatchID, Row>, r: MatchRecord): map<MatchID, Row> {
    if r.id in rows
    then rows[r.id := rows[r.id].(status := StatusText(r.status), moves := Encode(r.moves))]
    else rows[r.id := RowOf(r)]
  }

  function ParseRow(id: MatchID, row: Row): Result<MatchRecord> {
    match ParseStatus(row.status)
    case Err(e) => Err(e)
    case Ok(status) =>
      match Decode(row.moves)
      case Err(e) => Err(e)
      case Ok(moves) => Ok(MatchRecord(id, row.x, row.o, status, moves))
  }

  function LoadRow(rows: map<MatchID, Row>, id: MatchID): Result<Option<MatchRecord>> {
    if id !in rows then Ok(None)
    else
      match ParseRow(id, rows[id])
      case Err(e) => Err(e)
      case Ok(r) => Ok(Some(r))
  }

  function LoadRecord(records: map<MatchID, MatchRecord>, id: MatchID): Option<MatchRecord> {
    if id in records then Some(records[id]) else None
  }

  predicate RealMarks(ms: seq<Move>) {
    forall i :: 0 <= i < |ms| ==> ms[i].mark != Empty
  }

  lemma RowParses(r: MatchRecord)
    ensures ParseRow(r.id, RowOf(r)) == Ok(r) <==> RealMarks(r.moves)
  {
    StatusTextParses(r.status);
    DecodeInvertsEncode(r.moves);
  }

  /** A row as it is stored: who plays, the status by name, and the moves as text; saved again, its status and moves
      are the new ones. */
  lemma WrittenRow()
    ensures var first := MatchRecord("m", "a", "b", InProgress, [Move(X, 5)]);
            var second := MatchRecord("m", "a", "b", Drawn, [Move(X, 5), Move(O, 3)]);
            && SaveRow(map[], first) == map["m" := Row("a", "b", "in_progress", "X5")]
            && SaveRow(SaveRow(map[], first), second) == map["m" := Row("a", "b", "draw", "X5,O3")]
  {
    WrittenMoves();
    assert Encode([Move(X, 5)]) == "X5" by {
      assert MoveText(Move(X, 5)) == "X5" && Texts([Move(X, 5)]) == ["X5"];
    }
  }

  /** Whichever id is asked for, both stores answer alike. */
  ghost predicate Interchangeable(rows: map<MatchID, Row>, records: map<MatchID, MatchRecord>) {
    forall id :: LoadRow(rows, id) == Ok(LoadRecord(records, id))
  }

  /** One save keeps the two stores interchangeable exactly when the moves carry real marks and an id
      saved before keeps its players: the table's upsert leaves the players of the first save in place. */
  lemma SavesKeepStoresInterchangeable(rows: map<MatchID, Row>, records: map<MatchID, MatchRecord>, r: MatchRecord)
    requires Interchangeable(rows, records)
    ensures Interchangeable(SaveRow(rows, r), records[r.id := r]) <==>
            RealMarks(r.moves) && (r.id in records ==> records[r.id].x == r.x && records[r.id].o == r.o)
  {
    var rows', records' := SaveRow(rows, r), records[r.id := r];
    StatusTextParses(r.status);
    DecodeInvertsEncode(r.moves);
    assert LoadRow(rows, r.id) == Ok(LoadRecord(records, r.id));
    assert LoadRow(rows', r.id) == Ok(LoadRecord(records', r.id)) <==>
           RealMarks(r.moves) && (r.id in records ==> records[r.id].x == r.x && records[r.id].o == r.o);
    forall id | id != r.id
      ensures LoadRow(rows', id) == LoadRow(rows, id) == Ok(LoadRecord(records', id))
    {
    }
  }

  /** A concrete split: the second save of a match names another opponent, and the stores disagree on who plays. */
  lemma SavingOtherPlayersSeparatesStores()
    ensures var first, second := MatchRecord("m", "1", "2", InProgress, []), MatchRecord("m", "1", "3", InProgress, []);
            var rows := SaveRow(SaveRow(map[], first), second);
            && LoadRow(rows, "m") == Ok(Some(first))
            && LoadRecord(map["m" := first]["m" := second], "m") == Some(second)
            && Interchangeable(SaveRow(map[], first), map["m" := first])
            && !Interchangeable(rows, map["m" := first]["m" := second])
  {
    var first, second := MatchRecord("m", "1", "2", InProgress, []), MatchRecord("m", "1", "3", InProgress, []);
    assert Interchangeable(map[], map[]);
    SavesKeepStoresInterchangeable(map[], map[], first);
    SavesKeepStoresInterchangeable(SaveRow(map[], first), map["m" := first], second);
    RowParses(first);
  }

  /** Snapshot, print, parse and replay give back the very same match, for every match that legal
      play can reach: same board, turn, status, players and history. */
  lemma StoredMatchReplays(m: MatchValue)
    requires Genuine(m)
    ensures ParseRow(m.id, RowOf(RecordOf(m))) == Ok(RecordOf(m))
    ensures var r := ParseRow(m.id, RowOf(RecordOf(m))).value;
            RestoreMatch(r.id, r.x, r.o, r.moves) == Ok(m)
  {
    GenuineReplays(m);
    RowParses(RecordOf(m));
  }

  // ----- the in-memory store -----

  /** A record as callers hold it: the move list is a buffer of theirs. */
  datatype HeapRecord = HeapRecord(id: MatchID, x: PlayerID, o: PlayerID, status: Status, moves: array<Move>)

  ghost function Snapshot(r: HeapRecord): MatchRecord
    reads r.moves
  {
    MatchRecord(r.id, r.x, r.o, r.status, r.moves[..])
  }

  class MatchStore {
    var records: map<MatchID, HeapRecord>
    ghost var Owned: set<array<Move>>

    ghost predicate Valid()
      reads this
    {
      forall id :: id in records ==> records[id].moves in Owned
    }

    ghost function Value(): map<MatchID, MatchRecord>
      reads this, Owned
      requires Valid()
    {
      map id | id in records :: Snapshot(records[id])
    }

    constructor ()
      ensures Valid() && Owned == {} && Value() == map[]
    {
      records := map[];
      Owned := {};
    }

    /** Stores a copy: the caller's buffer stays outside the store, so writing to it later changes no record. */
    method Save(r: HeapRecord)
      requires Valid()
      modifies this
      ensures Valid() && fresh(Owned - old(Owned))
      ensures Value() == old(Value())[r.id := Snapshot(r)]
    {
      var copy := new Move[r.moves.Length](i requires 0 <= i < r.moves.Length reads r.moves => r.moves[i]);
      assert copy[..] == r.moves[..];
      records := records[r.id := r.(moves := copy)];
      Owned := Owned + {copy};
    }

    method ByID(id: MatchID) returns (r: Option<HeapRecord>)
      requires Valid()
      ensures r.Some? <==> id in Value()
      ensures r.Some? ==> Snapshot(r.value) == Value()[id]
    {
      if id in records {
        return Some(records[id]);
      }
      return None;
    }
  }
}
