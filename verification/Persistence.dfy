/** What runs of the service leave in the match stores: which snapshots reach them, and which one stays. */
module Persistence {
  import opened Base
  import opened Matches
  import opened Histories
  import opened Encoding
  import opened MatchStores
  import opened PlayerStores
  import opened Recording
  import opened LiveGames
  import opened Matchmakers
  import opened Services

  // ----- every record replays -----

  lemma PrefixReplays(r: MatchRecord, moves: seq<Move>)
    requires r.x != r.o && LegalHistory(moves) && r.moves <= moves
    ensures RestoreMatch(r.id, r.x, r.o, r.moves) == Ok(PositionOf(r.id, r.x, r.o, r.moves))
  {
    assert r.moves == moves[..|r.moves|];
    LegalPrefix(moves, |r.moves|);
    GenuineReplays(PositionOf(r.id, r.x, r.o, r.moves));
  }

  /** Replays through the live rules to exactly its own status, and is how the match stood after some of its moves. */
  predicate ReplaysWithin(r: MatchRecord, h: History) {
    var restored := RestoreMatch(r.id, r.x, r.o, r.moves);
    && restored.Ok? && restored.value.status == r.status && restored.value.moves == r.moves
    && r.moves <= h.moves && r.x == h.x && r.o == h.o
  }

  lemma FaithfulReplays(s: Service, r: MatchRecord)
    requires Consistent(s) && Faithful(r, s.history)
    ensures r.id in s.history && ReplaysWithin(r, s.history[r.id])
  {
    hide Orderly, SavesFit, NoticesFit, Sound, SignupsFit, LegalHistory, RestoreMatch, StatusOf, EventsOf, ResultsOf;
    assert FairHistory(r.id, s.history[r.id]);
    PrefixReplays(r, s.history[r.id].moves);
  }

  /** At any moment of any run, every row of a match of this run loads, and what it loads as replays
      without error, to exactly the status stored with it, and is a prefix of what was committed. */
  lemma EveryRowReplays(s: Service, acts: seq<Action>, id: MatchID)
    requires Booted(s)
    requires id in Run(s, acts).rows && id in Run(s, acts).history
    ensures var s', loaded := Run(s, acts), LoadRow(Run(s, acts).rows, id);
            && loaded.Ok? && loaded.value.Some? && loaded.value.value.id == id
            && ReplaysWithin(loaded.value.value, s'.history[id])
  {
    hide Orderly, NoticesFit, Sound, SignupsFit, Next, Booted, HistoriesFit, Faithful, ReplaysWithin;
    EveryRunIsConsistent(s, acts);
    FaithfulReplays(Run(s, acts), ParseRow(id, Run(s, acts).rows[id]).value);
  }

  /** So does every record whose save has not reached the store yet. */
  lemma EveryPendingRecordReplays(s: Service, acts: seq<Action>, r: MatchRecord)
    requires Booted(s) && r in Run(s, acts).saves
    ensures r.id in Run(s, acts).history && ReplaysWithin(r, Run(s, acts).history[r.id])
  {
    hide Orderly, NoticesFit, Sound, SignupsFit, Next, Booted, HistoriesFit, Faithful, ReplaysWithin;
    EveryRunIsConsistent(s, acts);
    FaithfulReplays(Run(s, acts), r);
  }

  // ----- the calls made on the match store -----

  /** The save a step makes, and whether the store takes it. */
  function SaveCall(s: Service, a: Action): Option<(MatchRecord, bool)> {
    match a
    case StoreMatch(i, ok) => if i < |s.saves| then Some((s.saves[i], ok)) else None
    case StartPopped(i, id, found, saved) =>
      if i < |s.lobby.popped| && id !in s.history && id !in s.rows then
        (match StartPair(s.lobby.games, s.lobby.popped[i], id, KnownNames(s.ledger.store, found))
         case Err(_) => None
         case Ok(g) => Some((RecordOf(g.active[id].game), saved)))
      else None
    case _ => None
  }

  /** The records of match id whose saves the store has taken (or refused), in the order of the calls. */
  function Calls(s: Service, acts: seq<Action>, id: MatchID, taken: bool): seq<MatchRecord> {
    if acts == [] then []
    else Calls(s, acts[..|acts| - 1], id, taken) + NewCall(Run(s, acts[..|acts| - 1]), acts[|acts| - 1], id, taken)
  }

  function NewCall(s: Service, a: Action, id: MatchID, taken: bool): seq<MatchRecord> {
    match SaveCall(s, a)
    case None => []
    case Some((r, ok)) => if r.id == id && ok == taken then [r] else []
  }

  function Landed(s: Service, acts: seq<Action>, id: MatchID): seq<MatchRecord> {
    Calls(s, acts, id, true)
  }

  function Failed(s: Service, acts: seq<Action>, id: MatchID): seq<MatchRecord> {
    Calls(s, acts, id, false)
  }

  ghost function SnapshotAt(id: MatchID, h: History, n: nat): MatchRecord
    requires n <= |h.moves|
  {
    MatchRecord(id, h.x, h.o, StatusOf(h.moves[..n]), h.moves[..n])
  }

  /** The match as it stood when it started and after each of its moves. */
  ghost function Snapshots(id: MatchID, h: History): (rs: seq<MatchRecord>)
    ensures |rs| == |h.moves| + 1
  {
    seq(|h.moves| + 1, n requires 0 <= n <= |h.moves| => SnapshotAt(id, h, n))
  }

  /** Each snapshot of the match is pending, landed or failed, and only once. */
  ghost predicate SavedOnce(id: MatchID, h: History, saves: seq<MatchRecord>, landed: seq<MatchRecord>,
                            failed: seq<MatchRecord>) {
    forall r: MatchRecord :: r.id == id ==>
      multiset(saves)[r] + multiset(landed)[r] + multiset(failed)[r] == multiset(Snapshots(id, h))[r]
  }

  /** The row is the record that landed last. */
  predicate RowIsLast(id: MatchID, rows: map<MatchID, Row>, landed: seq<MatchRecord>) {
    if landed == [] then id !in rows else id in rows && rows[id] == RowOf(landed[|landed| - 1])
  }

  ghost predicate Accounted(s: Service, id: MatchID, landed: seq<MatchRecord>, failed: seq<MatchRecord>) {
    if id in s.history
    then SavedOnce(id, s.history[id], s.saves, landed, failed) && RowIsLast(id, s.rows, landed)
    else landed == [] && failed == []
  }

  // ----- what each step does to them -----

  lemma SnapshotsGrow(id: MatchID, h: History, h': History)
    requires h.x == h'.x && h.o == h'.o && h.moves <= h'.moves && |h'.moves| == |h.moves| + 1
    ensures Snapshots(id, h') == Snapshots(id, h) + [SnapshotAt(id, h', |h'.moves|)]
  {
    hide StatusOf;
    forall n | 0 <= n <= |h.moves|
      ensures SnapshotAt(id, h', n) == SnapshotAt(id, h, n)
    {
      assert h'.moves[..n] == h.moves[..n];
    }
  }

  lemma SavedOnceMoved(id: MatchID, h: History, h': History, saves: seq<MatchRecord>, r: MatchRecord,
                       landed: seq<MatchRecord>, failed: seq<MatchRecord>)
    requires SavedOnce(id, h, saves, landed, failed)
    requires Snapshots(id, h') == if r.id == id then Snapshots(id, h) + [r] else Snapshots(id, h)
    ensures SavedOnce(id, h', saves + [r], landed, failed)
  {
    hide Snapshots;
    assert multiset(saves + [r]) == multiset(saves) + multiset{r};
    assert multiset(Snapshots(id, h) + [r]) == multiset(Snapshots(id, h)) + multiset{r};
  }

  lemma SavedOnceStored(id: MatchID, h: History, saves: seq<MatchRecord>, i: nat, ok: bool,
                        landed: seq<MatchRecord>, failed: seq<MatchRecord>)
    requires SavedOnce(id, h, saves, landed, failed) && i < |saves|
    ensures var more := if saves[i].id == id then [saves[i]] else [];
            SavedOnce(id, h, Without(saves, i), if ok then landed + more else landed, if ok then failed else failed + more)
  {
    hide Snapshots;
    WithoutKeeps(saves, i);
    assert multiset(landed + [saves[i]]) == multiset(landed) + multiset{saves[i]};
    assert multiset(failed + [saves[i]]) == multiset(failed) + multiset{saves[i]};
  }

  lemma RowStored(id: MatchID, rows: map<MatchID, Row>, landed: seq<MatchRecord>, r: MatchRecord)
    requires RowIsLast(id, rows, landed) && (r.id in rows ==> rows[r.id].x == r.x && rows[r.id].o == r.o)
    ensures RowIsLast(id, SaveRow(rows, r), if r.id == id then landed + [r] else landed)
  {
    hide StatusText, Encode;
  }

  lemma MoveIsAccounted(s: Service, p: PlayerID, cell: Int64, id: MatchID, landed: seq<MatchRecord>,
                        failed: seq<MatchRecord>)
    requires Consistent(s) && Accounted(s, id, landed, failed)
    ensures Accounted(OnMove(s, p, cell), id, landed, failed)
  {
    hide FairHistory, Mirror, InPlay, FirstComeFirstPaired, SavesFit, NoticesFit, Sound, SignupsFit;
    hide MoveInMatch, LobbyStep, Step, NoticesOf, LegalHistory, StatusOf, BoardOf, TurnOf, Snapshots;
    hide SavedOnce, RowIsLast;
    if MoveInMatch(s.lobby.games, p, cell).Ok? {
      var mv := MoveInMatch(s.lobby.games, p, cell).value;
      var m := mv.played.game;
      MoveExtendsHistory(s.lobby.games, s.history, p, cell);
      if id in s.history {
        var h, h' := s.history[id], OnMove(s, p, cell).history[id];
        if m.id == id {
          SnapshotsGrow(id, h, h');
          assert h'.moves[..|h'.moves|] == h'.moves;
        }
        SavedOnceMoved(id, h, h', s.saves, RecordOf(m), landed, failed);
      }
    }
  }

  lemma AbandonIsAccounted(s: Service, p: PlayerID, id: MatchID, landed: seq<MatchRecord>, failed: seq<MatchRecord>)
    requires Accounted(s, id, landed, failed)
    ensures Accounted(OnAbandon(s, p), id, landed, failed)
  {
    hide LobbyStep, AbandonMatch, Snapshots, RowIsLast;
    var s' := OnAbandon(s, p);
    if id in s.history {
      SameSnapshots(id, s.history[id], s'.history[id]);
    }
  }

  lemma SameSnapshots(id: MatchID, h: History, h': History)
    requires h.x == h'.x && h.o == h'.o && h.moves == h'.moves
    ensures Snapshots(id, h') == Snapshots(id, h)
  {
    hide StatusOf;
  }

  lemma StoreIsAccounted(s: Service, i: nat, ok: bool, id: MatchID, landed: seq<MatchRecord>, failed: seq<MatchRecord>)
    requires Consistent(s) && Accounted(s, id, landed, failed) && i < |s.saves|
    ensures var more := if s.saves[i].id == id then [s.saves[i]] else [];
            Accounted(OnStoreMatch(s, i, ok), id, if ok then landed + more else landed, if ok then failed else failed + more)
  {
    hide Consistent, Faithful, RealMarks, SavedOnce, RowIsLast, SaveRow, Without;
    var r := s.saves[i];
    SavedIsFaithful(s, r);
    if id in s.history {
      SavedOnceStored(id, s.history[id], s.saves, i, ok, landed, failed);
      RowStored(id, s.rows, landed, r);
    }
    assert landed + [] == landed && failed + [] == failed;
  }

  lemma StartIsAccounted(s: Service, i: nat, id': MatchID, names: map<PlayerID, string>, saved: bool,
                         id: MatchID, landed: seq<MatchRecord>, failed: seq<MatchRecord>)
    requires Consistent(s) && Accounted(s, id, landed, failed)
    requires i < |s.lobby.popped| && id' !in s.history && id' !in s.rows
    requires StartPair(s.lobby.games, s.lobby.popped[i], id', names).Ok?
    ensures var g := StartPair(s.lobby.games, s.lobby.popped[i], id', names).value;
            && id' in g.active
            && var r := RecordOf(g.active[id'].game);
               var more := if r.id == id then [r] else [];
               Accounted(OnStart(s, i, id', names, saved), id,
                         if saved then landed + more else landed, if saved then failed else failed + more)
  {
    hide Orderly, HistoriesFit, NoticesFit, Sound, SignupsFit, StartPair, LobbyStep, NoticesOf, SavedOnce;
    hide RowIsLast, Begun, SaveRow;
    var pair := s.lobby.popped[i];
    StartedPairDiffers(s.lobby, i, id', names);
    var r := RecordOf(NewMatch(id', pair.x, pair.o).value);
    if id' == id {
      SavedOnceStarted(s.history, s.saves, s.rows, r, saved);
      NoRowYet(id, s.rows);
      RowStored(id, s.rows, [], r);
    } else if id in s.history {
      RowStored(id, s.rows, landed, r);
    }
    assert landed + [] == landed && failed + [] == failed && [] + [r] == [r];
  }

  lemma NoRowYet(id: MatchID, rows: map<MatchID, Row>)
    requires id !in rows
    ensures RowIsLast(id, rows, [])
  {
  }

  lemma SavedOnceStarted(history: map<MatchID, History>, saves: seq<MatchRecord>, rows: map<MatchID, Row>,
                         r: MatchRecord, saved: bool)
    requires SavesFit(history, saves, rows) && r.id !in history && r.x != r.o && r == RecordOf(NewMatch(r.id, r.x, r.o).value)
    ensures SavedOnce(r.id, Begun(r.x, r.o), saves, if saved then [r] else [], if saved then [] else [r])
  {
    hide Begun, Snapshots;
    FirstSnapshot(r.id, r.x, r.o);
    forall r' | r' in saves
      ensures r'.id in history
    {
      assert Faithful(r', history);
    }
  }

  lemma FirstSnapshot(id: MatchID, x: PlayerID, o: PlayerID)
    requires x != o
    ensures Snapshots(id, Begun(x, o)) == [RecordOf(NewMatch(id, x, o).value)]
  {
    FairFromStart(id, x, o);
  }

  lemma StepIsAccounted(s: Service, a: Action, id: MatchID, landed: seq<MatchRecord>, failed: seq<MatchRecord>)
    requires Consistent(s) && Accounted(s, id, landed, failed)
    ensures Accounted(Next(s, a), id, landed + NewCall(s, a, id, true), failed + NewCall(s, a, id, false))
  {
    hide Consistent, OnStart, OnMove, OnAbandon, OnStoreMatch, SavedOnce, RowIsLast, StartPair, LobbyStep;
    hide Step, CheckRegistration;
    assert landed + [] == landed && failed + [] == failed;
    match a
    case Move(p, cell) => MoveIsAccounted(s, p, cell, id, landed, failed);
    case Abandon(p) => AbandonIsAccounted(s, p, id, landed, failed);
    case StoreMatch(i, ok) => if i < |s.saves| { StoreIsAccounted(s, i, ok, id, landed, failed); }
    case StartPopped(i, id', found, saved) =>
      if i < |s.lobby.popped| && id' !in s.history && id' !in s.rows {
        var names := KnownNames(s.ledger.store, found);
        if StartPair(s.lobby.games, s.lobby.popped[i], id', names).Ok? {
          StartIsAccounted(s, i, id', names, saved, id, landed, failed);
        } else {
          RefusedStartKeepsStored(s, i, id', names, saved);
        }
      }
    case _ =>
  }

  lemma RefusedStartKeepsStored(s: Service, i: nat, id: MatchID, names: map<PlayerID, string>, saved: bool)
    requires i < |s.lobby.popped| && StartPair(s.lobby.games, s.lobby.popped[i], id, names).Err?
    ensures var s' := OnStart(s, i, id, names, saved); s'.history == s.history && s'.saves == s.saves && s'.rows == s.rows
  {
  }

  lemma {:induction false} RunIsAccounted(s: Service, acts: seq<Action>, id: MatchID)
    requires Booted(s)
    ensures Accounted(Run(s, acts), id, Landed(s, acts, id), Failed(s, acts, id))
  {
    hide Next, Consistent, SavedOnce, RowIsLast, NewCall, Opening;
    if acts != [] {
      var n := |acts| - 1;
      RunIsAccounted(s, acts[..n], id);
      EveryRunIsConsistent(s, acts[..n]);
      StepIsAccounted(Run(s, acts[..n]), acts[n], id, Landed(s, acts[..n], id), Failed(s, acts[..n], id));
    }
  }

  // ----- when the row is the latest -----

  lemma SnapshotOnce(id: MatchID, h: History, n: nat)
    requires n <= |h.moves|
    ensures multiset(Snapshots(id, h))[SnapshotAt(id, h, n)] == 1
  {
    hide StatusOf;
    var rs, r := Snapshots(id, h), SnapshotAt(id, h, n);
    assert rs == rs[..n] + [r] + rs[n + 1..];
    assert forall k :: 0 <= k <= |h.moves| && k != n ==> |rs[k].moves| != |r.moves|;
    assert r !in rs[..n] && r !in rs[n + 1..];
  }

  /** Each committed position of a match is saved exactly once: its save has landed, or failed, or is pending. */
  lemma EverySnapshotIsSavedOnce(s: Service, acts: seq<Action>, id: MatchID, n: nat)
    requires Booted(s) && id in Run(s, acts).history && n <= |Run(s, acts).history[id].moves|
    ensures var r := SnapshotAt(id, Run(s, acts).history[id], n);
            multiset(Run(s, acts).saves)[r] + multiset(Landed(s, acts, id))[r] + multiset(Failed(s, acts, id))[r] == 1
  {
    hide Next, Booted, Snapshots;
    RunIsAccounted(s, acts, id);
    SnapshotOnce(id, Run(s, acts).history[id], n);
  }

  /** The save that landed last came after that of a longer snapshot. */
  ghost predicate Overtaken(landed: seq<MatchRecord>) {
    exists r :: r in landed && |landed[|landed| - 1].moves| < |r.moves|
  }

  lemma LandedAreSnapshots(id: MatchID, h: History, saves: seq<MatchRecord>, landed: seq<MatchRecord>,
                           failed: seq<MatchRecord>, r: MatchRecord)
    requires SavedOnce(id, h, saves, landed, failed) && r in landed && r.id == id
    ensures |r.moves| <= |h.moves| && r == SnapshotAt(id, h, |r.moves|)
  {
    hide StatusOf;
    assert multiset(Snapshots(id, h))[r] > 0;
    assert r in Snapshots(id, h);
  }

  lemma {:induction false} CallsAreOfMatch(s: Service, acts: seq<Action>, id: MatchID, taken: bool)
    ensures forall r :: r in Calls(s, acts, id, taken) ==> r.id == id
  {
    hide SaveCall;
    if acts != [] {
      CallsAreOfMatch(s, acts[..|acts| - 1], id, taken);
    }
  }

  /** At every moment of every run the row of a match is the snapshot whose save landed last. It is the latest
      exactly when the save of the latest snapshot is neither pending nor failed, and the save that landed last
      did not come after that of a longer snapshot. */
  lemma RowIsLatestIffNotOvertaken(s: Service, acts: seq<Action>, id: MatchID)
    requires Booted(s) && id in Run(s, acts).history
    ensures var s', landed, failed := Run(s, acts), Landed(s, acts, id), Failed(s, acts, id);
            var h := s'.history[id];
            var latest := MatchRecord(id, h.x, h.o, StatusOf(h.moves), h.moves);
            && (id in s'.rows <==> landed != [])
            && (landed != [] ==> LoadRow(s'.rows, id) == Ok(Some(landed[|landed| - 1])))
            && (LoadRow(s'.rows, id) == Ok(Some(latest)) <==> latest !in s'.saves && latest !in failed && !Overtaken(landed))
            && ((forall r :: r in s'.saves ==> r.id != id) && failed == [] ==>
                  (LoadRow(s'.rows, id) == Ok(Some(latest)) <==> !Overtaken(landed)))
  {
    hide Next, Booted, Calls, SaveCall, RowOf, StatusOf, Consistent, SavedOnce, ParseRow;
    var s', landed, failed := Run(s, acts), Landed(s, acts, id), Failed(s, acts, id);
    var h := s'.history[id];
    RunIsAccounted(s, acts, id);
    CallsAreOfMatch(s, acts, id, true);
    EveryRunIsConsistent(s, acts);
    EverySnapshotIsSavedOnce(s, acts, id, |h.moves|);
    assert h.moves[..|h.moves|] == h.moves;
    if landed != [] {
      LastLandedLoads(s', id, landed, failed);
      LatestLanded(id, h, s'.saves, landed, failed);
    }
  }

  lemma LastLandedLoads(s: Service, id: MatchID, landed: seq<MatchRecord>, failed: seq<MatchRecord>)
    requires Consistent(s) && Accounted(s, id, landed, failed) && landed != []
    requires forall r :: r in landed ==> r.id == id
    ensures LoadRow(s.rows, id) == Ok(Some(landed[|landed| - 1]))
  {
    hide Consistent, Snapshots, Encode, StatusText, Decode, ParseStatus, RealMarks, StatusOf;
    var r := landed[|landed| - 1];
    LandedAreSnapshots(id, s.history[id], s.saves, landed, failed, r);
    HistoryMarksAreReal(s, r);
    RowParses(r);
  }

  /** The last record landed is the latest exactly when the latest landed and no longer one than it did before. */
  lemma LatestLanded(id: MatchID, h: History, saves: seq<MatchRecord>, landed: seq<MatchRecord>,
                     failed: seq<MatchRecord>)
    requires SavedOnce(id, h, saves, landed, failed) && landed != [] && forall r :: r in landed ==> r.id == id
    ensures landed[|landed| - 1] == SnapshotAt(id, h, |h.moves|) <==>
            SnapshotAt(id, h, |h.moves|) in landed && !Overtaken(landed)
  {
    hide SavedOnce, SnapshotAt;
    var last, latest := landed[|landed| - 1], SnapshotAt(id, h, |h.moves|);
    assert |latest.moves| == |h.moves| by {
      SnapshotLength(id, h);
    }
    forall r | r in landed
      ensures |r.moves| <= |h.moves| && r == SnapshotAt(id, h, |r.moves|)
    {
      LandedAreSnapshots(id, h, saves, landed, failed, r);
    }
    assert last in landed;
  }

  lemma SnapshotLength(id: MatchID, h: History)
    ensures |SnapshotAt(id, h, |h.moves|).moves| == |h.moves|
  {
  }

  lemma SavedRow(rows: map<MatchID, Row>, r: MatchRecord)
    requires RealMarks(r.moves) && (r.id in rows ==> rows[r.id].x == r.x && rows[r.id].o == r.o)
    ensures LoadRow(SaveRow(rows, r), r.id) == Ok(Some(r))
  {
    hide Encode, StatusText, Decode, ParseStatus, RealMarks;
    RowParses(r);
    assert SaveRow(rows, r)[r.id] == RowOf(r);
  }

  /** Storing any pending record leaves that very record in the row, be it older than the one it replaces. */
  lemma LastStoreWins(s: Service, i: nat)
    requires Consistent(s) && i < |s.saves|
    ensures var s', r := Next(s, StoreMatch(i, true)), s.saves[i];
            && LoadRow(s'.rows, r.id) == Ok(Some(r))
            && r.id in s'.history && r.moves <= s'.history[r.id].moves
  {
    hide Consistent, Faithful, Encode, StatusText, Decode, ParseStatus;
    var r := s.saves[i];
    SavedIsFaithful(s, r);
    SavedRow(s.rows, r);
  }

  // ----- the two match stores side by side -----

  /** The in-memory store after the same calls, the ones the table takes. */
  function Records(start: map<MatchID, MatchRecord>, s: Service, acts: seq<Action>): map<MatchID, MatchRecord> {
    if acts == [] then start
    else
      var before := Records(start, s, acts[..|acts| - 1]);
      match SaveCall(Run(s, acts[..|acts| - 1]), acts[|acts| - 1])
      case None => before
      case Some((r, ok)) => if ok then before[r.id := r] else before
  }

  lemma RowsFollow(s: Service, a: Action)
    ensures Next(s, a).rows == match SaveCall(s, a)
                               case None => s.rows
                               case Some((r, ok)) => if ok then SaveRow(s.rows, r) else s.rows
  {
    hide StartPair, LobbyStep, Step, CheckRegistration, MoveInMatch, AbandonMatch, SaveRow;
  }

  lemma CallKeepsPlayers(s: Service, a: Action)
    requires Consistent(s) && SaveCall(s, a).Some?
    ensures var (r, _) := SaveCall(s, a).value;
            RealMarks(r.moves) && (r.id in s.rows ==> s.rows[r.id].x == r.x && s.rows[r.id].o == r.o)
  {
    hide Consistent, RealMarks, StartPair;
    match a
    case StoreMatch(i, ok) => SavedIsFaithful(s, s.saves[i]);
    case StartPopped(i, id, found, saved) =>
      StartedPairDiffers(s.lobby, i, id, KnownNames(s.ledger.store, found));
      assert RealMarks([]) by {
        NoMarks();
      }
    case _ =>
  }

  lemma NoMarks()
    ensures RealMarks([])
  {
  }

  /** Over every run the table and the in-memory store, given the same calls, answer every lookup alike. */
  lemma {:induction false} StoresStayInterchangeable(start: map<MatchID, MatchRecord>, s: Service, acts: seq<Action>)
    requires Booted(s) && Interchangeable(s.rows, start)
    ensures Interchangeable(Run(s, acts).rows, Records(start, s, acts))
  {
    hide Next, Booted, Consistent, SaveCall, Interchangeable, SaveRow, RealMarks;
    if acts != [] {
      var n := |acts| - 1;
      var s', before := Run(s, acts[..n]), Records(start, s, acts[..n]);
      StoresStayInterchangeable(start, s, acts[..n]);
      EveryRunIsConsistent(s, acts[..n]);
      RowsFollow(s', acts[n]);
      if SaveCall(s', acts[n]).Some? {
        var (r, _) := SaveCall(s', acts[n]).value;
        CallKeepsPlayers(s', acts[n]);
        SamePlayersInBoth(s'.rows, before, r.id);
        SavesKeepStoresInterchangeable(s'.rows, before, r);
      }
    }
  }

  lemma SamePlayersInBoth(rows: map<MatchID, Row>, records: map<MatchID, MatchRecord>, id: MatchID)
    requires Interchangeable(rows, records)
    ensures id in records <==> id in rows
    ensures id in records ==> records[id].x == rows[id].x && records[id].o == rows[id].o
  {
    hide ParseStatus, Decode;
    assert LoadRow(rows, id) == Ok(LoadRecord(records, id));
  }
}
