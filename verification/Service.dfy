/** The whole service under concurrent callers. Each lock-held section is one step; each store call or
    notification made after a lock is released is a step of its own, taken at any later moment, in any order. */
module Services {
  import opened Base
  import opened Matches
  import opened Histories
  import opened Encoding
  import opened MatchStores
  import opened PlayerStores
  import opened Recording
  import opened LiveGames
  import opened Matchmakers

  datatype Ending = Open | Finished | Abandoned

  /** What has been committed, under the games' lock, for one match ID. */
  datatype History = History(
    x: PlayerID, o: PlayerID,
    moves: seq<Move>,
    ending: Ending,
    events: seq<EventKind>,
    results: seq<SeatResult>)

  datatype Service = Service(
    lobby: Lobby,
    history: map<MatchID, History>,
    saves: seq<MatchRecord>,                  // match snapshots taken, not yet stored
    rows: map<MatchID, Row>,                  // the matches table
    ledger: Ledger,                           // players, and results being recorded
    notices: seq<Notice>,                     // notices committed, not yet handed to the notifier
    delivered: map<MatchID, seq<Notice>>,     // notices handed over, in order, by match
    signups: map<PlayerID, Player>)           // registrations past the name check, not yet created

  datatype Action =
    | JoinCheck(p: PlayerID)
    | JoinQueue(p: PlayerID)
    | Leave(p: PlayerID)
    | StartPopped(i: nat, id: MatchID, found: bool, saved: bool)
    | Move(p: PlayerID, cell: Int64)
    | Abandon(p: PlayerID)
    | StoreMatch(i: nat, ok: bool)
    | LoadStats(i: nat, ok: bool)
    | StoreStats(i: nat, ok: bool)
    | Deliver(i: nat)
    | SignUp(id: PlayerID, name: string, password: string, hash: string)
    | CreateAccount(id: PlayerID)

  // ----- steps -----

  function NamesOf(s: Players): map<PlayerID, string> {
    map p | p in s.byID :: s.byID[p].name
  }

  /** What Start reads of the players: their names, or nothing when the store fails. */
  function KnownNames(s: Players, found: bool): map<PlayerID, string> {
    if found then NamesOf(s) else map[]
  }

  /** The notices of a match handed over so far. */
  function Heard(delivered: map<MatchID, seq<Notice>>, id: MatchID): seq<Notice> {
    if id in delivered then delivered[id] else []
  }

  function Begun(x: PlayerID, o: PlayerID): History {
    History(x, o, [], Open, [MatchStarted], [])
  }

  /** Start saves the first snapshot and notifies both players before it releases the lock. */
  function OnStart(s: Service, i: nat, id: MatchID, names: map<PlayerID, string>, saved: bool): Service
    requires i < |s.lobby.popped|
  {
    var pair := s.lobby.popped[i];
    var s' := s.(lobby := LobbyStep(s.lobby, LobbyEvent.Start(i, id, names)));
    match StartPair(s.lobby.games, pair, id, names)
    case Err(_) => s'
    case Ok(g) =>
      s'.(history := s.history[id := Begun(pair.x, pair.o)],
          rows := if saved then SaveRow(s.rows, RecordOf(g.active[id].game)) else s.rows,
          delivered := s.delivered[id := Heard(s.delivered, id) + NoticesOf(g.active[id], MatchStarted)])
  }

  function Extended(h: History, mv: Moved): History {
    h.(moves := mv.played.game.moves,
       ending := if mv.Over() then Finished else Open,
       events := h.events + [mv.Kind()],
       results := mv.Results())
  }

  /** Move leaves its save, its results and its notices to be handled after the lock. */
  function OnMove(s: Service, p: PlayerID, cell: Int64): Service {
    match MoveInMatch(s.lobby.games, p, cell)
    case Err(_) => s
    case Ok(mv) =>
      var id := mv.played.game.id;
      s.(lobby := LobbyStep(s.lobby, Play(p, cell)),
         history := if id in s.history then s.history[id := Extended(s.history[id], mv)] else s.history,
         saves := s.saves + [RecordOf(mv.played.game)],
         ledger := Step(s.ledger, Settle(mv.Results())),
         notices := s.notices + NoticesOf(mv.played, mv.Kind()))
  }

  function GivenUp(h: History): History {
    h.(ending := Abandoned, events := h.events + [OpponentLeft])
  }

  function OnAbandon(s: Service, p: PlayerID): Service {
    match AbandonMatch(s.lobby.games, p)
    case None => s
    case Some((_, n)) =>
      var id := n.state.matchID;
      s.(lobby := LobbyStep(s.lobby, LobbyEvent.Abandon(p)),
         history := if id in s.history
                    then s.history[id := GivenUp(s.history[id])]
                    else s.history,
         notices := s.notices + [n])
  }

  function OnStoreMatch(s: Service, i: nat, ok: bool): Service
    requires i < |s.saves|
  {
    s.(saves := Without(s.saves, i), rows := if ok then SaveRow(s.rows, s.saves[i]) else s.rows)
  }

  function OnDeliver(s: Service, i: nat): Service
    requires i < |s.notices|
  {
    var n := s.notices[i];
    var id := n.state.matchID;
    s.(notices := Without(s.notices, i),
       delivered := s.delivered[id := Heard(s.delivered, id) + [n]])
  }

  function OnSignUp(s: Service, id: PlayerID, name: string, password: string, hash: string): Service {
    match CheckRegistration(s.ledger.store, name, password)
    case Err(_) => s
    case Ok(trimmed) => s.(signups := s.signups[id := Player(id, trimmed, hash, NO_GAMES)])
  }

  function OnCreate(s: Service, id: PlayerID): Service
    requires id in s.signups
  {
    s.(signups := s.signups - {id}, ledger := Step(s.ledger, Enrol(s.signups[id])))
  }

  /** One step of anybody; a step that is not enabled does nothing. Drawn IDs are new. */
  function Next(s: Service, a: Action): Service {
    match a
    case JoinCheck(p) => s.(lobby := LobbyStep(s.lobby, Check(p)))
    case JoinQueue(p) => s.(lobby := LobbyStep(s.lobby, Queue(p)))
    case Leave(p) => s.(lobby := LobbyStep(s.lobby, Quit(p)))
    case StartPopped(i, id, found, saved) =>
      if i < |s.lobby.popped| && id !in s.history && id !in s.rows then OnStart(s, i, id, KnownNames(s.ledger.store, found), saved) else s
    case Move(p, cell) => OnMove(s, p, cell)
    case Abandon(p) => OnAbandon(s, p)
    case StoreMatch(i, ok) => if i < |s.saves| then OnStoreMatch(s, i, ok) else s
    case LoadStats(i, ok) => s.(ledger := Step(s.ledger, Load(i, ok)))
    case StoreStats(i, ok) => s.(ledger := Step(s.ledger, Land(i, ok)))
    case Deliver(i) => if i < |s.notices| then OnDeliver(s, i) else s
    case SignUp(id, name, password, hash) =>
      if id !in s.ledger.store.byID && id !in s.signups then OnSignUp(s, id, name, password, hash) else s
    case CreateAccount(id) => if id in s.signups then OnCreate(s, id) else s
  }

  /** A server just started, over whatever players and rows it finds stored. */
  ghost predicate Booted(s: Service) {
    && s.lobby == EMPTY_LOBBY && s.history == map[] && s.saves == [] && s.notices == []
    && s.delivered == map[] && s.signups == map[] && Opening(s.ledger) && s.ledger.dropped == []
  }

  function Run(s: Service, acts: seq<Action>): Service {
    if acts == [] then s else Next(Run(s, acts[..|acts| - 1]), acts[|acts| - 1])
  }

  // ----- the histories -----

  function Repeat(k: EventKind, n: nat): (ks: seq<EventKind>)
    ensures |ks| == n
  {
    seq(n, _ => k)
  }

  /** match_started, one state_changed a move, and then nothing, or match_ended for the last move, or opponent_left. */
  function EventsOf(moves: nat, ending: Ending): seq<EventKind> {
    match ending
    case Open => [MatchStarted] + Repeat(StateChanged, moves)
    case Finished => [MatchStarted] + Repeat(StateChanged, if moves == 0 then 0 else moves - 1) + [MatchEnded]
    case Abandoned => [MatchStarted] + Repeat(StateChanged, moves) + [OpponentLeft]
  }

  ghost predicate FairHistory(id: MatchID, h: History) {
    && h.x != h.o && LegalHistory(h.moves)
    && (h.ending == Finished <==> StatusOf(h.moves) != InProgress)
    && h.events == EventsOf(|h.moves|, h.ending)
    && h.results == if h.ending == Finished then ResultsOf(PositionOf(id, h.x, h.o, h.moves)) else []
  }

  ghost predicate TellsOf(h: History, m: MatchValue) {
    h.ending == Open && h.x == m.x && h.o == m.o && h.moves == m.moves
  }

  /** The live matches are exactly the open histories, and tell the same story. */
  ghost predicate HistoriesFit(g: GamesValue, history: map<MatchID, History>) {
    && (forall id :: id in history ==> FairHistory(id, history[id]))
    && (forall id :: id in history ==> (history[id].ending == Open <==> id in g.active))
    && (forall id :: id in g.active ==> id in history && TellsOf(history[id], g.active[id].game))
  }

  // ----- the stored matches -----

  /** A snapshot of the match as it stood after some prefix of its committed moves. */
  ghost predicate Faithful(r: MatchRecord, history: map<MatchID, History>) {
    && r.id in history && r.moves <= history[r.id].moves
    && r.x == history[r.id].x && r.o == history[r.id].o && r.status == StatusOf(r.moves)
  }

  ghost predicate SavesFit(history: map<MatchID, History>, saves: seq<MatchRecord>, rows: map<MatchID, Row>) {
    && (forall r :: r in saves ==> Faithful(r, history))
    && (forall id :: id in rows && id in history ==>
          ParseRow(id, rows[id]).Ok? && Faithful(ParseRow(id, rows[id]).value, history))
  }

  // ----- the notices -----

  ghost predicate StartedFirst(h: History, ns: seq<Notice>) {
    && |ns| >= 2
    && ns[0].to == h.x && ns[0].kind == MatchStarted && ns[1].to == h.o && ns[1].kind == MatchStarted
    && forall i :: 2 <= i < |ns| ==> ns[i].kind != MatchStarted
  }

  /** Every notice is of a match that has started, and its two start notices were handed over first. */
  ghost predicate NoticesFit(history: map<MatchID, History>, notices: seq<Notice>,
                             delivered: map<MatchID, seq<Notice>>) {
    && delivered.Keys <= history.Keys
    && (forall n :: n in notices ==> n.state.matchID in history && n.kind != MatchStarted)
    && (forall id :: id in history ==> id in delivered && StartedFirst(history[id], delivered[id]))
  }

  // ----- the accounts -----

  ghost predicate SignupsFit(signups: map<PlayerID, Player>) {
    forall id :: id in signups ==> signups[id].id == id && signups[id].stats == NO_GAMES
  }

  ghost predicate Consistent(s: Service) {
    && Orderly(s.lobby)
    && HistoriesFit(s.lobby.games, s.history)
    && SavesFit(s.history, s.saves, s.rows)
    && NoticesFit(s.history, s.notices, s.delivered)
    && Sound(s.ledger)
    && SignupsFit(s.signups)
  }

  // ----- histories only grow -----

  ghost predicate Grows(h: History, h': History) {
    && h.x == h'.x && h.o == h'.o && h.moves <= h'.moves && h.events <= h'.events
    && (h.ending != Open ==> h' == h)
  }

  ghost predicate HistoriesGrow(history: map<MatchID, History>, history': map<MatchID, History>) {
    forall id :: id in history ==> id in history' && Grows(history[id], history'[id])
  }

  lemma GrowthKeepsSaves(history: map<MatchID, History>, history': map<MatchID, History>, saves: seq<MatchRecord>,
                         rows: map<MatchID, Row>)
    requires SavesFit(history, saves, rows) && HistoriesGrow(history, history')
    requires forall id :: id in history' && id in rows ==> id in history
    ensures SavesFit(history', saves, rows)
  {
    forall r | r in saves
      ensures Faithful(r, history')
    {
      assert Faithful(r, history);
    }
    forall id | id in rows && id in history'
      ensures Faithful(ParseRow(id, rows[id]).value, history')
    {
      assert Faithful(ParseRow(id, rows[id]).value, history);
    }
  }

  lemma GrowthKeepsNotices(history: map<MatchID, History>, history': map<MatchID, History>, notices: seq<Notice>,
                           delivered: map<MatchID, seq<Notice>>)
    requires NoticesFit(history, notices, delivered) && HistoriesGrow(history, history') && history'.Keys == history.Keys
    ensures NoticesFit(history', notices, delivered)
  {
    forall id | id in history'
      ensures StartedFirst(history'[id], delivered[id])
    {
      assert StartedFirst(history[id], delivered[id]) && Grows(history[id], history'[id]);
    }
  }

  // ----- each step -----

  lemma SaveKeepsRows(history: map<MatchID, History>, saves: seq<MatchRecord>, rows: map<MatchID, Row>, r: MatchRecord)
    requires SavesFit(history, saves, rows) && Faithful(r, history) && FairHistory(r.id, history[r.id])
    ensures SavesFit(history, saves, SaveRow(rows, r))
  {
    var rows' := SaveRow(rows, r);
    assert rows'[r.id] == RowOf(r);
    RowParses(r);
    assert RealMarks(r.moves) by {
      var ms := history[r.id].moves;
      assert forall i :: 0 <= i < |r.moves| ==> r.moves[i] == ms[i];
    }
    forall id | id in rows' && id in history
      ensures ParseRow(id, rows'[id]).Ok? && Faithful(ParseRow(id, rows'[id]).value, history)
    {
      if id != r.id {
        assert rows'[id] == rows[id];
      }
    }
  }

  lemma FairFromStart(id: MatchID, x: PlayerID, o: PlayerID)
    requires x != o
    ensures FairHistory(id, Begun(x, o))
    ensures StatusOf([]) == InProgress
  {
    NoMovesNoWinner();
    assert EventsOf(0, Open) == [MatchStarted];
  }

  lemma StartKeepsConsistent(s: Service, i: nat, id: MatchID, names: map<PlayerID, string>, saved: bool)
    requires Consistent(s) && i < |s.lobby.popped| && id !in s.history && id !in s.rows
    ensures Consistent(OnStart(s, i, id, names, saved))
    ensures HistoriesGrow(s.history, OnStart(s, i, id, names, saved).history)
  {
    hide StartPair, LobbyStep, Begun, HistoriesFit, SavesFit, NoticesFit, FirstComeFirstPaired, Mirror;
    hide InPlay, Sound, SignupsFit;
    StepKeepsOrder(s.lobby, LobbyEvent.Start(i, id, names));
    assert FreshID(s.lobby, LobbyEvent.Start(i, id, names)) by {
      NewIDIsFree(s.lobby.games, s.history, id);
    }
    StepKeepsGames(s.lobby, LobbyEvent.Start(i, id, names));
    if StartPair(s.lobby.games, s.lobby.popped[i], id, names).Ok? {
      StartedPairDiffers(s.lobby, i, id, names);
      StartKeepsHistories(s.lobby.games, s.history, s.lobby.popped[i], id, names);
      StartKeepsStored(s, i, id, names, saved);
    } else {
      RefusedStart(s.lobby, i, id, names);
    }
  }

  lemma RefusedStart(l: Lobby, i: nat, id: MatchID, names: map<PlayerID, string>)
    requires i < |l.popped| && StartPair(l.games, l.popped[i], id, names).Err?
    ensures LobbyStep(l, LobbyEvent.Start(i, id, names)).games == l.games
  {
  }

  lemma NewIDIsFree(g: GamesValue, history: map<MatchID, History>, id: MatchID)
    requires HistoriesFit(g, history) && id !in history
    ensures id !in g.active
  {
  }

  lemma StartedPairDiffers(l: Lobby, i: nat, id: MatchID, names: map<PlayerID, string>)
    requires i < |l.popped| && StartPair(l.games, l.popped[i], id, names).Ok?
    ensures l.popped[i].x != l.popped[i].o
    ensures var pair, g := l.popped[i], StartPair(l.games, l.popped[i], id, names).value;
            && LobbyStep(l, LobbyEvent.Start(i, id, names)).games == g
            && g.active == l.games.active[id := ActiveValue(NewMatch(id, pair.x, pair.o).value,
                                                            map[pair.x := names[pair.x], pair.o := names[pair.o]])]
  {
  }

  lemma StartKeepsStored(s: Service, i: nat, id: MatchID, names: map<PlayerID, string>, saved: bool)
    requires Consistent(s) && i < |s.lobby.popped| && id !in s.history && id !in s.rows
    requires StartPair(s.lobby.games, s.lobby.popped[i], id, names).Ok?
    ensures var s' := OnStart(s, i, id, names, saved);
            SavesFit(s'.history, s'.saves, s'.rows) && NoticesFit(s'.history, s'.notices, s'.delivered)
  {
    hide StartPair, LobbyStep, Begun, SaveRow, NoticesOf, Orderly, HistoriesFit, SavesFit, NoticesFit, Sound;
    hide SignupsFit;
    var pair := s.lobby.popped[i];
    StartedPairDiffers(s.lobby, i, id, names);
    StartKeepsSaves(s.history, s.saves, s.rows, id, pair.x, pair.o, saved);
    StartKeepsNotices(s.history, s.notices, s.delivered, StartPair(s.lobby.games, pair, id, names).value.active[id]);
  }

  lemma StartKeepsSaves(history: map<MatchID, History>, saves: seq<MatchRecord>, rows: map<MatchID, Row>,
                        id: MatchID, x: PlayerID, o: PlayerID, saved: bool)
    requires SavesFit(history, saves, rows) && id !in history && id !in rows && x != o
    ensures SavesFit(history[id := Begun(x, o)], saves,
                     if saved then SaveRow(rows, RecordOf(NewMatch(id, x, o).value)) else rows)
  {
    hide LegalHistory, FairHistory, StatusOf;
    FairFromStart(id, x, o);
    var history' := history[id := Begun(x, o)];
    GrowthKeepsSaves(history, history', saves, rows);
    if saved {
      SaveKeepsRows(history', saves, rows, RecordOf(NewMatch(id, x, o).value));
    }
  }

  lemma StartKeepsNotices(history: map<MatchID, History>, notices: seq<Notice>,
                          delivered: map<MatchID, seq<Notice>>, a: ActiveValue)
    requires NoticesFit(history, notices, delivered) && a.game.id !in history
    ensures var id := a.game.id;
            NoticesFit(history[id := Begun(a.game.x, a.game.o)], notices,
                       delivered[id := Heard(delivered, id) + NoticesOf(a, MatchStarted)])
  {
    hide StateFor;
  }

  lemma StartKeepsHistories(g: GamesValue, history: map<MatchID, History>, pair: Pair, id: MatchID,
                            names: map<PlayerID, string>)
    requires HistoriesFit(g, history) && id !in history && StartPair(g, pair, id, names).Ok?
    ensures HistoriesFit(StartPair(g, pair, id, names).value, history[id := Begun(pair.x, pair.o)])
  {
    hide FairHistory;
    FairFromStart(id, pair.x, pair.o);
    var g', history' := StartPair(g, pair, id, names).value, history[id := Begun(pair.x, pair.o)];
    forall i | i in g'.active
      ensures i in history' && TellsOf(history'[i], g'.active[i].game)
    {
      assert i != id ==> TellsOf(history[i], g.active[i].game);
    }
  }

  lemma LiveMatchOf(g: GamesValue, history: map<MatchID, History>, p: PlayerID)
    requires Mirror(g) && InPlay(g) && HistoriesFit(g, history) && p in g.byPlayer
    ensures var id := g.byPlayer[p];
            && Lookup(g, p) == Some(id) && id in g.active && g.active[id].game.id == id && Fair(g.active[id].game)
            && id in history && TellsOf(history[id], g.active[id].game) && FairHistory(id, history[id])
  {
    assert PlaysIn(g, p);
    assert Seated(g, g.byPlayer[p]);
  }

  /** What an accepted move leaves of the maps. */
  lemma MovedEntries(g: GamesValue, p: PlayerID, cell: Int64)
    requires Lookup(g, p).Some? && g.active[g.byPlayer[p]].game.id == g.byPlayer[p] && MoveInMatch(g, p, cell).Ok?
    ensures var id, mv := g.byPlayer[p], MoveInMatch(g, p, cell).value;
            && mv.played.game.id == id
            && ApplyMove(g.active[id].game, p, cell) == Ok(mv.played.game)
            && mv.after.active.Keys == g.active.Keys - (if mv.Over() then {id} else {})
            && (forall i :: i in mv.after.active && i != id ==> mv.after.active[i] == g.active[i])
            && (!mv.Over() ==> mv.after.active[id] == mv.played)
  {
    ApplyMoveKeepsPlayers(g.active[g.byPlayer[p]].game, p, cell);
  }

  /** A move makes the history one longer, in step with the match. */
  lemma MoveExtendsHistory(g: GamesValue, history: map<MatchID, History>, p: PlayerID, cell: Int64)
    requires Mirror(g) && InPlay(g) && HistoriesFit(g, history) && MoveInMatch(g, p, cell).Ok?
    ensures var m := MoveInMatch(g, p, cell).value.played.game;
            && m.id == g.byPlayer[p] && m.id in history && m.id in g.active && Genuine(m)
            && m.x == history[m.id].x && m.o == history[m.id].o
            && |m.moves| == |history[m.id].moves| + 1 && history[m.id].moves <= m.moves
            && FairHistory(m.id, history[m.id]) && history[m.id].ending == Open
  {
    LiveMatchOf(g, history, p);
    MovedEntries(g, p, cell);
    var was := g.active[g.byPlayer[p]].game;
    ApplyMoveKeepsPlayers(was, p, cell);
    ApplyMoveVerdict(was, p, cell);
    AcceptedMovesAppend(was, p, cell);
  }

  lemma ExtendedIsFair(id: MatchID, h: History, mv: Moved)
    requires FairHistory(id, h) && h.ending == Open && Genuine(mv.played.game)
    requires var m := mv.played.game;
             m.id == id && m.x == h.x && m.o == h.o && |m.moves| == |h.moves| + 1 && h.moves <= m.moves
    ensures FairHistory(id, Extended(h, mv)) && Grows(h, Extended(h, mv))
  {
    var n := |h.moves|;
    assert Repeat(StateChanged, n + 1) == Repeat(StateChanged, n) + [StateChanged];
    assert mv.played.game == PositionOf(id, h.x, h.o, mv.played.game.moves);
    if mv.Over() {
      assert Extended(h, mv).events == EventsOf(n + 1, Finished);
    } else {
      assert Extended(h, mv).events == EventsOf(n + 1, Open);
    }
  }

  lemma MoveKeepsHistories(g: GamesValue, history: map<MatchID, History>, p: PlayerID, cell: Int64)
    requires Mirror(g) && InPlay(g) && HistoriesFit(g, history) && MoveInMatch(g, p, cell).Ok?
    ensures var mv := MoveInMatch(g, p, cell).value;
            var id := mv.played.game.id;
            && id in history
            && HistoriesFit(mv.after, history[id := Extended(history[id], mv)])
            && HistoriesGrow(history, history[id := Extended(history[id], mv)])
  {
    hide FairHistory, Fair, Mirror, InPlay;
    var mv := MoveInMatch(g, p, cell).value;
    var id := mv.played.game.id;
    LiveMatchOf(g, history, p);
    MovedEntries(g, p, cell);
    MoveExtendsHistory(g, history, p, cell);
    ExtendedIsFair(id, history[id], mv);
    var h' := Extended(history[id], mv);
    assert !mv.Over() ==> TellsOf(h', mv.played.game);
    HistoryReplaced(g, mv.after, history, id, h');
  }

  /** Replacing one history by a longer one, in step with its match. */
  lemma HistoryReplaced(g: GamesValue, g': GamesValue, history: map<MatchID, History>, id: MatchID, h: History)
    requires HistoriesFit(g, history) && id in history && id in g.active
    requires FairHistory(id, h) && Grows(history[id], h)
    requires g'.active.Keys == if h.ending == Open then g.active.Keys else g.active.Keys - {id}
    requires h.ending == Open ==> TellsOf(h, g'.active[id].game)
    requires forall i :: i in g'.active && i != id ==> g'.active[i] == g.active[i]
    ensures HistoriesFit(g', history[id := h]) && HistoriesGrow(history, history[id := h])
  {
    hide FairHistory;
    hide Fair;
    var history' := history[id := h];
    forall i | i in g'.active
      ensures i in history' && TellsOf(history'[i], g'.active[i].game)
    {
      assert i != id ==> TellsOf(history[i], g.active[i].game);
    }
    forall i | i in history'
      ensures FairHistory(i, history'[i])
      ensures history'[i].ending == Open <==> i in g'.active
    {
      assert i != id ==> FairHistory(i, history[i]);
    }
  }

  lemma RealResults(m: MatchValue)
    requires m.x != m.o && m.status != InProgress
    ensures RealOutcomes(ResultsOf(m))
  {
    ResultsArePaired(m);
  }

  lemma MoveKeepsStored(s: Service, p: PlayerID, cell: Int64)
    requires Consistent(s) && MoveInMatch(s.lobby.games, p, cell).Ok?
    ensures var s' := OnMove(s, p, cell);
            SavesFit(s'.history, s'.saves, s'.rows) && NoticesFit(s'.history, s'.notices, s'.delivered)
  {
    hide FairHistory, Fair, Sound, FirstComeFirstPaired, Mirror, InPlay, HistoriesFit, LobbyStep, Step, MoveInMatch;
    hide SavesFit, NoticesFit, NoticesOf, RecordOf, Extended, SignupsFit, HistoriesGrow, Genuine;
    var mv := MoveInMatch(s.lobby.games, p, cell).value;
    MoveExtendsHistory(s.lobby.games, s.history, p, cell);
    MoveKeepsHistories(s.lobby.games, s.history, p, cell);
    MoveKeepsSaves(s.history, s.saves, s.rows, mv);
    MoveKeepsNotices(s.history, s.notices, s.delivered, mv);
  }

  lemma MoveKeepsSaves(history: map<MatchID, History>, saves: seq<MatchRecord>, rows: map<MatchID, Row>, mv: Moved)
    requires SavesFit(history, saves, rows) && Genuine(mv.played.game)
    requires var m := mv.played.game;
             m.id in history && m.x == history[m.id].x && m.o == history[m.id].o
    requires HistoriesGrow(history, history[mv.played.game.id := Extended(history[mv.played.game.id], mv)])
    ensures SavesFit(history[mv.played.game.id := Extended(history[mv.played.game.id], mv)],
                     saves + [RecordOf(mv.played.game)], rows)
  {
    hide LegalHistory, BoardOf, TurnOf, StatusOf, HistoriesGrow;
    var m := mv.played.game;
    var history' := history[m.id := Extended(history[m.id], mv)];
    GrowthKeepsSaves(history, history', saves, rows);
    assert Faithful(RecordOf(m), history');
  }

  lemma MoveKeepsNotices(history: map<MatchID, History>, notices: seq<Notice>,
                         delivered: map<MatchID, seq<Notice>>, mv: Moved)
    requires NoticesFit(history, notices, delivered) && mv.played.game.id in history
    requires HistoriesGrow(history, history[mv.played.game.id := Extended(history[mv.played.game.id], mv)])
    ensures NoticesFit(history[mv.played.game.id := Extended(history[mv.played.game.id], mv)],
                       notices + NoticesOf(mv.played, mv.Kind()), delivered)
  {
    hide Extended, HistoriesGrow;
    var id := mv.played.game.id;
    GrowthKeepsNotices(history, history[id := Extended(history[id], mv)], notices, delivered);
  }

  lemma MoveKeepsLedger(s: Service, p: PlayerID, cell: Int64)
    requires Consistent(s) && MoveInMatch(s.lobby.games, p, cell).Ok?
    ensures Sound(OnMove(s, p, cell).ledger)
  {
    hide FairHistory, Fair, Sound, FirstComeFirstPaired, Mirror, InPlay, HistoriesFit, LobbyStep, MoveInMatch;
    hide NoticesOf;
    var mv := MoveInMatch(s.lobby.games, p, cell).value;
    MoveExtendsHistory(s.lobby.games, s.history, p, cell);
    if mv.Over() {
      RealResults(mv.played.game);
    }
    StepKeepsSound(s.ledger, Settle(mv.Results()));
  }

  lemma MoveKeepsConsistent(s: Service, p: PlayerID, cell: Int64)
    requires Consistent(s)
    ensures Consistent(OnMove(s, p, cell))
    ensures HistoriesGrow(s.history, OnMove(s, p, cell).history)
  {
    hide FairHistory, Fair, Sound, FirstComeFirstPaired, Mirror, InPlay, HistoriesFit, MoveInMatch, Step;
    hide SavesFit, NoticesFit;
    if MoveInMatch(s.lobby.games, p, cell).Ok? {
      StepKeepsOrder(s.lobby, Play(p, cell));
      StepKeepsGames(s.lobby, Play(p, cell));
      MoveKeepsHistories(s.lobby.games, s.history, p, cell);
      MoveKeepsStored(s, p, cell);
      MoveKeepsLedger(s, p, cell);
    }
  }

  lemma LeftIsFair(id: MatchID, h: History)
    requires FairHistory(id, h) && h.ending == Open
    ensures FairHistory(id, GivenUp(h)) && Grows(h, GivenUp(h))
  {
    assert h.events + [OpponentLeft] == EventsOf(|h.moves|, Abandoned);
  }

  lemma AbandonClosesHistory(g: GamesValue, history: map<MatchID, History>, p: PlayerID)
    requires Mirror(g) && InPlay(g) && HistoriesFit(g, history) && AbandonMatch(g, p).Some?
    ensures var (g', n) := AbandonMatch(g, p).value;
            var id := n.state.matchID;
            && id in history && n.kind == OpponentLeft
            && var history' := history[id := GivenUp(history[id])];
               HistoriesFit(g', history') && HistoriesGrow(history, history')
  {
    hide FairHistory, Fair, Mirror, InPlay;
    LiveMatchOf(g, history, p);
    var id := g.byPlayer[p];
    LeftIsFair(id, history[id]);
    HistoryReplaced(g, AbandonMatch(g, p).value.0, history, id,
                    GivenUp(history[id]));
  }

  lemma AbandonKeepsConsistent(s: Service, p: PlayerID)
    requires Consistent(s)
    ensures Consistent(OnAbandon(s, p))
    ensures HistoriesGrow(s.history, OnAbandon(s, p).history)
  {
    hide FairHistory, Sound, FirstComeFirstPaired, Mirror, InPlay, HistoriesFit, SignupsFit, StateFor, SavesFit;
    var g, s' := s.lobby.games, OnAbandon(s, p);
    if AbandonMatch(g, p).Some? {
      StepKeepsOrder(s.lobby, LobbyEvent.Abandon(p));
      StepKeepsGames(s.lobby, LobbyEvent.Abandon(p));
      AbandonClosesHistory(g, s.history, p);
      GrowthKeepsSaves(s.history, s'.history, s.saves, s.rows);
      GrowthKeepsNotices(s.history, s'.history, s.notices, s.delivered);
    }
  }

  lemma StoreMatchKeepsConsistent(s: Service, i: nat, ok: bool)
    requires Consistent(s) && i < |s.saves|
    ensures Consistent(OnStoreMatch(s, i, ok)) && OnStoreMatch(s, i, ok).history == s.history
  {
    var r := s.saves[i];
    assert r in s.saves;
    WithoutKeeps(s.saves, i);
    assert SavesFit(s.history, Without(s.saves, i), s.rows);
    if ok {
      SaveKeepsRows(s.history, Without(s.saves, i), s.rows, r);
    }
  }

  lemma DeliverKeepsConsistent(s: Service, i: nat)
    requires Consistent(s) && i < |s.notices|
    ensures Consistent(OnDeliver(s, i)) && OnDeliver(s, i).history == s.history
  {
    hide Orderly, HistoriesFit, SavesFit, Sound, SignupsFit, NoticesFit;
    var s' := OnDeliver(s, i);
    DeliveryFits(s.history, s.notices, s.delivered, i);
    assert s'.delivered == s.delivered[s.notices[i].state.matchID := Heard(s.delivered, s.notices[i].state.matchID) + [s.notices[i]]];
  }

  lemma DeliveryFits(history: map<MatchID, History>, notices: seq<Notice>, delivered: map<MatchID, seq<Notice>>, i: nat)
    requires NoticesFit(history, notices, delivered) && i < |notices|
    ensures var id := notices[i].state.matchID;
            NoticesFit(history, Without(notices, i), delivered[id := Heard(delivered, id) + [notices[i]]])
  {
    assert notices[i] in notices;
    WithoutKeeps(notices, i);
    forall id | id in history
      ensures StartedFirst(history[id], delivered[id])
    {
    }
  }

  /** The steps of the queue alone. */
  lemma QueueingKeepsConsistent(s: Service, e: LobbyEvent)
    requires Consistent(s) && (e.Check? || e.Queue? || e.Quit?)
    ensures Consistent(s.(lobby := LobbyStep(s.lobby, e)))
  {
    hide HistoriesFit, SavesFit, NoticesFit, FirstComeFirstPaired, Mirror, InPlay, Sound, SignupsFit;
    StepKeepsOrder(s.lobby, e);
  }

  /** The steps of the recording calls alone. */
  lemma RecordingKeepsConsistent(s: Service, e: Event)
    requires Consistent(s) && (e.Load? || e.Land?)
    ensures Consistent(s.(ledger := Step(s.ledger, e)))
  {
    hide Orderly, HistoriesFit, SavesFit, NoticesFit, Sound, SignupsFit, Step;
    StepKeepsSound(s.ledger, e);
  }

  lemma SignUpKeepsConsistent(s: Service, id: PlayerID, name: string, password: string, hash: string)
    requires Consistent(s)
    ensures Consistent(OnSignUp(s, id, name, password, hash)) && OnSignUp(s, id, name, password, hash).history == s.history
  {
    hide Orderly, HistoriesFit, SavesFit, NoticesFit, Sound, CheckRegistration;
  }

  lemma CreateKeepsConsistent(s: Service, id: PlayerID)
    requires Consistent(s) && id in s.signups
    ensures Consistent(OnCreate(s, id)) && OnCreate(s, id).history == s.history
  {
    hide Orderly, HistoriesFit, SavesFit, NoticesFit, Sound, Step;
    StepKeepsSound(s.ledger, Enrol(s.signups[id]));
  }

  lemma StepKeepsConsistent(s: Service, a: Action)
    requires Consistent(s)
    ensures Consistent(Next(s, a)) && HistoriesGrow(s.history, Next(s, a).history)
  {
    hide OnStart, OnMove, OnAbandon, OnStoreMatch, OnDeliver, OnSignUp, OnCreate, LobbyStep, Step, Consistent;
    match a
    case JoinCheck(p) => QueueingKeepsConsistent(s, Check(p));
    case JoinQueue(p) => QueueingKeepsConsistent(s, Queue(p));
    case Leave(p) => QueueingKeepsConsistent(s, Quit(p));
    case StartPopped(i, id, found, saved) =>
      if i < |s.lobby.popped| && id !in s.history && id !in s.rows {
        StartKeepsConsistent(s, i, id, KnownNames(s.ledger.store, found), saved);
      }
    case Move(p, cell) => MoveKeepsConsistent(s, p, cell);
    case Abandon(p) => AbandonKeepsConsistent(s, p);
    case StoreMatch(i, ok) => if i < |s.saves| { StoreMatchKeepsConsistent(s, i, ok); }
    case LoadStats(i, ok) => RecordingKeepsConsistent(s, Load(i, ok));
    case StoreStats(i, ok) => RecordingKeepsConsistent(s, Land(i, ok));
    case Deliver(i) => if i < |s.notices| { DeliverKeepsConsistent(s, i); }
    case SignUp(id, name, password, hash) => SignUpKeepsConsistent(s, id, name, password, hash);
    case CreateAccount(id) => if id in s.signups { CreateKeepsConsistent(s, id); }
  }

  // ----- whole runs -----

  /** Everything above holds in every state of every run, however the steps interleave and whichever stores fail. */
  lemma {:induction false} EveryRunIsConsistent(s: Service, acts: seq<Action>)
    requires Booted(s)
    ensures Consistent(Run(s, acts))
  {
    if acts == [] {
      forall p | p in s.ledger.store.byID
        ensures Tracked(s.ledger, p)
      {
        assert s.ledger.ideal[p] == s.ledger.store.byID[p].stats;
      }
    } else {
      EveryRunIsConsistent(s, acts[..|acts| - 1]);
      StepKeepsConsistent(Run(s, acts[..|acts| - 1]), acts[|acts| - 1]);
    }
  }

  /** Between any two moments of a run, histories only grow; a match that has ended or been left never
      changes again, so it settles at most once and its ID is never live again. */
  lemma {:induction false} ClosedMatchesStayClosed(s: Service, acts: seq<Action>, n: nat)
    requires Booted(s) && n <= |acts|
    ensures HistoriesGrow(Run(s, acts[..n]).history, Run(s, acts).history)
    ensures forall id :: id in Run(s, acts[..n]).history && Run(s, acts[..n]).history[id].ending != Open ==>
              && Run(s, acts).history[id] == Run(s, acts[..n]).history[id]
              && id !in Run(s, acts).lobby.games.active
  {
    hide Booted, Next, FairHistory, TellsOf, Orderly, SavesFit, NoticesFit, Sound, SignupsFit;
    EveryRunIsConsistent(s, acts);
    if n == |acts| {
      assert acts[..n] == acts;
    } else {
      var k := |acts| - 1;
      assert acts[..k][..n] == acts[..n];
      ClosedMatchesStayClosed(s, acts[..k], n);
      EveryRunIsConsistent(s, acts[..k]);
      StepKeepsConsistent(Run(s, acts[..k]), acts[k]);
      GrowthComposes(Run(s, acts[..n]).history, Run(s, acts[..k]).history, Run(s, acts).history);
    }
  }

  lemma GrowthComposes(a: map<MatchID, History>, b: map<MatchID, History>, c: map<MatchID, History>)
    requires HistoriesGrow(a, b) && HistoriesGrow(b, c)
    ensures HistoriesGrow(a, c)
  {
    forall id | id in a
      ensures id in c && Grows(a[id], c[id])
    {
      assert Grows(a[id], b[id]) && Grows(b[id], c[id]);
    }
  }

  lemma SavedIsFaithful(s: Service, r: MatchRecord)
    requires Consistent(s) && r in s.saves
    ensures Faithful(r, s.history) && r.id in s.history && r.moves <= s.history[r.id].moves && RealMarks(r.moves)
    ensures r.id in s.rows ==> s.rows[r.id].x == r.x && s.rows[r.id].o == r.o
  {
    hide Orderly, NoticesFit, Sound, SignupsFit, HistoriesFit, Decode, ParseStatus, RealMarks;
    HistoryMarksAreReal(s, r);
  }

  lemma HistoryMarksAreReal(s: Service, r: MatchRecord)
    requires Consistent(s) && Faithful(r, s.history)
    ensures RealMarks(r.moves)
  {
    hide Orderly, NoticesFit, Sound, SignupsFit, SavesFit, StatusOf, EventsOf, ResultsOf, PositionOf;
    assert FairHistory(r.id, s.history[r.id]);
    assert forall i :: 0 <= i < |r.moves| ==> r.moves[i] == s.history[r.id].moves[i];
  }

  // ----- accounts -----

  /** In every run no two accounts share a name in any capitalisation, however registrations interleave, the lookup by name
      agrees with a scan, and every player's stats are exact unless a stale save hit that player. */
  lemma AccountsStaySound(s: Service, acts: seq<Action>, name: string)
    requires Booted(s)
    ensures var players := Run(s, acts).ledger.store;
            && (forall p, q :: p in players.byID.Values && q in players.byID.Values && SameName(p.name, q.name) ==> p == q)
            && (forall p :: PlayerByName(players, name) == Ok(p) <==> p in players.byID.Values && SameName(p.name, name))
            && (forall id :: id in players.byID ==>
                  id in Run(s, acts).ledger.ideal
                  && (players.byID[id].stats == Run(s, acts).ledger.ideal[id] <==> id !in Run(s, acts).ledger.overwritten))
  {
    EveryRunIsConsistent(s, acts);
    var l := Run(s, acts).ledger;
    LookupIsLinearScan(l.store, name);
    forall a: string, b: string
      ensures SameName(a, b) <==> NameKey(a) == NameKey(b)
    {
      KeysIgnoreCase(a, b);
    }
    forall id | id in l.store.byID
      ensures l.store.byID[id].stats == l.ideal[id] <==> id !in l.overwritten
    {
      assert Tracked(l, id);
    }
  }

  /** In every run a move fails only for one of the four reasons a player can cause. */
  lemma MovesFailOnlyFairly(s: Service, acts: seq<Action>, p: PlayerID, cell: Int64)
    requires Booted(s)
    ensures var g := Run(s, acts).lobby.games;
            var r := MoveInMatch(g, p, cell);
            && |g.byPlayer| == 2 * |g.active|
            && Lookup(g, p).Some? == (p in g.byPlayer)
            && (r.Err? ==> r.error in {NoActiveMatch, NotYourTurn, CellOutOfBounds, CellOccupied})
  {
    EveryRunIsConsistent(s, acts);
    var g := Run(s, acts).lobby.games;
    TwoPlayersPerMatch(g);
    LookupNeverMisses(g, p);
    MoveVerdict(g, p, cell);
  }
}
