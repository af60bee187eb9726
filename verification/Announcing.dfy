/** What runs of the service tell the players: in which order, to whom, and exactly what. */
module Announcing {
  import opened Base
  import opened Matches
  import opened Histories
  import opened PlayerStores
  import opened Recording
  import opened LiveGames
  import opened Matchmakers
  import opened Services

  // ----- the order of events -----

  /** match_started, then state_changed n times, then nothing more or one closing event. */
  predicate EventGrammar(ks: seq<EventKind>, n: nat) {
    || ks == [MatchStarted] + Repeat(StateChanged, n)
    || ks == [MatchStarted] + Repeat(StateChanged, n) + [MatchEnded]
    || ks == [MatchStarted] + Repeat(StateChanged, n) + [OpponentLeft]
  }

  lemma FairHistoryEvents(id: MatchID, h: History)
    requires FairHistory(id, h)
    ensures exists n: nat :: n <= 8 && EventGrammar(h.events, n)
    ensures h.results != [] <==> MatchEnded in h.events
    ensures h.results != [] ==> h.results == ResultsOf(PositionOf(id, h.x, h.o, h.moves))
  {
    hide LegalHistory, PositionOf, ResultsOf;
    AtMostNineMoves(h.moves);
    NoMovesNoWinner();
    var n := if h.ending == Finished then |h.moves| - 1 else |h.moves|;
    assert h.ending == Finished ==> h.moves != [];
    assert EventGrammar(h.events, n);
    if h.ending == Finished {
      assert |ResultsOf(PositionOf(id, h.x, h.o, h.moves))| == 2 by {
        TwoResults(PositionOf(id, h.x, h.o, h.moves));
      }
    }
  }

  lemma TwoResults(m: MatchValue)
    ensures |ResultsOf(m)| == 2
  {
  }

  /** The events committed for a match, in lock order: match_started, at most eight state_changed, then at
      most one of match_ended and opponent_left. Its results appear with match_ended and only then. */
  lemma EventsAreOrdered(s: Service, acts: seq<Action>, id: MatchID)
    requires Booted(s) && id in Run(s, acts).history
    ensures var h := Run(s, acts).history[id];
            && (exists n: nat :: n <= 8 && EventGrammar(h.events, n))
            && (h.results != [] <==> MatchEnded in h.events)
            && (h.results != [] ==> h.results == ResultsOf(PositionOf(id, h.x, h.o, h.moves)))
  {
    EveryRunIsConsistent(s, acts);
    FairHistoryEvents(id, Run(s, acts).history[id]);
  }

  /** Both players hear that their match has started before either hears anything else about it, and nobody
      hears of a match that has not started. */
  lemma StartIsHeardFirst(s: Service, acts: seq<Action>, id: MatchID)
    requires Booted(s)
    ensures var s' := Run(s, acts);
            if id in s'.history then StartedFirst(s'.history[id], Heard(s'.delivered, id)) else Heard(s'.delivered, id) == []
  {
    hide Next, Booted, StartedFirst, Orderly, HistoriesFit, SavesFit, Sound, SignupsFit;
    EveryRunIsConsistent(s, acts);
  }

  // ----- what is told -----

  ghost function View(id: MatchID, x: PlayerID, o: PlayerID, names: map<PlayerID, string>, ms: seq<Move>): ActiveValue {
    ActiveValue(PositionOf(id, x, o, ms), names)
  }

  /** One notice to each player when the match starts and after each move, each showing the match as it then stood. */
  ghost function Rounds(id: MatchID, x: PlayerID, o: PlayerID, names: map<PlayerID, string>,
                        ms: seq<Move>): seq<Notice> {
    if ms == [] then NoticesOf(View(id, x, o, names, []), MatchStarted)
    else Rounds(id, x, o, names, ms[..|ms| - 1])
         + NoticesOf(View(id, x, o, names, ms), if StatusOf(ms) == InProgress then StateChanged else MatchEnded)
  }

  /** Everything a history tells; of a match given up, one last notice goes to the player who stays. */
  ghost function Announcements(id: MatchID, h: History, names: map<PlayerID, string>, stayer: PlayerID): seq<Notice> {
    Rounds(id, h.x, h.o, names, h.moves)
    + if h.ending == Abandoned
      then [Notice(stayer, OpponentLeft, StateFor(View(id, h.x, h.o, names, h.moves), stayer))]
      else []
  }

  /** The names the players of a match are stored by. */
  function SeatNames(store: Players, h: History): map<PlayerID, string> {
    map[h.x := NameIn(NamesOf(store), h.x), h.o := NameIn(NamesOf(store), h.o)]
  }

  lemma SeatNamesAreStored(store: Players, h: History)
    requires h.x in store.byID && h.o in store.byID
    ensures SeatNames(store, h) == map[h.x := store.byID[h.x].name, h.o := store.byID[h.o].name]
  {
  }

  // ----- what the notices show -----

  /** The event of the round after j moves. */
  function RoundKind(h: History, j: nat): EventKind {
    if j == 0 then MatchStarted else if j == |h.moves| && h.ending == Finished then MatchEnded else StateChanged
  }

  /** n tells p of this event and shows p the match of h after its first j moves. */
  ghost predicate Tells(n: Notice, id: MatchID, h: History, names: map<PlayerID, string>, j: nat, kind: EventKind, p: PlayerID)
    requires j <= |h.moves|
  {
    n.to == p && n.kind == kind && Shows(n.state, id, h.x, h.o, names, h.moves[..j], p)
  }

  /** A round for the start and one for each move, to both players, and a last notice to the one who stays. */
  ghost predicate TellsThePlay(announced: seq<Notice>, id: MatchID, h: History, names: map<PlayerID, string>, stayer: PlayerID) {
    var n := |h.moves|;
    && |announced| == 2 * n + (if h.ending == Abandoned then 3 else 2)
    && (forall j :: 0 <= j <= n ==>
          && Tells(announced[2 * j], id, h, names, j, RoundKind(h, j), h.x)
          && Tells(announced[2 * j + 1], id, h, names, j, RoundKind(h, j), h.o))
    && (h.ending == Abandoned ==> Tells(announced[2 * n + 2], id, h, names, n, OpponentLeft, stayer))
  }

  lemma {:induction false} RoundsTellThePlay(id: MatchID, h: History, names: map<PlayerID, string>, n: nat)
    requires h.x != h.o && LegalHistory(h.moves) && n <= |h.moves|
    requires h.ending == Finished <==> StatusOf(h.moves) != InProgress
    ensures var rs := Rounds(id, h.x, h.o, names, h.moves[..n]);
            && |rs| == 2 * n + 2
            && forall j :: 0 <= j <= n ==>
                 && Tells(rs[2 * j], id, h, names, j, RoundKind(h, j), h.x)
                 && Tells(rs[2 * j + 1], id, h, names, j, RoundKind(h, j), h.o)
  {
    hide NoticesOf, Shows, BoardOf, StatusOf, TurnOf, LegalHistory;
    var ms := h.moves[..n];
    var a := View(id, h.x, h.o, names, ms);
    LegalPrefix(h.moves, n);
    NoticesShowThePlay(a, RoundKind(h, n));
    if n > 0 {
      assert ms[..n - 1] == h.moves[..n - 1];
      RoundsTellThePlay(id, h, names, n - 1);
      KindAfter(h, n);
    }
  }

  lemma KindAfter(h: History, n: nat)
    requires LegalHistory(h.moves) && 0 < n <= |h.moves| && (h.ending == Finished <==> StatusOf(h.moves) != InProgress)
    ensures RoundKind(h, n) == if StatusOf(h.moves[..n]) == InProgress then StateChanged else MatchEnded
  {
    hide LegalHistory, StatusOf;
    if n < |h.moves| {
      LegalPrefix(h.moves, n + 1);
      OnlyTheLastMoveEnds(h.moves[..n + 1]);
      assert h.moves[..n + 1][..n] == h.moves[..n];
    } else {
      assert h.moves[..n] == h.moves;
    }
  }

  lemma AnnouncementsTellThePlay(id: MatchID, h: History, names: map<PlayerID, string>, stayer: PlayerID)
    requires FairHistory(id, h) && (stayer == h.x || stayer == h.o)
    ensures TellsThePlay(Announcements(id, h, names, stayer), id, h, names, stayer)
  {
    hide Shows, BoardOf, StatusOf, TurnOf, LegalHistory, Rounds, StateFor, EventsOf, ResultsOf;
    var n := |h.moves|;
    assert h.moves[..n] == h.moves;
    RoundsTellThePlay(id, h, names, n);
    StateShowsThePlay(View(id, h.x, h.o, names, h.moves), stayer);
  }

  /** The notices of the match handed over and still pending are those announced, each once. */
  ghost predicate ToldOnce(id: MatchID, announced: seq<Notice>, notices: seq<Notice>, heard: seq<Notice>) {
    forall n: Notice :: n.state.matchID == id ==>
      multiset(notices)[n] + multiset(heard)[n] == multiset(announced)[n]
  }

  ghost predicate ToldWith(id: MatchID, h: History, names: map<PlayerID, string>, stayer: PlayerID,
                           notices: seq<Notice>, heard: seq<Notice>) {
    (stayer == h.x || stayer == h.o) && ToldOnce(id, Announcements(id, h, names, stayer), notices, heard)
  }

  /** Every event of the match has been told, or is about to be, to the players it is for. */
  ghost predicate Announced(s: Service, id: MatchID) {
    && id in s.history
    && var h := s.history[id];
       var names := SeatNames(s.ledger.store, h);
       && h.x in s.ledger.store.byID && h.o in s.ledger.store.byID
       && (id in s.lobby.games.active ==> s.lobby.games.active[id].names == names)
       && exists stayer :: ToldWith(id, h, names, stayer, s.notices, Heard(s.delivered, id))
  }

  // ----- what each step does to it -----

  lemma ToldMore(id: MatchID, announced: seq<Notice>, notices: seq<Notice>, heard: seq<Notice>, ns: seq<Notice>,
                 id': MatchID)
    requires ToldOnce(id, announced, notices, heard) && forall n :: n in ns ==> n.state.matchID == id'
    ensures ToldOnce(id, if id == id' then announced + ns else announced, notices + ns, heard)
  {
    assert multiset(notices + ns) == multiset(notices) + multiset(ns);
    assert multiset(announced + ns) == multiset(announced) + multiset(ns);
  }

  lemma ToldLater(id: MatchID, announced: seq<Notice>, notices: seq<Notice>, heard: seq<Notice>, i: nat)
    requires ToldOnce(id, announced, notices, heard) && i < |notices|
    ensures ToldOnce(id, announced, Without(notices, i), if notices[i].state.matchID == id then heard + [notices[i]] else heard)
  {
    WithoutKeeps(notices, i);
    assert multiset(heard + [notices[i]]) == multiset(heard) + multiset{notices[i]};
  }

  lemma DeliverIsAnnounced(s: Service, i: nat, id: MatchID)
    requires Announced(s, id) && i < |s.notices|
    ensures Announced(OnDeliver(s, i), id)
  {
    hide ToldOnce, Announcements, SeatNames, Without;
    var h := s.history[id];
    var names := SeatNames(s.ledger.store, h);
    var stayer :| ToldWith(id, h, names, stayer, s.notices, Heard(s.delivered, id));
    ToldLater(id, Announcements(id, h, names, stayer), s.notices, Heard(s.delivered, id), i);
    var s' := OnDeliver(s, i);
    assert ToldWith(id, h, names, stayer, s'.notices, Heard(s'.delivered, id));
  }

  lemma RoundsGrow(id: MatchID, h: History, h': History, names: map<PlayerID, string>, stayer: PlayerID, mv: Moved)
    requires h.ending == Open && h' == Extended(h, mv) && Genuine(mv.played.game) && mv.played.names == names
    requires var m := mv.played.game;
             m.id == id && m.x == h.x && m.o == h.o && |m.moves| == |h.moves| + 1 && h.moves <= m.moves
    ensures Announcements(id, h', names, stayer) == Announcements(id, h, names, stayer) + NoticesOf(mv.played, mv.Kind())
  {
    hide LegalHistory, BoardOf, TurnOf, StatusOf, NoticesOf;
    var ms := mv.played.game.moves;
    assert ms[..|ms| - 1] == h.moves;
    assert mv.played == View(id, h.x, h.o, names, ms);
  }

  lemma NoticesAreOfMatch(a: ActiveValue, kind: EventKind)
    ensures forall n :: n in NoticesOf(a, kind) ==> n.state.matchID == a.game.id
  {
  }

  lemma MoveIsAnnounced(s: Service, p: PlayerID, cell: Int64, id: MatchID)
    requires Consistent(s) && Announced(s, id)
    ensures Announced(OnMove(s, p, cell), id)
  {
    hide FairHistory, Mirror, InPlay, FirstComeFirstPaired, SavesFit, NoticesFit, Sound, SignupsFit, Heard;
    hide MoveInMatch, Genuine, NoticesOf, ToldOnce, Announcements, SeatNames, LobbyStep;
    var g := s.lobby.games;
    if MoveInMatch(g, p, cell).Ok? {
      var mv, s' := MoveInMatch(g, p, cell).value, OnMove(s, p, cell);
      var h, heard, id' := s.history[id], Heard(s.delivered, id), mv.played.game.id;
      var names := SeatNames(s.ledger.store, h);
      MoveExtendsHistory(g, s.history, p, cell);
      MovedGames(s, p, cell);
      var stayer :| ToldWith(id, h, names, stayer, s.notices, heard);
      NoticesAreOfMatch(mv.played, mv.Kind());
      ToldMore(id, Announcements(id, h, names, stayer), s.notices, heard, NoticesOf(mv.played, mv.Kind()), id');
      if id == id' {
        RoundsGrow(id, h, s'.history[id], names, stayer, mv);
      }
      SameSeats(s.ledger.store, h, s'.history[id]);
      assert ToldWith(id, s'.history[id], names, stayer, s'.notices, heard);
    }
  }

  lemma SameSeats(store: Players, h: History, h': History)
    requires h'.x == h.x && h'.o == h.o
    ensures SeatNames(store, h') == SeatNames(store, h)
  {
  }

  /** A move keeps the names of the match it is made in, and the other matches. */
  lemma MovedGames(s: Service, p: PlayerID, cell: Int64)
    requires Consistent(s) && MoveInMatch(s.lobby.games, p, cell).Ok?
    ensures var g, mv, g' := s.lobby.games, MoveInMatch(s.lobby.games, p, cell).value, OnMove(s, p, cell).lobby.games;
            var id := mv.played.game.id;
            && id in g.active && mv.played.names == g.active[id].names
            && forall i :: i in g'.active ==> i in g.active && g'.active[i].names == g.active[i].names
  {
    hide FairHistory, Fair, FirstComeFirstPaired, SavesFit, NoticesFit, Sound, SignupsFit, ApplyMove, NoticesOf;
    var g := s.lobby.games;
    LiveMatchOf(g, s.history, p);
    MovedEntries(g, p, cell);
  }

  lemma AbandonedGames(s: Service, p: PlayerID)
    requires Consistent(s) && AbandonMatch(s.lobby.games, p).Some?
    ensures var g, n, s' := s.lobby.games, AbandonMatch(s.lobby.games, p).value.1, OnAbandon(s, p);
            var id := n.state.matchID;
            && id in g.active && id in s.history && s.history[id].ending == Open
            && s'.history == s.history[id := GivenUp(s.history[id])]
            && (n.to == s.history[id].x || n.to == s.history[id].o)
            && n == Notice(n.to, OpponentLeft,
                           StateFor(View(id, s.history[id].x, s.history[id].o, g.active[id].names, s.history[id].moves), n.to))
            && (forall i :: i in s'.lobby.games.active ==> i in g.active && s'.lobby.games.active[i] == g.active[i])
  {
    hide FairHistory, FirstComeFirstPaired, SavesFit, NoticesFit, Sound, SignupsFit, StateFor, LegalHistory;
    hide BoardOf, StatusOf, TurnOf;
    var g := s.lobby.games;
    LiveMatchOf(g, s.history, p);
    var id := g.byPlayer[p];
    assert PlaysIn(g, p);
    FarewellOfView(g.active[id], p, g.active[id].names);
  }

  lemma FarewellOfView(a: ActiveValue, p: PlayerID, names: map<PlayerID, string>)
    requires Genuine(a.game) && (p == a.game.x || p == a.game.o)
    ensures var n, m := FarewellOf(a, p), a.game;
            && n.state.matchID == m.id && (n.to == m.x || n.to == m.o) && n.kind == OpponentLeft
            && n.state == StateFor(View(m.id, m.x, m.o, a.names, m.moves), n.to)
  {
    hide LegalHistory, BoardOf, TurnOf, StatusOf;
    assert a == View(a.game.id, a.game.x, a.game.o, a.names, a.game.moves);
  }

  lemma FarewellGrows(id: MatchID, h: History, h': History, names: map<PlayerID, string>, was: PlayerID, n: Notice)
    requires h.ending == Open && h'.ending == Abandoned && h'.x == h.x && h'.o == h.o && h'.moves == h.moves
    requires n == Notice(n.to, OpponentLeft, StateFor(View(id, h.x, h.o, names, h.moves), n.to))
    ensures Announcements(id, h', names, n.to) == Announcements(id, h, names, was) + [n]
  {
    hide Rounds, View, StateFor;
  }

  lemma AbandonIsAnnounced(s: Service, p: PlayerID, id: MatchID)
    requires Consistent(s) && Announced(s, id)
    ensures Announced(OnAbandon(s, p), id)
  {
    hide Consistent, AbandonMatch, StateFor, ToldOnce, SeatNames, LobbyStep, Heard, Announcements, View;
    var g := s.lobby.games;
    if AbandonMatch(g, p).Some? {
      var n, s' := AbandonMatch(g, p).value.1, OnAbandon(s, p);
      var h, heard, id' := s.history[id], Heard(s.delivered, id), n.state.matchID;
      var names := SeatNames(s.ledger.store, h);
      AbandonedGames(s, p);
      var was :| ToldWith(id, h, names, was, s.notices, heard);
      ToldMore(id, Announcements(id, h, names, was), s.notices, heard, [n], id');
      if id == id' {
        FarewellGrows(id, h, s'.history[id], names, was, n);
      }
      var stayer := if id == id' then n.to else was;
      SameSeats(s.ledger.store, h, s'.history[id]);
      assert ToldWith(id, s'.history[id], names, stayer, s'.notices, heard);
    }
  }

  lemma StartIsAnnounced(s: Service, i: nat, id': MatchID, names: map<PlayerID, string>, saved: bool, id: MatchID)
    requires Consistent(s) && i < |s.lobby.popped| && id' !in s.history && id' !in s.rows
    requires names == NamesOf(s.ledger.store) || names == map[]
    requires id in s.history ==> Announced(s, id)
    ensures var s' := OnStart(s, i, id', names, saved); id in s'.history ==> Announced(s', id)
  {
    hide Orderly, SavesFit, Sound, SignupsFit, HistoriesFit, StartPair, LobbyStep, NoticesOf, ToldOnce;
    hide Announcements, SeatNames, StartedFirst;
    var s' := OnStart(s, i, id', names, saved);
    if StartPair(s.lobby.games, s.lobby.popped[i], id', names).Ok? {
      StartedPairDiffers(s.lobby, i, id', names);
      if id == id' {
        FirstAnnouncement(s, i, id, names, saved);
      } else if id in s.history {
        var h := s.history[id];
        var stayer :| ToldWith(id, h, SeatNames(s.ledger.store, h), stayer, s.notices, Heard(s.delivered, id));
        assert ToldWith(id, h, SeatNames(s.ledger.store, h), stayer, s'.notices, Heard(s'.delivered, id));
      }
    } else {
      RefusedStart(s.lobby, i, id', names);
    }
  }

  lemma FirstAnnouncement(s: Service, i: nat, id: MatchID, names: map<PlayerID, string>, saved: bool)
    requires Consistent(s) && i < |s.lobby.popped| && id !in s.history && id !in s.rows
    requires names == NamesOf(s.ledger.store) || names == map[]
    requires StartPair(s.lobby.games, s.lobby.popped[i], id, names).Ok?
    ensures var s' := OnStart(s, i, id, names, saved); Announced(s', id)
  {
    hide Orderly, SavesFit, Sound, SignupsFit, HistoriesFit, LobbyStep, NoticesOf, StartedFirst;
    var s', pair := OnStart(s, i, id, names, saved), s.lobby.popped[i];
    StartedPairDiffers(s.lobby, i, id, names);
    var h, a := Begun(pair.x, pair.o), s'.lobby.games.active[id];
    NewMatchIsGenuine(id, pair.x, pair.o);
    assert a == View(id, h.x, h.o, SeatNames(s.ledger.store, h), []);
    NoticesAreOfMatch(a, MatchStarted);
    assert Heard(s.delivered, id) == [];
    assert ToldWith(id, h, SeatNames(s.ledger.store, h), h.x, s'.notices, Heard(s'.delivered, id)) by {
      assert multiset([] + NoticesOf(a, MatchStarted)) == multiset(NoticesOf(a, MatchStarted));
    }
  }

  lemma LedgerIsAnnounced(s: Service, e: Event, id: MatchID)
    requires Sound(s.ledger) && Announced(s, id)
    ensures Announced(s.(ledger := Step(s.ledger, e)), id)
  {
    hide Step, Sound, ToldOnce, Announcements, Heard;
    var h := s.history[id];
    StepKeepsNames(s.ledger, e, h.x);
    StepKeepsNames(s.ledger, e, h.o);
    var stayer :| ToldWith(id, h, SeatNames(s.ledger.store, h), stayer, s.notices, Heard(s.delivered, id));
    assert SeatNames(Step(s.ledger, e).store, h) == SeatNames(s.ledger.store, h);
    assert ToldWith(id, h, SeatNames(Step(s.ledger, e).store, h), stayer, s.notices, Heard(s.delivered, id));
  }

  lemma QueueingIsAnnounced(s: Service, e: LobbyEvent, id: MatchID)
    requires Announced(s, id) && (e.Check? || e.Queue? || e.Quit?)
    ensures Announced(s.(lobby := LobbyStep(s.lobby, e)), id)
  {
    hide ToldWith, SeatNames, Heard;
    var s' := s.(lobby := LobbyStep(s.lobby, e));
    assert s'.lobby.games == s.lobby.games;
  }

  lemma OnlyStartAddsHistories(s: Service, a: Action)
    requires !a.StartPopped?
    ensures Next(s, a).history.Keys == s.history.Keys
  {
    hide LobbyStep, Step, CheckRegistration, MoveInMatch, AbandonMatch, Extended, NoticesOf;
  }

  lemma RegistrationIsAnnounced(s: Service, a: Action, id: MatchID)
    requires Announced(s, id) && Sound(s.ledger) && (a.SignUp? || a.CreateAccount?)
    ensures Announced(Next(s, a), id)
  {
    hide Step, Sound, ToldWith, SeatNames, Heard, CheckRegistration;
    if a.CreateAccount? && a.id in s.signups {
      LedgerIsAnnounced(s, Enrol(s.signups[a.id]), id);
    }
  }

  lemma StoringIsAnnounced(s: Service, i: nat, ok: bool, id: MatchID)
    requires Announced(s, id) && i < |s.saves|
    ensures Announced(OnStoreMatch(s, i, ok), id)
  {
    hide ToldWith, SeatNames, Heard;
  }

  lemma StepIsAnnounced(s: Service, a: Action, id: MatchID)
    requires Consistent(s) && (id in s.history ==> Announced(s, id))
    ensures id in Next(s, a).history ==> Announced(Next(s, a), id)
  {
    hide OnStart, OnMove, OnAbandon, OnDeliver, OnStoreMatch, LobbyStep, Step, Announced, Orderly;
    hide HistoriesFit, SavesFit, NoticesFit, Sound;
    if !a.StartPopped? {
      OnlyStartAddsHistories(s, a);
    }
    if a.StartPopped? || id in s.history {
      match a
      case JoinCheck(p) => QueueingIsAnnounced(s, Check(p), id);
      case JoinQueue(p) => QueueingIsAnnounced(s, Queue(p), id);
      case Leave(p) => QueueingIsAnnounced(s, Quit(p), id);
      case StartPopped(i, id', found, saved) =>
        if i < |s.lobby.popped| && id' !in s.history && id' !in s.rows {
          StartIsAnnounced(s, i, id', KnownNames(s.ledger.store, found), saved, id);
        }
      case Move(p, cell) => MoveIsAnnounced(s, p, cell, id);
      case Abandon(p) => AbandonIsAnnounced(s, p, id);
      case StoreMatch(i, ok) => if i < |s.saves| { StoringIsAnnounced(s, i, ok, id); }
      case LoadStats(i, ok) => LedgerIsAnnounced(s, Load(i, ok), id);
      case StoreStats(i, ok) => LedgerIsAnnounced(s, Land(i, ok), id);
      case Deliver(i) => if i < |s.notices| { DeliverIsAnnounced(s, i, id); }
      case SignUp(_, _, _, _) => RegistrationIsAnnounced(s, a, id);
      case CreateAccount(_) => RegistrationIsAnnounced(s, a, id);
    }
  }

  lemma {:induction false} RunIsAnnounced(s: Service, acts: seq<Action>, id: MatchID)
    requires Booted(s) && id in Run(s, acts).history
    ensures Announced(Run(s, acts), id)
  {
    hide Next, Consistent, Announced, Opening;
    if acts != [] {
      var n := |acts| - 1;
      if id in Run(s, acts[..n]).history {
        RunIsAnnounced(s, acts[..n], id);
      }
      EveryRunIsConsistent(s, acts[..n]);
      StepIsAnnounced(Run(s, acts[..n]), acts[n], id);
    }
  }

  // ----- what each player is told -----

  /** The kinds of event, in order, that the notices tell p. */
  function KindsTo(ns: seq<Notice>, p: PlayerID): seq<EventKind> {
    if ns == [] then []
    else KindsTo(ns[..|ns| - 1], p) + if ns[|ns| - 1].to == p then [ns[|ns| - 1].kind] else []
  }

  lemma KindsUnfold(ns: seq<Notice>, n: Notice, p: PlayerID)
    ensures KindsTo(ns + [n], p) == KindsTo(ns, p) + if n.to == p then [n.kind] else []
  {
    assert (ns + [n])[..|ns|] == ns;
  }

  lemma KindsOfPair(ns: seq<Notice>, a: ActiveValue, kind: EventKind, p: PlayerID)
    requires a.game.x != a.game.o
    ensures KindsTo(ns + NoticesOf(a, kind), p) == KindsTo(ns, p) + if p == a.game.x || p == a.game.o then [kind] else []
  {
    hide StateFor, KindsTo;
    var first, second := NoticesOf(a, kind)[0], NoticesOf(a, kind)[1];
    KindsUnfold(ns, first, p);
    KindsUnfold(ns + [first], second, p);
    assert ns + NoticesOf(a, kind) == ns + [first] + [second];
  }

  lemma {:induction false} RoundsTellEvents(id: MatchID, x: PlayerID, o: PlayerID, names: map<PlayerID, string>,
                                            ms: seq<Move>, p: PlayerID)
    requires x != o && LegalHistory(ms)
    ensures KindsTo(Rounds(id, x, o, names, ms), p) ==
            if p == x || p == o then EventsOf(|ms|, if StatusOf(ms) == InProgress then Open else Finished) else []
  {
    hide NoticesOf, KindsTo, View, LegalHistory;
    var a := View(id, x, o, names, ms);
    assert a.game.x == x && a.game.o == o by {
      ViewSeats(id, x, o, names, ms);
    }
    if ms == [] {
      NoMovesNoWinner();
      KindsOfPair([], a, MatchStarted, p);
      assert [] + NoticesOf(a, MatchStarted) == NoticesOf(a, MatchStarted);
      assert KindsTo([], p) == [] by {
        NoKinds(p);
      }
    } else {
      var n := |ms| - 1;
      LegalPrefix(ms, n);
      OnlyTheLastMoveEnds(ms);
      RoundsTellEvents(id, x, o, names, ms[..n], p);
      KindsOfPair(Rounds(id, x, o, names, ms[..n]), a, if StatusOf(ms) == InProgress then StateChanged else MatchEnded, p);
      assert Repeat(StateChanged, n + 1) == Repeat(StateChanged, n) + [StateChanged];
    }
  }

  lemma NoKinds(p: PlayerID)
    ensures KindsTo([], p) == []
  {
  }

  lemma ViewSeats(id: MatchID, x: PlayerID, o: PlayerID, names: map<PlayerID, string>, ms: seq<Move>)
    ensures View(id, x, o, names, ms).game.x == x && View(id, x, o, names, ms).game.o == o
  {
  }

  lemma OnlyTheLastMoveEnds(ms: seq<Move>)
    requires LegalHistory(ms) && ms != []
    ensures StatusOf(ms[..|ms| - 1]) == InProgress
  {
    AtMostNineMoves(ms);
    assert !HasWinner(ms[..|ms| - 1]);
  }

  /** The events meant for p: for a player of the match all of them, except that the one who left is not told so. */
  function EventsFor(h: History, stayer: PlayerID, p: PlayerID): seq<EventKind> {
    if (p != h.x && p != h.o) || h.events == [] then []
    else if h.ending == Abandoned && p != stayer then h.events[..|h.events| - 1]
    else h.events
  }

  lemma AnnouncementsTellEvents(id: MatchID, h: History, names: map<PlayerID, string>, stayer: PlayerID, p: PlayerID)
    requires FairHistory(id, h) && (stayer == h.x || stayer == h.o)
    ensures KindsTo(Announcements(id, h, names, stayer), p) == EventsFor(h, stayer, p)
  {
    hide LegalHistory, StateFor, View, Rounds, KindsTo, PositionOf, ResultsOf;
    RoundsTellEvents(id, h.x, h.o, names, h.moves, p);
    if h.ending == Abandoned {
      var n := Notice(stayer, OpponentLeft, StateFor(View(id, h.x, h.o, names, h.moves), stayer));
      KindsUnfold(Rounds(id, h.x, h.o, names, h.moves), n, p);
      assert h.events == EventsOf(|h.moves|, Open) + [OpponentLeft];
    } else {
      assert Rounds(id, h.x, h.o, names, h.moves) + [] == Rounds(id, h.x, h.o, names, h.moves);
    }
  }

  /** The notices of a match delivered and still pending are, each exactly once, those its history announces:
      every event to everybody it is for, showing the match as it then stood under the players' stored names. */
  ghost predicate ToldInFull(s: Service, id: MatchID, h: History, stayer: PlayerID) {
    var announced := Announcements(id, h, SeatNames(s.ledger.store, h), stayer);
    && (stayer == h.x || stayer == h.o)
    && h.x in s.ledger.store.byID && h.o in s.ledger.store.byID
    && ToldOnce(id, announced, s.notices, Heard(s.delivered, id))
    && TellsThePlay(announced, id, h, map[h.x := s.ledger.store.byID[h.x].name, h.o := s.ledger.store.byID[h.o].name], stayer)
    && forall p :: KindsTo(announced, p) == EventsFor(h, stayer, p)
  }

  /** At every moment of every run every event of every match has been told, or is about to be, to each
      player it is for and to nobody else, once. */
  lemma EveryEventIsToldOnce(s: Service, acts: seq<Action>, id: MatchID)
    requires Booted(s) && id in Run(s, acts).history
    ensures exists stayer :: ToldInFull(Run(s, acts), id, Run(s, acts).history[id], stayer)
  {
    hide Next, Booted, ToldOnce, Announcements, SeatNames, TellsThePlay, FairHistory, Orderly, SavesFit, NoticesFit, Sound;
    hide SignupsFit;
    EveryRunIsConsistent(s, acts);
    RunIsAnnounced(s, acts, id);
    var s' := Run(s, acts);
    var h := s'.history[id];
    var names := SeatNames(s'.ledger.store, h);
    var stayer :| ToldWith(id, h, names, stayer, s'.notices, Heard(s'.delivered, id));
    forall p
      ensures KindsTo(Announcements(id, h, names, stayer), p) == EventsFor(h, stayer, p)
    {
      AnnouncementsTellEvents(id, h, names, stayer, p);
    }
    AnnouncementsTellThePlay(id, h, names, stayer);
    SeatNamesAreStored(s'.ledger.store, h);
    assert ToldInFull(s', id, h, stayer);
  }
}
