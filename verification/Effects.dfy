/** What each action does, in any state a run can reach: its whole effect, told by what is seen afterwards. */
module Effects {
  import opened Base
  import opened Boards
  import opened Matches
  import opened Histories
  import opened Encoding
  import opened MatchStores
  import opened PlayerStores
  import opened Recording
  import opened LiveGames
  import opened Matchmakers
  import opened Services

  // ----- the queue -----

  lemma RunUnfolds(s: Service, acts: seq<Action>, a: Action)
    ensures Run(s, acts + [a]) == Next(Run(s, acts), a)
  {
    assert (acts + [a])[..|acts|] == acts;
  }

  /** At any moment of any run, a player who leaves waits no more: whoever else waits goes on waiting, the withdrawal is
      counted exactly when the player waited, and nothing else changes. */
  lemma LeaveEffect(s: Service, acts: seq<Action>, p: PlayerID)
    requires Booted(s)
    ensures var before, after := Run(s, acts), Run(s, acts + [Action.Leave(p)]);
            && p !in after.lobby.queue
            && (forall q :: q != p ==> (q in after.lobby.queue <==> q in before.lobby.queue))
            && after.lobby.log == before.lobby.log + (if p in before.lobby.queue then [Withdrew(p)] else [])
            && after == before.(lobby := before.lobby.(queue := after.lobby.queue, log := after.lobby.log))
  {
    hide Booted, LobbyStep, FirstComeFirstPaired, Mirror, InPlay, HistoriesFit, SavesFit, NoticesFit, Sound, SignupsFit;
    EveryRunIsConsistent(s, acts);
    RunUnfolds(s, acts, Action.Leave(p));
    QuitTakesOut(Run(s, acts).lobby, p);
  }

  /** A join starts by testing, once, that the caller plays no match; that is all its first step does. */
  lemma JoinCheckEffect(s: Service, p: PlayerID)
    ensures var l, s' := s.lobby, Next(s, JoinCheck(p));
            && s' == s.(lobby := l.(checked := s'.lobby.checked))
            && s'.lobby.checked == if p in l.games.byPlayer then l.checked else l.checked + multiset{p}
  {
    CheckCases(s.lobby, p);
  }

  /** Its second step, for a caller past the test and nobody else: wait if nobody waits, be paired with the one who waits,
      who is X, or do nothing if the caller is that one. */
  lemma JoinQueueEffect(s: Service, p: PlayerID)
    requires Consistent(s)
    ensures var l, s' := s.lobby, Next(s, JoinQueue(p));
            var passed := l.(checked := l.checked - multiset{p});
            && (p !in l.checked ==> s' == s)
            && (p in l.checked && p in l.queue ==> s' == s.(lobby := passed))
            && (p in l.checked && l.queue == [] ==> s' == s.(lobby := passed.(queue := [p], log := l.log + [Joined(p)])))
            && (p in l.checked && l.queue != [] && l.queue[0] != p ==>
                  var pair := Pair(l.queue[0], p);
                  s' == s.(lobby := passed.(queue := [], log := l.log + [Joined(p)],
                                            popped := l.popped + [pair], pairs := l.pairs + [pair])))
  {
    hide LobbyStep, Mirror, InPlay, HistoriesFit, SavesFit, NoticesFit, Sound, SignupsFit, FirstComeFirstPaired;
    VisitCases(s.lobby, p);
    AtMostOneWaits(s.lobby);
  }

  // ----- the start of a match -----

  /** Both players are read from the store, and neither is in a match. */
  predicate CanStart(s: Service, pair: Pair, found: bool) {
    && found && {pair.x, pair.o} <= s.ledger.store.byID.Keys
    && pair.x !in s.lobby.games.byPlayer && pair.o !in s.lobby.games.byPlayer
  }

  /** From s to s' the match of a pair has begun under id, and nothing else has happened: both are in it, nothing is
      played, it is stored if the store took it, and two notices have been handed over. */
  ghost predicate BeginsIn(s: Service, s': Service, pair: Pair, id: MatchID, saved: bool) {
    && s' == s.(lobby := s.lobby.(games := s'.lobby.games), history := s'.history, rows := s'.rows, delivered := s'.delivered)
    && s'.history == s.history[id := History(pair.x, pair.o, [], Open, [MatchStarted], [])]
    && s'.lobby.games.byPlayer == s.lobby.games.byPlayer[pair.x := id][pair.o := id]
    && LoadRow(s'.rows, id) == Ok(if saved then Some(MatchRecord(id, pair.x, pair.o, InProgress, [])) else None)
    && (forall j :: j != id ==> LoadRow(s'.rows, j) == LoadRow(s.rows, j))
    && |Heard(s'.delivered, id)| == |Heard(s.delivered, id)| + 2
    && (forall j :: j != id ==> Heard(s'.delivered, j) == Heard(s.delivered, j))
  }

  /** A popped pair under a new ID: the match begins exactly when the players are known and free; otherwise the pair
      is dropped and nothing else happens. */
  lemma StartEffect(s: Service, i: nat, id: MatchID, found: bool, saved: bool)
    requires Consistent(s) && i < |s.lobby.popped| && id !in s.history && id !in s.rows
    ensures var pair, s' := s.lobby.popped[i], Next(s, StartPopped(i, id, found, saved));
            var dropped := s.(lobby := s.lobby.(popped := Without(s.lobby.popped, i)));
            if CanStart(s, pair, found) then BeginsIn(dropped, s', pair, id, saved) else s' == dropped
  {
    hide Consistent, StartPair, OnStart, BeginsIn, Without;
    var names := KnownNames(s.ledger.store, found);
    StartVerdictHere(s, i, id, names);
    if StartPair(s.lobby.games, s.lobby.popped[i], id, names).Ok? {
      PairBegins(s, i, id, names, saved);
    } else {
      PairIsDropped(s, i, id, names, saved);
    }
  }

  lemma StartVerdictHere(s: Service, i: nat, id: MatchID, names: map<PlayerID, string>)
    requires Consistent(s) && i < |s.lobby.popped| && id !in s.history
    ensures var pair := s.lobby.popped[i];
            StartPair(s.lobby.games, pair, id, names).Ok? <==>
              && pair.x in names && pair.o in names
              && pair.x !in s.lobby.games.byPlayer && pair.o !in s.lobby.games.byPlayer
  {
    hide Mirror, InPlay, FirstComeFirstPaired, FairHistory, SavesFit, NoticesFit, Sound, SignupsFit, LobbyStep, StartPair;
    NewIDIsFree(s.lobby.games, s.history, id);
    StartOfPairVerdict(s.lobby, i, id, names);
  }

  lemma PairIsDropped(s: Service, i: nat, id: MatchID, names: map<PlayerID, string>, saved: bool)
    requires i < |s.lobby.popped| && StartPair(s.lobby.games, s.lobby.popped[i], id, names).Err?
    ensures OnStart(s, i, id, names, saved) == s.(lobby := s.lobby.(popped := Without(s.lobby.popped, i)))
  {
    hide StartPair;
  }

  lemma PairBegins(s: Service, i: nat, id: MatchID, names: map<PlayerID, string>, saved: bool)
    requires i < |s.lobby.popped| && id !in s.history && id !in s.rows
    requires StartPair(s.lobby.games, s.lobby.popped[i], id, names).Ok?
    ensures BeginsIn(s.(lobby := s.lobby.(popped := Without(s.lobby.popped, i))), OnStart(s, i, id, names, saved),
                     s.lobby.popped[i], id, saved)
  {
    hide LoadRow, SaveRow, StateFor, Without;
    var pair := s.lobby.popped[i];
    FirstRow(s.rows, id, pair.x, pair.o);
    forall j | j != id
      ensures LoadRow(SaveRow(s.rows, MatchRecord(id, pair.x, pair.o, InProgress, [])), j) == LoadRow(s.rows, j)
    {
      OtherRowsStay(s.rows, MatchRecord(id, pair.x, pair.o, InProgress, []), j);
    }
  }

  lemma FirstRow(rows: map<MatchID, Row>, id: MatchID, x: PlayerID, o: PlayerID)
    requires id !in rows
    ensures LoadRow(rows, id) == Ok(None)
    ensures var r := MatchRecord(id, x, o, InProgress, []); LoadRow(SaveRow(rows, r), id) == Ok(Some(r))
  {
    RowParses(MatchRecord(id, x, o, InProgress, []));
  }

  lemma OtherRowsStay(rows: map<MatchID, Row>, r: MatchRecord, j: MatchID)
    requires j != r.id
    ensures LoadRow(SaveRow(rows, r), j) == LoadRow(rows, j)
  {
  }

  // ----- a move -----

  ghost predicate CanPlay(s: Service, p: PlayerID, cell: Int64, id: MatchID) {
    && Consistent(s) && p in s.lobby.games.byPlayer && s.lobby.games.byPlayer[p] == id && id in s.history
    && Offence(s.history[id].moves, Matches.Move(MarkOf(s.history[id].x, s.history[id].o, p), cell)) == None
  }

  /** The match after a move that is in order. */
  lemma MoveAccepted(s: Service, p: PlayerID, cell: Int64, id: MatchID)
    requires CanPlay(s, p, cell, id)
    ensures var h, r := s.history[id], MoveInMatch(s.lobby.games, p, cell);
            var ms := h.moves + [Matches.Move(MarkOf(h.x, h.o, p), cell)];
            && r.Ok? && r.value.played.game == PositionOf(id, h.x, h.o, ms)
            && r.value.after.byPlayer == if StatusOf(ms) == InProgress then s.lobby.games.byPlayer
                                         else s.lobby.games.byPlayer - {h.x, h.o}
  {
    hide SavesFit, NoticesFit, Sound, SignupsFit, FirstComeFirstPaired, LegalHistory, BoardOf, StatusOf;
    hide TurnOf, EventsOf, Offence, ResultsOf, ApplyMove;
    var g, h := s.lobby.games, s.history[id];
    LiveMatchOf(g, s.history, p);
    ApplyMoveVerdict(g.active[id].game, p, cell);
  }

  lemma PlayOne(s: Service, p: PlayerID, cell: Int64, id: MatchID)
    requires CanPlay(s, p, cell, id)
    ensures var s', h := Next(s, Action.Move(p, cell)), s.history[id];
            var ms := h.moves + [Matches.Move(MarkOf(h.x, h.o, p), cell)];
            && Consistent(s') && id in s'.history && s'.history == s.history[id := s'.history[id]]
            && s'.history[id].moves == ms && s'.history[id].x == h.x && s'.history[id].o == h.o
            && s'.history[id].ending == (if StatusOf(ms) == InProgress then Open else Finished)
            && s'.saves == s.saves + [MatchRecord(id, h.x, h.o, StatusOf(ms), ms)] && s'.rows == s.rows
            && |s'.notices| == |s.notices| + 2 && s'.notices[..|s.notices|] == s.notices
            && s'.ledger == s.ledger.(due := s.ledger.due + if StatusOf(ms) == InProgress then [] else ResultsOf(PositionOf(id, h.x, h.o, ms)))
            && s'.lobby == s.lobby.(games := s'.lobby.games)
            && s'.lobby.games.byPlayer == if StatusOf(ms) == InProgress then s.lobby.games.byPlayer
                                          else s.lobby.games.byPlayer - {h.x, h.o}
  {
    hide Consistent, StateFor, ResultsOf, BoardOf, StatusOf, TurnOf, MoveInMatch, Offence;
    MoveAccepted(s, p, cell, id);
    StepKeepsConsistent(s, Action.Move(p, cell));
  }

  /** p is in a match, it is p's turn by the number of moves made, and the cell is on the board and free. */
  ghost predicate InOrder(s: Service, p: PlayerID, cell: int) {
    && p in s.lobby.games.byPlayer && s.lobby.games.byPlayer[p] in s.history
    && var h := s.history[s.lobby.games.byPlayer[p]];
       && |h.moves| % 2 == (if p == h.x then 0 else 1)
       && 0 <= cell <= 8 && forall i :: 0 <= i < |h.moves| ==> h.moves[i].cell != cell
  }

  lemma OrderIsNoOffence(h: History, id: MatchID, p: PlayerID, cell: Int64)
    requires FairHistory(id, h) && h.ending == Open && (p == h.x || p == h.o)
    ensures Offence(h.moves, Matches.Move(MarkOf(h.x, h.o, p), cell)) == None <==>
            && |h.moves| % 2 == (if p == h.x then 0 else 1)
            && 0 <= cell <= 8 && forall i :: 0 <= i < |h.moves| ==> h.moves[i].cell != cell
  {
    hide LegalHistory, Wins, Histories.Played, EventsOf, ResultsOf;
  }

  /** A move in order is made: it is added to the history, the match ends on a line or a full board and then frees both
      players and hands over two results, its snapshot waits to be saved and two notices wait to be sent. Any other
      move does nothing at all. */
  lemma MoveEffect(s: Service, p: PlayerID, cell: Int64)
    requires Consistent(s)
    ensures var s' := Next(s, Action.Move(p, cell));
            && (!InOrder(s, p, cell) ==> s' == s)
            && (InOrder(s, p, cell) ==>
                  var id := s.lobby.games.byPlayer[p];
                  var h := s.history[id];
                  var ms := h.moves + [Matches.Move(if p == h.x then X else O, cell)];
                  var over := Wins(Histories.Played(ms, X)) || Wins(Histories.Played(ms, O)) || |ms| == 9;
                  && s'.history.Keys == s.history.Keys && s'.history == s.history[id := s'.history[id]]
                  && s'.history[id].x == h.x && s'.history[id].o == h.o && s'.history[id].moves == ms
                  && (s'.history[id].ending == if over then Finished else Open)
                  && s'.lobby.games.byPlayer == (if over then s.lobby.games.byPlayer - {h.x, h.o} else s.lobby.games.byPlayer)
                  && |s'.ledger.due| == |s.ledger.due| + (if over then 2 else 0)
                  && |s'.saves| == |s.saves| + 1 && s'.saves[|s.saves|].id == id && s'.saves[|s.saves|].moves == ms
                  && |s'.notices| == |s.notices| + 2 && s'.rows == s.rows && s'.delivered == s.delivered)
  {
    hide Next, Consistent, CanPlay, Offence, InOrder, StatusOf, PositionOf, ResultsOf;
    var g := s.lobby.games;
    if p in g.byPlayer {
      var id := g.byPlayer[p];
      PlayersMatch(s, p);
      OrderIsNoOffence(s.history[id], id, p, cell);
      MoveInOrder(s, p, cell, id);
      if InOrder(s, p, cell) {
        MadeMove(s, p, cell, id);
      } else {
        UnmadeMove(s, p, cell, id);
      }
    } else {
      NobodysMove(s, p, cell);
    }
  }

  lemma PlayersMatch(s: Service, p: PlayerID)
    requires Consistent(s) && p in s.lobby.games.byPlayer
    ensures var id := s.lobby.games.byPlayer[p];
            && id in s.history && id in s.lobby.games.active && FairHistory(id, s.history[id])
            && s.history[id].ending == Open && (p == s.history[id].x || p == s.history[id].o)
  {
    hide FairHistory, FirstComeFirstPaired, SavesFit, NoticesFit, Sound, SignupsFit, Fair;
    LiveMatchOf(s.lobby.games, s.history, p);
    assert PlaysIn(s.lobby.games, p);
  }

  lemma MoveInOrder(s: Service, p: PlayerID, cell: Int64, id: MatchID)
    requires Consistent(s) && p in s.lobby.games.byPlayer && s.lobby.games.byPlayer[p] == id && id in s.history
    requires var h := s.history[id];
             Offence(h.moves, Matches.Move(MarkOf(h.x, h.o, p), cell)) == None <==>
             && |h.moves| % 2 == (if p == h.x then 0 else 1)
             && 0 <= cell <= 8 && forall i :: 0 <= i < |h.moves| ==> h.moves[i].cell != cell
    ensures InOrder(s, p, cell) <==> CanPlay(s, p, cell, id)
  {
    hide Consistent, Offence;
  }

  lemma MadeMove(s: Service, p: PlayerID, cell: Int64, id: MatchID)
    requires CanPlay(s, p, cell, id) && (p == s.history[id].x || p == s.history[id].o)
    ensures var s', h := Next(s, Action.Move(p, cell)), s.history[id];
            var ms := h.moves + [Matches.Move(if p == h.x then X else O, cell)];
            var over := Wins(Histories.Played(ms, X)) || Wins(Histories.Played(ms, O)) || |ms| == 9;
            && id in s'.history && s'.history == s.history[id := s'.history[id]]
            && s'.history[id].x == h.x && s'.history[id].o == h.o && s'.history[id].moves == ms
            && (s'.history[id].ending == if over then Finished else Open)
            && s'.lobby.games.byPlayer == (if over then s.lobby.games.byPlayer - {h.x, h.o} else s.lobby.games.byPlayer)
            && |s'.ledger.due| == |s.ledger.due| + (if over then 2 else 0)
            && |s'.saves| == |s.saves| + 1 && s'.saves[|s.saves|].id == id && s'.saves[|s.saves|].moves == ms
            && |s'.notices| == |s.notices| + 2 && s'.rows == s.rows && s'.delivered == s.delivered
  {
    hide Next, CanPlay, Wins, Histories.Played, PositionOf, OutcomeFor;
    PlayOne(s, p, cell, id);
    MoveDelivers(s, p, cell);
  }

  lemma MoveDelivers(s: Service, p: PlayerID, cell: Int64)
    ensures Next(s, Action.Move(p, cell)).delivered == s.delivered
  {
    hide MoveInMatch, LobbyStep, Step, Extended, NoticesOf;
  }

  lemma UnmadeMove(s: Service, p: PlayerID, cell: Int64, id: MatchID)
    requires Consistent(s) && p in s.lobby.games.byPlayer && s.lobby.games.byPlayer[p] == id && id in s.history
    requires !CanPlay(s, p, cell, id)
    ensures Next(s, Action.Move(p, cell)) == s
  {
    hide SavesFit, NoticesFit, Sound, SignupsFit, FirstComeFirstPaired, LegalHistory, BoardOf, StatusOf;
    hide TurnOf, EventsOf, Offence, ResultsOf, ApplyMove;
    var g := s.lobby.games;
    LiveMatchOf(g, s.history, p);
    ApplyMoveVerdict(g.active[id].game, p, cell);
  }

  lemma NobodysMove(s: Service, p: PlayerID, cell: Int64)
    requires p !in s.lobby.games.byPlayer
    ensures Next(s, Action.Move(p, cell)) == s && !InOrder(s, p, cell)
  {
  }

  // ----- giving up -----

  /** Whoever gives up a match frees both players, closes its history, and leaves one notice for the other; from
      anybody else it does nothing. */
  lemma AbandonEffect(s: Service, p: PlayerID)
    requires Consistent(s)
    ensures var s' := Next(s, Action.Abandon(p));
            && (p !in s.lobby.games.byPlayer ==> s' == s)
            && (p in s.lobby.games.byPlayer ==>
                  var id := s.lobby.games.byPlayer[p];
                  && id in s.history
                  && var h := s.history[id];
                     var q := if p == h.x then h.o else h.x;
                     && s' == s.(lobby := s.lobby.(games := s'.lobby.games), history := s'.history, notices := s'.notices)
                     && s'.history == s.history[id := h.(ending := Abandoned, events := h.events + [OpponentLeft])]
                     && s'.lobby.games.byPlayer == s.lobby.games.byPlayer - {p, q}
                     && s'.lobby.games.active == s.lobby.games.active - {id}
                     && |s'.notices| == |s.notices| + 1 && s'.notices[..|s.notices|] == s.notices
                     && s'.notices[|s.notices|].to == q && s'.notices[|s.notices|].kind == OpponentLeft)
  {
    hide FairHistory, FirstComeFirstPaired, SavesFit, NoticesFit, Sound, SignupsFit, AbandonMatch, InPlay, Seated;
    var g := s.lobby.games;
    AbandonVerdict(g, p);
    if p in g.byPlayer {
      PlayersMatch(s, p);
      var n := AbandonMatch(g, p).value.1;
      assert PlaysIn(g, p) && PlaysIn(g, n.to);
    }
  }

  // ----- the stores and the notifier -----

  /** A save call uses up one pending snapshot; if the store takes it, that snapshot is what the match loads as from
      then on, and no other match is touched; if not, nothing is stored. */
  lemma SaveEffect(s: Service, i: nat, ok: bool)
    requires Consistent(s) && i < |s.saves|
    ensures var s', r := Next(s, StoreMatch(i, ok)), s.saves[i];
            && s' == s.(saves := Without(s.saves, i), rows := s'.rows)
            && LoadRow(s'.rows, r.id) == (if ok then Ok(Some(r)) else LoadRow(s.rows, r.id))
            && forall id :: id != r.id ==> LoadRow(s'.rows, id) == LoadRow(s.rows, id)
  {
    hide Consistent, Faithful, Encode, StatusText, Decode, ParseStatus, Without;
    var r := s.saves[i];
    SavedIsFaithful(s, r);
    RowParses(r);
    assert ok ==> Next(s, StoreMatch(i, ok)).rows[r.id] == RowOf(r);
  }

  /** Sending a notice appends it to what has been heard of its match. */
  lemma SendEffect(s: Service, i: nat)
    requires i < |s.notices|
    ensures var s', n := Next(s, Deliver(i)), s.notices[i];
            && s' == s.(notices := Without(s.notices, i), delivered := s'.delivered)
            && Heard(s'.delivered, n.state.matchID) == Heard(s.delivered, n.state.matchID) + [n]
            && forall id :: id != n.state.matchID ==> Heard(s'.delivered, id) == Heard(s.delivered, id)
  {
    hide Without;
  }

  // ----- the players -----

  /** A recording call first reads the player: as stored at that moment, or it gives up if the store fails. */
  lemma LoadEffect(s: Service, i: nat, ok: bool)
    requires i < |s.ledger.due|
    ensures var l, r, s' := s.ledger, s.ledger.due[i], Next(s, LoadStats(i, ok));
            var rest := l.(due := Without(l.due, i));
            s' == s.(ledger := if ok && r.player in l.store.byID
                               then rest.(loaded := l.loaded + [InFlight(l.store.byID[r.player], r.outcome, false)])
                               else rest.(dropped := l.dropped + [r]))
  {
    hide Without;
  }

  /** It then saves what it read with one more win, loss or draw, whatever has been stored since; or it gives up if the
      store fails. */
  lemma RecordEffect(s: Service, i: nat, ok: bool)
    requires Sound(s.ledger) && i < |s.ledger.loaded|
    ensures var l, c, l' := s.ledger, s.ledger.loaded[i], Next(s, StoreStats(i, ok)).ledger;
            var was := c.player.stats;
            && Next(s, StoreStats(i, ok)) == s.(ledger := l')
            && l'.due == l.due && Results(l'.loaded) == Results(Without(l.loaded, i))
            && l'.dropped == l.dropped + (if ok then [] else [SeatResult(c.player.id, c.outcome)])
            && l'.store.byName == l.store.byName
            && l'.store.byID ==
               if !ok then l.store.byID
               else l.store.byID[c.player.id := c.player.(stats :=
                      Stats(was.wins + if c.outcome == Win then 1 else 0,
                            was.losses + if c.outcome == Loss then 1 else 0,
                            was.draws + if c.outcome == Draw then 1 else 0))]
  {
    hide Without, MarkStale, Results, Tracked, Indexed, RealOutcomes;
    var c := s.ledger.loaded[i];
    assert c in s.ledger.loaded && FlightTracked(s.ledger, c);
    ResultsWithout(s.ledger.loaded, i, c.player.id);
  }

  /** A sign-up that passes its checks and is then created with nothing in between adds one account with no games, found
      under its name; one that fails a check adds nothing. */
  lemma SignUpEffect(s: Service, id: PlayerID, name: string, password: string, hash: string)
    requires Consistent(s) && id !in s.ledger.store.byID && id !in s.signups
    ensures var s' := Next(Next(s, SignUp(id, name, password, hash)), CreateAccount(id));
            var players, trimmed := s.ledger.store, TrimSpace(name);
            var account := Player(id, trimmed, hash, Stats(0, 0, 0));
            var free := forall p :: p in players.byID.Values ==> !SameName(p.name, name);
            if 0 < |trimmed| <= 32 && 8 <= |password| <= 72 && free
            then s' == s.(ledger := s'.ledger) && s'.ledger.store.byID == players.byID[id := account]
                 && PlayerByName(s'.ledger.store, name) == Ok(account)
            else s' == s
  {
    hide Orderly, HistoriesFit, SavesFit, NoticesFit, CheckRegistration, CreatePlayer, PlayerByName, SameName, TrimSpace;
    hide Tracked, FlightTracked, Indexed;
    RegistrationVerdict(s.ledger.store, name, password);
    if CheckRegistration(s.ledger.store, name, password).Ok? {
      var p := Player(id, TrimSpace(name), hash, NO_GAMES);
      assert s.signups[id := p] - {id} == s.signups;
      TrimmedNameIsSame(s.ledger.store, name, p);
      CreateCases(s.ledger.store, p);
    }
  }

  lemma TrimmedNameIsSame(s: Players, name: string, p: Player)
    requires p.name == TrimSpace(name)
    ensures forall q :: SameName(q, p.name) <==> SameName(q, name)
    ensures PlayerByName(s, p.name) == PlayerByName(s, name)
    ensures forall s' :: PlayerByName(s', p.name) == PlayerByName(s', name)
  {
    NormalizedNameKeepsKey(name);
  }

  /** Created later, a sign-up becomes an account exactly when nobody has taken its name meanwhile; either way it is
      settled. */
  lemma CreateEffect(s: Service, id: PlayerID)
    requires Consistent(s) && id in s.signups && id !in s.ledger.store.byID
    ensures var s', p, players := Next(s, CreateAccount(id)), s.signups[id], s.ledger.store;
            && s' == s.(signups := s.signups - {id}, ledger := s'.ledger)
            && s'.ledger.store.byID ==
               (if exists q :: q in players.byID.Values && SameName(q.name, p.name) then players.byID else players.byID[id := p])
  {
    hide Orderly, HistoriesFit, SavesFit, NoticesFit, CreatePlayer, SameName, Tracked, FlightTracked, Indexed;
    CreateCases(s.ledger.store, s.signups[id]);
  }
}
