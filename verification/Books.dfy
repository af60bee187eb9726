/** What runs of the service leave in the stats of the players, in total and player by player. */
module Books {
  import opened Base
  import opened Boards
  import opened Matches
  import opened Histories
  import opened PlayerStores
  import opened Recording
  import opened LiveGames
  import opened Matchmakers
  import opened Services
  import opened Announcing

  // ----- what a step does to the books -----

  function FinishedOf(history: map<MatchID, History>): map<MatchID, History> {
    map id | id in history && history[id].ending == Finished :: history[id]
  }

  /** The results a step hands over to be recorded. */
  function HandedOver(s: Service, a: Action): seq<SeatResult> {
    match a
    case Move(p, cell) =>
      (match MoveInMatch(s.lobby.games, p, cell)
       case Err(_) => []
       case Ok(mv) => mv.Results())
    case _ => []
  }

  /** The step of the ledger that a step of the service is. */
  function BooksEvent(s: Service, a: Action): Event {
    match a
    case LoadStats(i, ok) => Load(i, ok)
    case StoreStats(i, ok) => Land(i, ok)
    case CreateAccount(id) => if id in s.signups then Enrol(s.signups[id]) else Settle([])
    case _ => Settle(HandedOver(s, a))
  }

  lemma LedgerFollows(s: Service, a: Action)
    ensures Next(s, a).ledger == Step(s.ledger, BooksEvent(s, a))
    ensures HandedOver(s, a) == if BooksEvent(s, a).Settle? then BooksEvent(s, a).results else []
  {
    hide MoveInMatch, LobbyStep, LoadStep, LandStep, EnrolStep;
    assert s.ledger.due + [] == s.ledger.due;
  }

  lemma MoveFinishes(s: Service, p: PlayerID, cell: Int64)
    requires Consistent(s) && MoveInMatch(s.lobby.games, p, cell).Ok?
    ensures var mv, history := MoveInMatch(s.lobby.games, p, cell).value, OnMove(s, p, cell).history;
            var id := mv.played.game.id;
            && id in s.history && s.history[id].ending == Open && history == s.history[id := Extended(s.history[id], mv)]
            && FairHistory(id, history[id])
  {
    hide FairHistory, Mirror, InPlay, FirstComeFirstPaired, SavesFit, NoticesFit, Sound, SignupsFit;
    hide MoveInMatch, LobbyStep, Step, NoticesOf;
    var mv := MoveInMatch(s.lobby.games, p, cell).value;
    MoveExtendsHistory(s.lobby.games, s.history, p, cell);
    MoveKeepsHistories(s.lobby.games, s.history, p, cell);
  }

  /** A step that hands over results finishes exactly one match, with those results; no other step finishes any. */
  lemma FinishedFollow(s: Service, a: Action) returns (id: MatchID)
    requires Consistent(s)
    ensures var rs, done, done' := HandedOver(s, a), FinishedOf(s.history), FinishedOf(Next(s, a).history);
            if rs == [] then done' == done
            else && id !in done && id in done' && done' == done[id := done'[id]]
                 && done'[id].results == rs && done'[id].ending == Finished && FairHistory(id, done'[id])
  {
    hide Consistent, FairHistory, MoveInMatch, OnStart, OnAbandon, OnMove, LobbyStep, Step, FinishedOf;
    hide OnStoreMatch, OnDeliver, OnSignUp, OnCreate, Extended;
    id := "";
    match a
    case Move(p, cell) =>
      if MoveInMatch(s.lobby.games, p, cell).Ok? {
        MoveFinishes(s, p, cell);
        id := MoveInMatch(s.lobby.games, p, cell).value.played.game.id;
        ExtensionFinishes(s.history, id, MoveInMatch(s.lobby.games, p, cell).value);
      } else {
        RefusedMove(s, p, cell);
      }
    case Abandon(p) => AbandonFinishesNothing(s, p);
    case StartPopped(i, i', found, saved) =>
      if i < |s.lobby.popped| && i' !in s.history {
        StartFinishesNothing(s, i, i', KnownNames(s.ledger.store, found), saved);
      }
    case _ => OtherStepsKeepHistory(s, a);
  }

  lemma OtherStepsKeepHistory(s: Service, a: Action)
    requires !a.Move? && !a.Abandon? && !a.StartPopped?
    ensures Next(s, a).history == s.history
  {
    hide LobbyStep, Step, CheckRegistration;
  }

  lemma RefusedMove(s: Service, p: PlayerID, cell: Int64)
    requires MoveInMatch(s.lobby.games, p, cell).Err?
    ensures OnMove(s, p, cell) == s
  {
  }

  lemma ExtensionFinishes(history: map<MatchID, History>, id: MatchID, mv: Moved)
    requires id in history && history[id].ending == Open
    ensures var h := Extended(history[id], mv);
            && FinishedOf(history[id := h]) == (if mv.Over() then FinishedOf(history)[id := h] else FinishedOf(history))
            && id !in FinishedOf(history) && h.results == mv.Results() && (mv.Over() <==> h.ending == Finished)
            && (mv.Over() <==> mv.Results() != [])
  {
  }

  lemma StartFinishesNothing(s: Service, i: nat, id: MatchID, names: map<PlayerID, string>, saved: bool)
    requires i < |s.lobby.popped| && id !in s.history
    ensures FinishedOf(OnStart(s, i, id, names, saved).history) == FinishedOf(s.history)
  {
    hide StartPair, LobbyStep, NoticesOf, FinishedOf;
    OpenHistoryIsNotFinished(s.history, id, Begun(s.lobby.popped[i].x, s.lobby.popped[i].o));
  }

  lemma OpenHistoryIsNotFinished(history: map<MatchID, History>, id: MatchID, h: History)
    requires id !in history && h.ending == Open
    ensures FinishedOf(history[id := h]) == FinishedOf(history)
  {
  }

  lemma AbandonFinishesNothing(s: Service, p: PlayerID)
    requires Consistent(s)
    ensures FinishedOf(OnAbandon(s, p).history) == FinishedOf(s.history)
  {
    hide FairHistory, FirstComeFirstPaired, SavesFit, NoticesFit, Sound, SignupsFit, LobbyStep, Fair;
    if AbandonMatch(s.lobby.games, p).Some? {
      LiveMatchOf(s.lobby.games, s.history, p);
    }
  }

  // ----- totals over all players -----

  predicate WasDrawn(h: History) {
    h.results != [] && h.results[0].outcome == Draw
  }

  function Decided(done: map<MatchID, History>): set<MatchID> {
    set id | id in done && !WasDrawn(done[id])
  }

  function Draws(done: map<MatchID, History>): set<MatchID> {
    set id | id in done && WasDrawn(done[id])
  }

  /** How often the finished matches put outcome k on the books: once for each decided match, twice for a draw. */
  function Owing(done: map<MatchID, History>, k: Outcome): int {
    match k
    case Win => |Decided(done)|
    case Loss => |Decided(done)|
    case Draw => 2 * |Draws(done)|
    case Undecided => 0
  }

  lemma ResultsCount(id: MatchID, h: History, k: Outcome)
    requires h.ending == Finished && FairHistory(id, h)
    ensures Count(h.results, k) == if WasDrawn(h) then (if k == Draw then 2 else 0)
                                   else if k == Win || k == Loss then 1 else 0
  {
    hide Count, LegalHistory, BoardOf, TurnOf, EventsOf, OutcomeFor;
    ResultsArePaired(PositionOf(id, h.x, h.o, h.moves));
  }

  lemma OwingGrows(done: map<MatchID, History>, id: MatchID, h: History, k: Outcome)
    requires id !in done && h.ending == Finished && FairHistory(id, h)
    ensures Owing(done[id := h], k) == Owing(done, k) + Count(h.results, k)
  {
    hide Count, FairHistory, WasDrawn, Draws, Decided;
    ResultsCount(id, h, k);
    DrawsGrow(done, id, h);
    DecidedGrow(done, id, h);
  }

  lemma DrawsGrow(done: map<MatchID, History>, id: MatchID, h: History)
    requires id !in done
    ensures |Draws(done[id := h])| == |Draws(done)| + if WasDrawn(h) then 1 else 0
  {
    hide WasDrawn;
    assert Draws(done[id := h]) == Draws(done) + if WasDrawn(h) then {id} else {};
  }

  lemma DecidedGrow(done: map<MatchID, History>, id: MatchID, h: History)
    requires id !in done
    ensures |Decided(done[id := h])| == |Decided(done)| + if WasDrawn(h) then 0 else 1
  {
    hide WasDrawn;
    assert Decided(done[id := h]) == Decided(done) + if WasDrawn(h) then {} else {id};
  }

  /** The step's effect on the books is its effect on what the finished matches owe. */
  lemma StepKeepsBooks(s: Service, a: Action, k: Outcome)
    requires Consistent(s) && k != Undecided
    ensures var s' := Next(s, a);
            Balance(s'.ledger, k) - Owing(FinishedOf(s'.history), k) == Balance(s.ledger, k) - Owing(FinishedOf(s.history), k)
  {
    hide Next, Balance, Owing, Step, FinishedOf, HandedOver, BooksEvent, FairHistory;
    hide Orderly, HistoriesFit, SavesFit, NoticesFit, Sound, SignupsFit;
    LedgerFollows(s, a);
    StepKeepsBalance(s.ledger, BooksEvent(s, a), k);
    var id := FinishedFollow(s, a);
    var rs, done := HandedOver(s, a), FinishedOf(s.history);
    if rs == [] {
      assert Count([], k) == 0;
    } else {
      OwingGrows(done, id, FinishedOf(Next(s, a).history)[id], k);
    }
  }

  /** Over every run, what indivisible recording would have stored, plus what is still owed, grows by one
      win and one loss for each decided match and two draws for each drawn one, and by nothing else. */
  lemma {:induction false} ResultsAreConserved(s: Service, acts: seq<Action>, k: Outcome)
    requires Booted(s) && k != Undecided
    ensures Balance(Run(s, acts).ledger, k) == Total(StatsOf(s.ledger.store), k) + Owing(FinishedOf(Run(s, acts).history), k)
  {
    hide Next, Consistent, Owing, Opening;
    if acts == [] {
      OpeningBalance(s, k);
    } else {
      ResultsAreConserved(s, acts[..|acts| - 1], k);
      EveryRunIsConsistent(s, acts[..|acts| - 1]);
      StepKeepsBooks(Run(s, acts[..|acts| - 1]), acts[|acts| - 1], k);
    }
  }

  lemma OpeningBalance(s: Service, k: Outcome)
    requires Booted(s)
    ensures Balance(s.ledger, k) == Total(StatsOf(s.ledger.store), k) && Owing(FinishedOf(s.history), k) == 0
  {
    assert FinishedOf(map[]) == map[];
    assert Decided(map[]) == {} && Draws(map[]) == {};
  }

  /** While no record has been overwritten, the stored totals and what is still owed to them are right at
      every moment, whatever is pending and whatever has failed. */
  lemma StoredAndOwedAreRightWhileNothingOverwritten(s: Service, acts: seq<Action>, k: Outcome)
    requires Booted(s) && k != Undecided && Run(s, acts).ledger.overwritten == {}
    ensures var l := Run(s, acts).ledger;
            Total(StatsOf(l.store), k) + Count(l.due, k) + Count(Results(l.loaded), k) + Count(l.dropped, k)
            == Total(StatsOf(s.ledger.store), k) + Owing(FinishedOf(Run(s, acts).history), k)
  {
    hide Booted, Orderly, HistoriesFit, SavesFit, NoticesFit, Sound, SignupsFit, Next, Owing, FinishedOf;
    EveryRunIsConsistent(s, acts);
    ResultsAreConserved(s, acts, k);
    StoredTotalsExactIffNothingOverwritten(Run(s, acts).ledger);
  }

  /** Once nothing is owed and no write failed, the stored totals are right exactly when no record was
      overwritten: wins and losses have both grown by the decided matches, draws by twice the drawn ones. */
  lemma StoredTotalsAreRightIffNothingOverwritten(s: Service, acts: seq<Action>)
    requires Booted(s)
    requires var l := Run(s, acts).ledger; l.due == [] && l.loaded == [] && l.dropped == []
    ensures var s', done := Run(s, acts), FinishedOf(Run(s, acts).history);
            var before, after := StatsOf(s.ledger.store), StatsOf(s'.ledger.store);
            && (s'.ledger.overwritten == {} ==>
                  forall k :: k != Undecided ==> Total(after, k) == Total(before, k) + Owing(done, k))
            && (s'.ledger.overwritten == {} <==>
                  TotalPlayed(after) == TotalPlayed(before) + 2 * (|Decided(done)| + |Draws(done)|))
  {
    hide Booted, Orderly, HistoriesFit, SavesFit, NoticesFit, Sound, SignupsFit, Next, Owing;
    EveryRunIsConsistent(s, acts);
    var s' := Run(s, acts);
    forall k | k != Undecided
      ensures Total(s'.ledger.ideal, k) == Total(StatsOf(s.ledger.store), k) + Owing(FinishedOf(s'.history), k)
    {
      ResultsAreConserved(s, acts, k);
      assert Results(s'.ledger.loaded) == [];
    }
    StoredTotalsExactIffNothingOverwritten(s'.ledger);
    OwingInAll(FinishedOf(s'.history));
  }

  lemma OwingInAll(done: map<MatchID, History>)
    ensures Owing(done, Win) + Owing(done, Loss) + Owing(done, Draw) == 2 * (|Decided(done)| + |Draws(done)|)
  {
  }

  // ----- player by player -----

  /** Read off the moves alone: p played this match to its end, and it ended so for p. */
  ghost predicate Earned(h: History, p: PlayerID, k: Outcome) {
    && h.ending == Finished && (p == h.x || p == h.o)
    && match k
       case Win => Wins(Histories.Played(h.moves, MarkOf(h.x, h.o, p)))
       case Loss => Wins(Histories.Played(h.moves, Opponent(MarkOf(h.x, h.o, p))))
       case Draw => !HasWinner(h.moves)
       case Undecided => false
  }

  ghost function EarnedBy(done: map<MatchID, History>, p: PlayerID, k: Outcome): set<MatchID> {
    set id | id in done && Earned(done[id], p, k)
  }

  /** A finished match hands p the result its moves earned p, once, and nobody else any. */
  lemma ResultsAreEarned(id: MatchID, h: History, p: PlayerID, k: Outcome)
    requires FairHistory(id, h) && k != Undecided
    ensures multiset(h.results)[SeatResult(p, k)] == if Earned(h, p, k) then 1 else 0
  {
    hide LegalHistory, BoardOf, TurnOf, Wins, Histories.Played, EventsOf;
    if h.ending == Finished {
      ResultsArePaired(PositionOf(id, h.x, h.o, h.moves));
      if Wins(Histories.Played(h.moves, X)) {
        WinnerMovedLast(h.moves, X);
      }
    }
  }

  lemma EarnedGrows(done: map<MatchID, History>, id: MatchID, h: History, p: PlayerID, k: Outcome)
    requires id !in done
    ensures |EarnedBy(done[id := h], p, k)| == |EarnedBy(done, p, k)| + if Earned(h, p, k) then 1 else 0
  {
    hide Earned;
    assert EarnedBy(done[id := h], p, k) == EarnedBy(done, p, k) + if Earned(h, p, k) then {id} else {};
  }

  lemma StepKeepsPlayerBooks(s: Service, a: Action, p: PlayerID, k: Outcome)
    requires Consistent(s) && k != Undecided
    ensures var s' := Next(s, a);
            Credit(s'.ledger, p, k) - |EarnedBy(FinishedOf(s'.history), p, k)|
            == Credit(s.ledger, p, k) - |EarnedBy(FinishedOf(s.history), p, k)|
  {
    hide Next, Credit, EarnedBy, Earned, Step, FinishedOf, HandedOver, BooksEvent, FairHistory;
    hide Orderly, HistoriesFit, SavesFit, NoticesFit, Sound, SignupsFit;
    LedgerFollows(s, a);
    StepKeepsCredit(s.ledger, BooksEvent(s, a), p, k);
    var id := FinishedFollow(s, a);
    if HandedOver(s, a) != [] {
      var h := FinishedOf(Next(s, a).history)[id];
      ResultsAreEarned(id, h, p, k);
      EarnedGrows(FinishedOf(s.history), id, h, p, k);
    }
  }

  /** Over every run, each player's ideal wins, losses and draws, plus those of that player still owed, grow by
      exactly the matches that player won, lost or drew. */
  lemma {:induction false} PlayerResultsAreConserved(s: Service, acts: seq<Action>, p: PlayerID, k: Outcome)
    requires Booted(s) && k != Undecided
    ensures Credit(Run(s, acts).ledger, p, k)
            == FieldOf(StatsOf(s.ledger.store), p, k) + |EarnedBy(FinishedOf(Run(s, acts).history), p, k)|
  {
    hide Next, Consistent, EarnedBy, Indexed;
    if acts == [] {
      NothingEarned(p, k);
    } else {
      PlayerResultsAreConserved(s, acts[..|acts| - 1], p, k);
      EveryRunIsConsistent(s, acts[..|acts| - 1]);
      StepKeepsPlayerBooks(Run(s, acts[..|acts| - 1]), acts[|acts| - 1], p, k);
    }
  }

  lemma NothingEarned(p: PlayerID, k: Outcome)
    ensures EarnedBy(FinishedOf(map[]), p, k) == {}
  {
  }

  /** A player to whom nothing is owed any more has exactly the stats its finished matches earned, on top of
      those it started with, if and only if no stale save landed for that player. */
  lemma PlayerStatsAreRightIffNotOverwritten(s: Service, acts: seq<Action>, p: PlayerID)
    requires Booted(s) && p in Run(s, acts).ledger.store.byID
    requires forall k :: SeatResult(p, k) !in Owed(Run(s, acts).ledger)
    ensures var l, done := Run(s, acts).ledger, FinishedOf(Run(s, acts).history);
            var before := if p in s.ledger.store.byID then s.ledger.store.byID[p].stats else Stats(0, 0, 0);
            p !in l.overwritten <==>
              l.store.byID[p].stats == Stats(before.wins + |EarnedBy(done, p, Win)|,
                                             before.losses + |EarnedBy(done, p, Loss)|,
                                             before.draws + |EarnedBy(done, p, Draw)|)
  {
    hide Booted, Next, Orderly, HistoriesFit, SavesFit, NoticesFit, SignupsFit, Indexed, FinishedOf, EarnedBy, Owed;
    EveryRunIsConsistent(s, acts);
    assert Tracked(Run(s, acts).ledger, p);
    PlayerResultsAreConserved(s, acts, p, Win);
    PlayerResultsAreConserved(s, acts, p, Loss);
    PlayerResultsAreConserved(s, acts, p, Draw);
  }

  /** A player whose recording calls never overlap loses nothing, whatever happens to everybody else. */
  lemma {:induction false} NothingOverwrittenWithoutOverlap(s: Service, acts: seq<Action>, p: PlayerID)
    requires Booted(s) && forall n :: 0 <= n <= |acts| ==> AtMostOneCall(Run(s, acts[..n]).ledger, p)
    ensures Unharmed(Run(s, acts).ledger, p)
  {
    hide Next, AtMostOneCall, Indexed;
    if acts != [] {
      var n := |acts| - 1;
      forall i | 0 <= i <= n
        ensures AtMostOneCall(Run(s, acts[..n][..i]).ledger, p)
      {
        assert acts[..n][..i] == acts[..i];
      }
      NothingOverwrittenWithoutOverlap(s, acts[..n], p);
      assert acts[..n][..n] == acts[..n];
      LedgerFollows(Run(s, acts[..n]), acts[n]);
      StepKeepsUnharmed(Run(s, acts[..n]).ledger, BooksEvent(Run(s, acts[..n]), acts[n]), p);
    }
  }

  // ----- nothing is given up without a failure -----

  /** Everybody with a result to record is stored. */
  ghost predicate DueKnown(l: Ledger) {
    forall r :: r in l.due ==> r.player in l.store.byID
  }

  predicate StoreWorks(a: Action) {
    (a.LoadStats? ==> a.ok) && (a.StoreStats? ==> a.ok)
  }

  lemma MoveOwesKnown(s: Service, p: PlayerID, cell: Int64)
    requires Consistent(s) && MoveInMatch(s.lobby.games, p, cell).Ok?
    requires forall id :: id in s.history ==> {s.history[id].x, s.history[id].o} <= s.ledger.store.byID.Keys
    ensures forall r :: r in MoveInMatch(s.lobby.games, p, cell).value.Results() ==> r.player in s.ledger.store.byID
  {
    hide FairHistory, Mirror, InPlay, FirstComeFirstPaired, SavesFit, NoticesFit, Sound, SignupsFit, MoveInMatch;
    hide Genuine, OutcomeFor;
    MoveExtendsHistory(s.lobby.games, s.history, p, cell);
  }

  lemma LedgerKeepsDueKnown(l: Ledger, e: Event)
    requires Sound(l) && DueKnown(l) && l.dropped == []
    requires (e.Load? ==> e.ok) && (e.Land? ==> e.ok)
    requires e.Settle? ==> forall r :: r in e.results ==> r.player in l.store.byID
    ensures DueKnown(Step(l, e)) && Step(l, e).dropped == []
  {
    hide Indexed, Tracked, RealOutcomes, MarkStale, NameKey;
    forall r | r in Step(l, e).due
      ensures r.player in Step(l, e).store.byID
    {
      if r in l.due {
        StepKeepsNames(l, e, r.player);
      }
    }
    if e.Land? && e.i < |l.loaded| {
      assert l.loaded[e.i] in l.loaded && FlightTracked(l, l.loaded[e.i]);
    }
    if e.Load? && e.i < |l.due| {
      assert l.due[e.i] in l.due;
    }
  }

  lemma StepDropsNothing(s: Service, a: Action)
    requires Consistent(s) && DueKnown(s.ledger) && s.ledger.dropped == [] && StoreWorks(a)
    requires forall id :: id in s.history ==> {s.history[id].x, s.history[id].o} <= s.ledger.store.byID.Keys
    ensures DueKnown(Next(s, a).ledger) && Next(s, a).ledger.dropped == []
  {
    hide Next, Step, DueKnown, Orderly, HistoriesFit, SavesFit, NoticesFit, Sound, SignupsFit, MoveInMatch;
    LedgerFollows(s, a);
    if a.Move? && MoveInMatch(s.lobby.games, a.p, a.cell).Ok? {
      MoveOwesKnown(s, a.p, a.cell);
    }
    LedgerKeepsDueKnown(s.ledger, BooksEvent(s, a));
  }

  lemma SeatsAreKnown(s: Service, acts: seq<Action>)
    requires Booted(s)
    ensures forall id :: id in Run(s, acts).history ==>
              {Run(s, acts).history[id].x, Run(s, acts).history[id].o} <= Run(s, acts).ledger.store.byID.Keys
  {
    hide Next, Run, Booted;
    forall id | id in Run(s, acts).history
      ensures {Run(s, acts).history[id].x, Run(s, acts).history[id].o} <= Run(s, acts).ledger.store.byID.Keys
    {
      RunIsAnnounced(s, acts, id);
    }
  }

  /** As long as the player store takes every call, no result is ever given up: what is not recorded yet is on its way. */
  lemma {:induction false} NothingIsDroppedWithoutFailure(s: Service, acts: seq<Action>)
    requires Booted(s) && forall a :: a in acts ==> StoreWorks(a)
    ensures DueKnown(Run(s, acts).ledger) && Run(s, acts).ledger.dropped == []
  {
    hide Next, Consistent, DueKnown, StoreWorks, Opening;
    if acts == [] {
      assert DueKnown(s.ledger) by {
        NothingDueAtBoot(s);
      }
    } else {
      var n := |acts| - 1;
      NothingIsDroppedWithoutFailure(s, acts[..n]);
      EveryRunIsConsistent(s, acts[..n]);
      SeatsAreKnown(s, acts[..n]);
      assert acts[n] in acts;
      StepDropsNothing(Run(s, acts[..n]), acts[n]);
    }
  }

  lemma NothingDueAtBoot(s: Service)
    requires Booted(s)
    ensures DueKnown(s.ledger)
  {
  }
}
