/** Recording results into player stats. Each call loads a player, adds one outcome and saves it, with no
    lock held in between, so calls for one player can overlap and overwrite each other. */
module Recording {
  import opened Base
  import opened Matches
  import opened PlayerStores

  datatype SeatResult = SeatResult(player: PlayerID, outcome: Outcome)

  /** A call between its load and its save: the player it read, and whether another call for that
      player has saved since. */
  datatype InFlight = InFlight(player: Player, outcome: Outcome, stale: bool)

  datatype Ledger = Ledger(
    store: Players,
    due: seq<SeatResult>,           // calls not started
    loaded: seq<InFlight>,          // calls between load and save
    dropped: seq<SeatResult>,       // calls given up because the store failed
    ideal: map<PlayerID, Stats>,    // the stats an indivisible record would have left
    overwritten: set<PlayerID>)     // players for whom a stale save has landed

  datatype Event =
    | Settle(results: seq<SeatResult>)
    | Load(i: nat, ok: bool)
    | Land(i: nat, ok: bool)
    | Enrol(player: Player)

  // ----- steps -----

  function MarkStale(loaded: seq<InFlight>, id: PlayerID): (marked: seq<InFlight>)
    ensures |marked| == |loaded|
  {
    seq(|loaded|, i requires 0 <= i < |loaded| =>
      if loaded[i].player.id == id then loaded[i].(stale := true) else loaded[i])
  }

  function LoadStep(l: Ledger, i: nat, ok: bool): Ledger
    requires i < |l.due|
  {
    var r := l.due[i];
    var found := PlayerByID(l.store, r.player);
    if ok && found.Ok?
    then l.(due := Without(l.due, i), loaded := l.loaded + [InFlight(found.value, r.outcome, false)])
    else l.(due := Without(l.due, i), dropped := l.dropped + [r])
  }

  function LandStep(l: Ledger, i: nat, ok: bool): Ledger
    requires i < |l.loaded|
  {
    var c := l.loaded[i];
    var id := c.player.id;
    var saved := SavePlayer(l.store, Recorded(c.player, c.outcome));
    if ok && saved.Ok? && id in l.ideal
    then l.(store := saved.value,
            loaded := MarkStale(Without(l.loaded, i), id),
            ideal := l.ideal[id := AddOutcome(l.ideal[id], c.outcome)],
            overwritten := if c.stale then l.overwritten + {id} else l.overwritten)
    else l.(loaded := Without(l.loaded, i), dropped := l.dropped + [SeatResult(id, c.outcome)])
  }

  function EnrolStep(l: Ledger, p: Player): Ledger {
    var created := CreatePlayer(l.store, p);
    if created.Ok? && p.id !in l.store.byID && p.stats == NO_GAMES
    then l.(store := created.value, ideal := l.ideal[p.id := NO_GAMES])
    else l
  }

  function Step(l: Ledger, e: Event): Ledger {
    match e
    case Settle(rs) => l.(due := l.due + rs)
    case Load(i, ok) => if i < |l.due| then LoadStep(l, i, ok) else l
    case Land(i, ok) => if i < |l.loaded| then LandStep(l, i, ok) else l
    case Enrol(p) => EnrolStep(l, p)
  }

  // ----- what every step keeps -----

  predicate RealOutcomes(rs: seq<SeatResult>) {
    forall r :: r in rs ==> r.outcome != Undecided
  }

  /** The stored stats of p are the ideal ones until a stale save lands, and short of them ever after. */
  ghost predicate Tracked(l: Ledger, p: PlayerID)
    requires p in l.store.byID && p in l.ideal
  {
    if p in l.overwritten
    then Played(l.store.byID[p].stats) < Played(l.ideal[p])
    else l.store.byID[p].stats == l.ideal[p]
  }

  /** A call in flight read the stats as they are now, or fewer games than the ideal. */
  ghost predicate FlightTracked(l: Ledger, c: InFlight)
    requires c.player.id in l.store.byID && c.player.id in l.ideal
  {
    var p := c.player.id;
    && c.outcome != Undecided
    && c.player.(stats := NO_GAMES) == l.store.byID[p].(stats := NO_GAMES)
    && (if c.stale || p in l.overwritten
        then Played(c.player.stats) < Played(l.ideal[p])
        else c.player.stats == l.store.byID[p].stats)
  }

  ghost predicate Sound(l: Ledger) {
    && Indexed(l.store)
    && l.ideal.Keys == l.store.byID.Keys
    && l.overwritten <= l.ideal.Keys
    && RealOutcomes(l.due)
    && (forall p :: p in l.store.byID ==> Tracked(l, p))
    && (forall c :: c in l.loaded ==> c.player.id in l.store.byID && FlightTracked(l, c))
  }

  lemma WithoutKeeps<T>(s: seq<T>, i: nat)
    requires i < |s|
    ensures forall x :: x in Without(s, i) ==> x in s
    ensures multiset(s) == multiset(Without(s, i)) + multiset{s[i]}
  {
    assert s == s[..i] + [s[i]] + s[i + 1..];
  }

  lemma LoadKeepsSound(l: Ledger, i: nat, ok: bool)
    requires Sound(l) && i < |l.due|
    ensures Sound(LoadStep(l, i, ok))
  {
    WithoutKeeps(l.due, i);
    assert l.due[i] in l.due;
    var l' := LoadStep(l, i, ok);
    forall c | c in l'.loaded
      ensures c.player.id in l'.store.byID && FlightTracked(l', c)
    {
      if c in l.loaded {
        assert FlightTracked(l, c);
      } else {
        assert Tracked(l, c.player.id);
      }
    }
    forall p | p in l'.store.byID
      ensures Tracked(l', p)
    {
      assert Tracked(l, p);
    }
  }

  lemma LandKeepsTracked(l: Ledger, i: nat, p: PlayerID)
    requires Sound(l) && i < |l.loaded| && p in l.store.byID
    ensures var l' := LandStep(l, i, true);
            p in l'.store.byID && p in l'.ideal && Tracked(l', p)
  {
    hide NameKey, RealOutcomes, MarkStale;
    var c := l.loaded[i];
    assert c in l.loaded && FlightTracked(l, c);
    assert Tracked(l, p) && Tracked(l, c.player.id);
  }

  lemma LandKeepsFlight(l: Ledger, i: nat, d: InFlight)
    requires Sound(l) && i < |l.loaded| && d in l.loaded
    ensures var l' := LandStep(l, i, true);
            var d' := if d.player.id == l.loaded[i].player.id then d.(stale := true) else d;
            d'.player.id in l'.store.byID && d'.player.id in l'.ideal && FlightTracked(l', d')
  {
    hide NameKey, RealOutcomes, MarkStale;
    var c := l.loaded[i];
    assert c in l.loaded && FlightTracked(l, c) && FlightTracked(l, d);
    assert Tracked(l, d.player.id) && Tracked(l, c.player.id);
  }

  lemma LandKeepsSound(l: Ledger, i: nat, ok: bool)
    requires Sound(l) && i < |l.loaded|
    ensures Sound(LandStep(l, i, ok))
  {
    var c, l' := l.loaded[i], LandStep(l, i, ok);
    WithoutKeeps(l.loaded, i);
    assert c in l.loaded;
    if ok {
      SaveKeepsIndex(l.store, Recorded(c.player, c.outcome));
      forall p | p in l'.store.byID
        ensures Tracked(l', p)
      {
        LandKeepsTracked(l, i, p);
      }
      forall d | d in l'.loaded
        ensures d.player.id in l'.store.byID && FlightTracked(l', d)
      {
        var j :| 0 <= j < |l'.loaded| && l'.loaded[j] == d;
        assert Without(l.loaded, i)[j] in l.loaded;
        LandKeepsFlight(l, i, Without(l.loaded, i)[j]);
      }
    } else {
      forall p | p in l'.store.byID
        ensures Tracked(l', p)
      {
        assert Tracked(l, p);
      }
      forall d | d in l'.loaded
        ensures FlightTracked(l', d)
      {
        assert FlightTracked(l, d);
      }
    }
  }

  lemma EnrolKeepsSound(l: Ledger, p: Player)
    requires Sound(l)
    ensures Sound(EnrolStep(l, p))
  {
    var l' := EnrolStep(l, p);
    if l' != l {
      CreateKeepsIndex(l.store, p);
      forall q | q in l'.store.byID
        ensures Tracked(l', q)
      {
        assert q != p.id ==> Tracked(l, q);
      }
      forall d | d in l'.loaded
        ensures FlightTracked(l', d)
      {
        assert FlightTracked(l, d);
      }
    }
  }

  lemma SettleKeepsSound(l: Ledger, rs: seq<SeatResult>)
    requires Sound(l) && RealOutcomes(rs)
    ensures Sound(Step(l, Settle(rs)))
  {
    var l' := Step(l, Settle(rs));
    forall p | p in l'.store.byID
      ensures Tracked(l', p)
    {
      assert Tracked(l, p);
    }
    forall d | d in l'.loaded
      ensures FlightTracked(l', d)
    {
      assert FlightTracked(l, d);
    }
  }

  predicate RealEvent(e: Event) {
    e.Settle? ==> RealOutcomes(e.results)
  }

  lemma StepKeepsSound(l: Ledger, e: Event)
    requires Sound(l) && RealEvent(e)
    ensures Sound(Step(l, e))
  {
    match e
    case Settle(rs) => SettleKeepsSound(l, rs);
    case Load(i, ok) => if i < |l.due| { LoadKeepsSound(l, i, ok); }
    case Land(i, ok) => if i < |l.loaded| { LandKeepsSound(l, i, ok); }
    case Enrol(p) => EnrolKeepsSound(l, p);
  }

  /** No step removes a player or changes a name. */
  lemma StepKeepsNames(l: Ledger, e: Event, p: PlayerID)
    requires Sound(l) && p in l.store.byID
    ensures p in Step(l, e).store.byID && Step(l, e).store.byID[p].name == l.store.byID[p].name
  {
    hide Indexed, RealOutcomes, Tracked, MarkStale;
    if e.Land? && e.i < |l.loaded| {
      assert l.loaded[e.i] in l.loaded && FlightTracked(l, l.loaded[e.i]);
    }
  }

  function RunLedger(l: Ledger, es: seq<Event>): Ledger {
    if es == [] then l else Step(RunLedger(l, es[..|es| - 1]), es[|es| - 1])
  }

  lemma {:induction false} RunKeepsSound(l: Ledger, es: seq<Event>)
    requires Sound(l) && forall e :: e in es ==> RealEvent(e)
    ensures Sound(RunLedger(l, es))
  {
    if es != [] {
      RunKeepsSound(l, es[..|es| - 1]);
      StepKeepsSound(RunLedger(l, es[..|es| - 1]), es[|es| - 1]);
    }
  }

  // ----- exactness -----

  /** Opening books: nothing in progress, and the stats in the store are the ideal ones. */
  ghost predicate Opening(l: Ledger) {
    && Indexed(l.store) && l.due == [] && l.loaded == [] && l.overwritten == {}
    && l.ideal == StatsOf(l.store)
  }

  function StatsOf(s: Players): map<PlayerID, Stats> {
    map p | p in s.byID :: s.byID[p].stats
  }

  /** In every run, with any interleaving and any store failures, a player's stored stats are what
      indivisible recording would have left if and only if no stale save landed for that player;
      otherwise games are missing. */
  lemma StatsExactIffNotOverwritten(l: Ledger, es: seq<Event>, p: PlayerID)
    requires Opening(l) && forall e :: e in es ==> RealEvent(e)
    requires p in RunLedger(l, es).store.byID
    ensures var l' := RunLedger(l, es);
            && p in l'.ideal
            && (l'.store.byID[p].stats == l'.ideal[p] <==> p !in l'.overwritten)
            && (p in l'.overwritten ==> Played(l'.store.byID[p].stats) < Played(l'.ideal[p]))
  {
    RunKeepsSound(l, es);
    assert Tracked(RunLedger(l, es), p);
  }

  // ----- conservation -----

  function Field(s: Stats, k: Outcome): int {
    match k
    case Win => s.wins
    case Loss => s.losses
    case Draw => s.draws
    case Undecided => 0
  }

  ghost function Total(m: map<PlayerID, Stats>, k: Outcome): int {
    if m == map[] then 0
    else
      var p :| p in m;
      Field(m[p], k) + Total(m - {p}, k)
  }

  function Count(rs: seq<SeatResult>, k: Outcome): nat {
    if rs == [] then 0
    else Count(rs[..|rs| - 1], k) + if rs[|rs| - 1].outcome == k then 1 else 0
  }

  function Results(cs: seq<InFlight>): (rs: seq<SeatResult>)
    ensures |rs| == |cs|
  {
    seq(|cs|, i requires 0 <= i < |cs| => SeatResult(cs[i].player.id, cs[i].outcome))
  }

  lemma {:induction false} TotalPicks(m: map<PlayerID, Stats>, p: PlayerID, k: Outcome)
    requires p in m
    ensures Total(m, k) == Field(m[p], k) + Total(m - {p}, k)
    decreases |m|
  {
    var q :| q in m && Total(m, k) == Field(m[q], k) + Total(m - {q}, k);
    if q != p {
      TotalPicks(m - {q}, p, k);
      TotalPicks(m - {p}, q, k);
      assert m - {q} - {p} == m - {p} - {q};
    }
  }

  lemma TotalUpdates(m: map<PlayerID, Stats>, p: PlayerID, s: Stats, k: Outcome)
    ensures Total(m[p := s], k) == Total(m, k) + Field(s, k) - if p in m then Field(m[p], k) else 0
  {
    TotalPicks(m[p := s], p, k);
    assert m[p := s] - {p} == m - {p};
    if p in m {
      TotalPicks(m, p, k);
    } else {
      assert m - {p} == m;
    }
  }

  lemma {:induction false} CountAppends(rs: seq<SeatResult>, more: seq<SeatResult>, k: Outcome)
    ensures Count(rs + more, k) == Count(rs, k) + Count(more, k)
  {
    if more == [] {
      assert rs + more == rs;
    } else {
      var n := |more| - 1;
      CountAppends(rs, more[..n], k);
      assert (rs + more)[..|rs + more| - 1] == rs + more[..n];
    }
  }

  lemma CountWithout(rs: seq<SeatResult>, i: nat, k: Outcome)
    requires i < |rs|
    ensures Count(rs, k) == Count(Without(rs, i), k) + Count([rs[i]], k)
  {
    assert rs == rs[..i] + [rs[i]] + rs[i + 1..];
    CountAppends(rs[..i] + [rs[i]], rs[i + 1..], k);
    CountAppends(rs[..i], [rs[i]], k);
    CountAppends(rs[..i], rs[i + 1..], k);
  }

  /** Outcomes of kind k in the ideal stats together with those still owed to them. */
  ghost function Balance(l: Ledger, k: Outcome): int {
    Total(l.ideal, k) + Count(l.due, k) + Count(Results(l.loaded), k) + Count(l.dropped, k)
  }

  lemma CountOne(r: SeatResult, k: Outcome)
    ensures Count([r], k) == if r.outcome == k then 1 else 0
  {
    assert [r][..0] == [];
  }

  lemma LoadKeepsBalance(l: Ledger, i: nat, ok: bool, k: Outcome)
    requires Sound(l) && i < |l.due|
    ensures Balance(LoadStep(l, i, ok), k) == Balance(l, k)
  {
    var l', r := LoadStep(l, i, ok), l.due[i];
    CountWithout(l.due, i, k);
    if l'.dropped == l.dropped {
      assert l'.loaded[..|l.loaded|] == l.loaded;
      assert Results(l'.loaded) == Results(l.loaded) + [r] by {
        assert l'.loaded[|l.loaded|].player.id == r.player;
      }
      CountAppends(Results(l.loaded), [r], k);
    } else {
      CountAppends(l.dropped, [r], k);
    }
  }

  lemma ResultsWithout(cs: seq<InFlight>, i: nat, id: PlayerID)
    requires i < |cs|
    ensures Results(cs)[i] == SeatResult(cs[i].player.id, cs[i].outcome)
    ensures Results(Without(cs, i)) == Without(Results(cs), i)
    ensures Results(MarkStale(Without(cs, i), id)) == Without(Results(cs), i)
  {
  }

  lemma TotalGains(m: map<PlayerID, Stats>, p: PlayerID, o: Outcome, k: Outcome)
    requires p in m && k != Undecided
    ensures Total(m[p := AddOutcome(m[p], o)], k) == Total(m, k) + if o == k then 1 else 0
  {
    TotalUpdates(m, p, AddOutcome(m[p], o), k);
  }

  lemma LandKeepsBalance(l: Ledger, i: nat, ok: bool, k: Outcome)
    requires Sound(l) && i < |l.loaded| && k != Undecided
    ensures Balance(LandStep(l, i, ok), k) == Balance(l, k)
  {
    hide Results, Tracked, RealOutcomes, Without, Count, Total, MarkStale;
    var c := l.loaded[i];
    var r := SeatResult(c.player.id, c.outcome);
    ResultsWithout(l.loaded, i, r.player);
    CountWithout(Results(l.loaded), i, k);
    CountOne(r, k);
    if ok {
      assert c in l.loaded;
      TotalGains(l.ideal, r.player, r.outcome, k);
    } else {
      CountAppends(l.dropped, [r], k);
    }
  }

  lemma StepKeepsBalance(l: Ledger, e: Event, k: Outcome)
    requires Sound(l) && k != Undecided
    ensures Balance(Step(l, e), k) == Balance(l, k) + if e.Settle? then Count(e.results, k) else 0
  {
    match e
    case Settle(rs) => CountAppends(l.due, rs, k);
    case Load(i, ok) => if i < |l.due| { LoadKeepsBalance(l, i, ok, k); }
    case Land(i, ok) => if i < |l.loaded| { LandKeepsBalance(l, i, ok, k); }
    case Enrol(p) => TotalUpdates(l.ideal, p.id, NO_GAMES, k);
  }

  // ----- the stored totals -----

  ghost function TotalPlayed(m: map<PlayerID, Stats>): int {
    Total(m, Win) + Total(m, Loss) + Total(m, Draw)
  }

  lemma {:induction false} TotalsCompare(a: map<PlayerID, Stats>, b: map<PlayerID, Stats>)
    requires a.Keys == b.Keys && forall p :: p in a ==> Played(a[p]) <= Played(b[p])
    ensures TotalPlayed(a) <= TotalPlayed(b)
    ensures TotalPlayed(a) == TotalPlayed(b) <==> forall p :: p in a ==> Played(a[p]) == Played(b[p])
    decreases |a|
  {
    if a != map[] {
      var p :| p in a;
      forall k: Outcome
        ensures Total(a, k) == Field(a[p], k) + Total(a - {p}, k)
        ensures Total(b, k) == Field(b[p], k) + Total(b - {p}, k)
      {
        TotalPicks(a, p, k);
        TotalPicks(b, p, k);
      }
      TotalsCompare(a - {p}, b - {p});
      assert forall q :: q in a ==> q == p || q in a - {p};
    } else {
      assert b == map[];
    }
  }

  /** The whole table holds as many games as indivisible recording would have left exactly when no
      stale save has landed at all, and never more. */
  lemma StoredTotalsExactIffNothingOverwritten(l: Ledger)
    requires Sound(l)
    ensures TotalPlayed(StatsOf(l.store)) <= TotalPlayed(l.ideal)
    ensures TotalPlayed(StatsOf(l.store)) == TotalPlayed(l.ideal) <==> l.overwritten == {}
    ensures l.overwritten == {} ==> StatsOf(l.store) == l.ideal
  {
    forall p | p in l.store.byID
      ensures Played(l.store.byID[p].stats) <= Played(l.ideal[p])
      ensures p in l.overwritten <==> Played(l.store.byID[p].stats) < Played(l.ideal[p])
    {
      assert Tracked(l, p);
    }
    TotalsCompare(StatsOf(l.store), l.ideal);
    if l.overwritten != {} {
      var p :| p in l.overwritten;
      assert p in StatsOf(l.store);
    }
  }

  // ----- one player's books -----

  function FieldOf(m: map<PlayerID, Stats>, p: PlayerID, k: Outcome): int {
    if p in m then Field(m[p], k) else 0
  }

  /** Results handed over and not, or not yet, in the ideal stats. */
  function Owed(l: Ledger): multiset<SeatResult> {
    multiset(l.due) + multiset(Results(l.loaded)) + multiset(l.dropped)
  }

  /** Outcomes of kind k that are p's: in the ideal stats, or still owed to them. */
  function Credit(l: Ledger, p: PlayerID, k: Outcome): int {
    FieldOf(l.ideal, p, k) + Owed(l)[SeatResult(p, k)]
  }

  lemma LoadKeepsOwed(l: Ledger, i: nat, ok: bool)
    requires Sound(l) && i < |l.due|
    ensures Owed(LoadStep(l, i, ok)) == Owed(l) && LoadStep(l, i, ok).ideal == l.ideal
  {
    hide Results, Tracked, FlightTracked, RealOutcomes;
    var r := l.due[i];
    WithoutKeeps(l.due, i);
    if ok && r.player in l.store.byID {
      ResultsAppends(l.loaded, InFlight(l.store.byID[r.player], r.outcome, false));
    }
  }

  lemma ResultsAppends(cs: seq<InFlight>, c: InFlight)
    ensures Results(cs + [c]) == Results(cs) + [SeatResult(c.player.id, c.outcome)]
  {
  }

  lemma SettleOwes(l: Ledger, rs: seq<SeatResult>)
    ensures Owed(Step(l, Settle(rs))) == Owed(l) + multiset(rs)
  {
    hide Results;
  }

  lemma LandMovesOwed(l: Ledger, i: nat, ok: bool)
    requires Sound(l) && i < |l.loaded|
    ensures var l', r := LandStep(l, i, ok), SeatResult(l.loaded[i].player.id, l.loaded[i].outcome);
            if ok
            then r.player in l.ideal && Owed(l) == Owed(l') + multiset{r}
                 && l'.ideal == l.ideal[r.player := AddOutcome(l.ideal[r.player], r.outcome)]
            else Owed(l') == Owed(l) && l'.ideal == l.ideal
  {
    var c := l.loaded[i];
    assert c in l.loaded;
    ResultsWithout(l.loaded, i, c.player.id);
    WithoutKeeps(Results(l.loaded), i);
  }

  /** Only a hand-over changes a player's books, and by that player's own results alone. */
  lemma StepKeepsCredit(l: Ledger, e: Event, p: PlayerID, k: Outcome)
    requires Sound(l) && k != Undecided
    ensures Credit(Step(l, e), p, k) == Credit(l, p, k) + if e.Settle? then multiset(e.results)[SeatResult(p, k)] else 0
  {
    hide Owed, LoadStep, LandStep, Indexed, Tracked, FlightTracked, RealOutcomes;
    match e
    case Settle(rs) => SettleOwes(l, rs);
    case Load(i, ok) => if i < |l.due| { LoadKeepsOwed(l, i, ok); }
    case Land(i, ok) => if i < |l.loaded| { LandMovesOwed(l, i, ok); }
    case Enrol(q) => EnrolKeepsOwed(l, q);
  }

  lemma EnrolKeepsOwed(l: Ledger, q: Player)
    ensures Owed(EnrolStep(l, q)) == Owed(l)
  {
  }

  // ----- overlapping calls -----

  ghost predicate AtMostOneCall(l: Ledger, p: PlayerID) {
    forall i, j :: 0 <= i < j < |l.loaded| ==> l.loaded[i].player.id != p || l.loaded[j].player.id != p
  }

  /** Nothing was overwritten for p, and nothing is about to be. */
  ghost predicate Unharmed(l: Ledger, p: PlayerID) {
    p !in l.overwritten && forall c :: c in l.loaded && c.player.id == p ==> !c.stale
  }

  /** A call that is alone between its load and its save overwrites nothing. */
  lemma StepKeepsUnharmed(l: Ledger, e: Event, p: PlayerID)
    requires Unharmed(l, p) && AtMostOneCall(l, p)
    ensures Unharmed(Step(l, e), p)
  {
    if e.Land? && e.i < |l.loaded| {
      var c, l' := l.loaded[e.i], Step(l, e);
      assert c in l.loaded;
      WithoutKeeps(l.loaded, e.i);
      forall d | d in l'.loaded && d.player.id == p
        ensures !d.stale
      {
        var j :| 0 <= j < |l'.loaded| && l'.loaded[j] == d;
        assert Without(l.loaded, e.i)[j] in l.loaded;
        assert Without(l.loaded, e.i)[j] == l.loaded[if j < e.i then j else j + 1];
      }
    }
  }

  /** Any player loses twice, to two others, and the calls recording the two defeats overlap: once all is
      recorded one defeat is missing, while the winners' wins are both there. */
  lemma OverlappingRecordsLoseADefeat(l: Ledger, p: PlayerID, q: PlayerID, r: PlayerID)
    requires Opening(l) && l.dropped == [] && {p, q, r} <= l.store.byID.Keys && p != q && q != r && r != p
    ensures var l' := RunLedger(l, [Settle([SeatResult(q, Win), SeatResult(p, Loss)]),
                                    Settle([SeatResult(r, Win), SeatResult(p, Loss)])] + OverlappingCalls());
            && {p, q, r} <= l'.store.byID.Keys && {p, q, r} <= l'.ideal.Keys
            && l'.due == [] && l'.loaded == [] && l'.dropped == []
            && l'.ideal[p] == AddOutcome(AddOutcome(l.ideal[p], Loss), Loss)
            && l'.store.byID[p].stats == AddOutcome(l.ideal[p], Loss)
            && l'.store.byID[q].stats == l'.ideal[q] == AddOutcome(l.ideal[q], Win)
            && l'.store.byID[r].stats == l'.ideal[r] == AddOutcome(l.ideal[r], Win)
  {
    var a := Settle([SeatResult(q, Win), SeatResult(p, Loss)]);
    var b := Settle([SeatResult(r, Win), SeatResult(p, Loss)]);
    RunTwo(l, a, b);
    RunAppends(l, [a, b], OverlappingCalls());
    TwoHandOvers(l, p, q, r);
    hide RunLedger, OverlappingCalls, Step, Indexed;
    OverlapOutcome(Step(Step(l, a), b), p, q, r);
  }

  lemma TwoHandOvers(l: Ledger, p: PlayerID, q: PlayerID, r: PlayerID)
    requires l.due == []
    ensures Step(Step(l, Settle([SeatResult(q, Win), SeatResult(p, Loss)])), Settle([SeatResult(r, Win), SeatResult(p, Loss)])) ==
            l.(due := [SeatResult(q, Win), SeatResult(p, Loss), SeatResult(r, Win), SeatResult(p, Loss)])
  {
  }

  /** Each winner's record is made whole; then both records of the loser load before either saves. */
  function OverlappingCalls(): seq<Event> {
    OneByOne() + TwoAtOnce()
  }

  function OneByOne(): seq<Event> {
    [Load(0, true), Land(0, true), Load(1, true), Land(0, true)]
  }

  function TwoAtOnce(): seq<Event> {
    [Load(0, true), Load(0, true), Land(0, true), Land(0, true)]
  }

  function Saved(s: Players, p: PlayerID, k: Outcome): Players
    requires p in s.byID
  {
    s.(byID := s.byID[p := Recorded(s.byID[p], k)])
  }

  lemma OverlapOutcome(l: Ledger, p: PlayerID, q: PlayerID, r: PlayerID)
    requires l.due == [SeatResult(q, Win), SeatResult(p, Loss), SeatResult(r, Win), SeatResult(p, Loss)] && l.loaded == []
    requires Indexed(l.store) && l.ideal.Keys == l.store.byID.Keys
    requires {p, q, r} <= l.store.byID.Keys && p != q && q != r && r != p
    ensures RunLedger(l, OverlappingCalls()) ==
            l.(due := [], loaded := [], overwritten := l.overwritten + {p},
               store := Saved(Saved(Saved(l.store, q, Win), r, Win), p, Loss),
               ideal := l.ideal[q := AddOutcome(l.ideal[q], Win)][r := AddOutcome(l.ideal[r], Win)]
                               [p := AddOutcome(AddOutcome(l.ideal[p], Loss), Loss)])
  {
    hide Step, AddOutcome, NameKey;
    var defeat := SeatResult(p, Loss);
    RunAppends(l, OneByOne(), TwoAtOnce());
    RunFour(l, Load(0, true), Land(0, true), Load(1, true), Land(0, true));
    CallAlone(l, 0, q, Win);
    assert Without(l.due, 0) == [defeat, SeatResult(r, Win), defeat];
    var l2 := l.(due := [defeat, SeatResult(r, Win), defeat], store := Saved(l.store, q, Win),
                 ideal := l.ideal[q := AddOutcome(l.ideal[q], Win)]);
    CallAlone(l2, 1, r, Win);
    assert Without(l2.due, 1) == [defeat, defeat];
    var l4 := l2.(due := [defeat, defeat], store := Saved(l2.store, r, Win), ideal := l2.ideal[r := AddOutcome(l.ideal[r], Win)]);
    RunFour(l4, Load(0, true), Load(0, true), Land(0, true), Land(0, true));
    BothLoad(l4, p);
    BothLand(l4.(due := [], loaded := [InFlight(l4.store.byID[p], Loss, false), InFlight(l4.store.byID[p], Loss, false)]), p);
  }

  lemma BothLoad(l: Ledger, p: PlayerID)
    requires l.due == [SeatResult(p, Loss), SeatResult(p, Loss)] && l.loaded == [] && p in l.store.byID
    ensures var c := InFlight(l.store.byID[p], Loss, false);
            Step(Step(l, Load(0, true)), Load(0, true)) == l.(due := [], loaded := [c, c])
  {
    assert Without(l.due, 0) == [SeatResult(p, Loss)];
    assert Without([SeatResult(p, Loss)], 0) == [];
  }

  lemma BothLand(l: Ledger, p: PlayerID)
    requires p in l.store.byID && l.store.byID[p].id == p && p in l.ideal
    requires var c := InFlight(l.store.byID[p], Loss, false); l.loaded == [c, c]
    ensures Step(Step(l, Land(0, true)), Land(0, true)) ==
            l.(loaded := [], store := Saved(l.store, p, Loss), overwritten := l.overwritten + {p},
               ideal := l.ideal[p := AddOutcome(AddOutcome(l.ideal[p], Loss), Loss)])
  {
    var c := InFlight(l.store.byID[p], Loss, false);
    assert Without([c, c], 0) == [c];
    assert MarkStale([c], p) == [c.(stale := true)];
    assert Without([c.(stale := true)], 0) == [];
    assert Saved(l.store, p, Loss).byID[p := Recorded(c.player, Loss)] == Saved(l.store, p, Loss).byID;
  }

  lemma CallAlone(l: Ledger, i: nat, p: PlayerID, k: Outcome)
    requires i < |l.due| && l.due[i] == SeatResult(p, k) && l.loaded == []
    requires p in l.store.byID && l.store.byID[p].id == p && p in l.ideal
    ensures Step(Step(l, Load(i, true)), Land(0, true)) ==
            l.(due := Without(l.due, i), store := Saved(l.store, p, k), ideal := l.ideal[p := AddOutcome(l.ideal[p], k)])
  {
    var c := InFlight(l.store.byID[p], k, false);
    assert l.loaded + [c] == [c] && Without([c], 0) == [] && MarkStale([], p) == [];
  }

  lemma RunTwo(l: Ledger, a: Event, b: Event)
    ensures RunLedger(l, [a, b]) == Step(Step(l, a), b)
  {
    RunUnfolds(l, [], a);
    RunUnfolds(l, [a], b);
    assert [] + [a] == [a] && [a] + [b] == [a, b];
  }

  lemma RunFour(l: Ledger, a: Event, b: Event, c: Event, d: Event)
    ensures RunLedger(l, [a, b, c, d]) == Step(Step(Step(Step(l, a), b), c), d)
  {
    RunTwo(l, a, b);
    RunAppends(l, [a, b], [c, d]);
    RunTwo(RunLedger(l, [a, b]), c, d);
    assert [a, b] + [c, d] == [a, b, c, d];
  }

  lemma RunUnfolds(l: Ledger, es: seq<Event>, e: Event)
    ensures RunLedger(l, es + [e]) == Step(RunLedger(l, es), e)
  {
    assert (es + [e])[..|es|] == es;
  }

  lemma {:induction false} RunAppends(l: Ledger, es: seq<Event>, fs: seq<Event>)
    ensures RunLedger(l, es + fs) == RunLedger(RunLedger(l, es), fs)
  {
    if fs == [] {
      assert es + fs == es;
    } else {
      var n := |fs| - 1;
      RunAppends(l, es, fs[..n]);
      RunUnfolds(l, es + fs[..n], fs[n]);
      assert es + fs == es + fs[..n] + [fs[n]];
    }
  }
}
