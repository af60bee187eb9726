/** The queue in front of the live games. A join is three separate steps: a look at the games, a visit to
    the queue under its own mutex, and, for a full pair, a start with that mutex released. */
module Matchmakers {
  import opened Base
  import opened LiveGames

  datatype Pair = Pair(x: PlayerID, o: PlayerID)

  // ----- the queue's critical sections -----

  datatype Enqueued =
    | Refused
    | Waiting(queue: seq<PlayerID>)
    | Paired(pair: Pair, queue: seq<PlayerID>)

  function Enqueue(queue: seq<PlayerID>, p: PlayerID): Enqueued {
    if p in queue then Refused
    else
      var q := queue + [p];
      if |q| < 2 then Waiting(q) else Paired(Pair(q[0], q[1]), q[2..])
  }

  function Leave(queue: seq<PlayerID>, p: PlayerID): seq<PlayerID> {
    if queue == [] then []
    else if queue[0] == p then queue[1..]
    else [queue[0]] + Leave(queue[1..], p)
  }

  /** Leaving takes out the first occurrence, or nothing. */
  lemma {:induction false} LeaveSkips(queue: seq<PlayerID>, p: PlayerID, i: nat)
    requires i <= |queue| && p !in queue[..i] && (i < |queue| ==> queue[i] == p)
    ensures Leave(queue, p) == if i < |queue| then queue[..i] + queue[i + 1..] else queue
  {
    if i > 0 {
      assert queue[..i] == [queue[0]] + queue[1..i];
      assert queue[1..][..i - 1] == queue[1..i];
      LeaveSkips(queue[1..], p, i - 1);
    }
  }

  // ----- the steps of concurrent callers -----

  datatype QueueEvent = Joined(player: PlayerID) | Withdrew(player: PlayerID)

  datatype Lobby = Lobby(
    games: GamesValue,
    queue: seq<PlayerID>,
    checked: multiset<PlayerID>,   // joins past the InMatch test, not yet at the queue
    popped: seq<Pair>,             // pairs taken off the queue, their Start still to come
    log: seq<QueueEvent>,          // accepted joins and effective leaves, in order
    pairs: seq<Pair>)              // every pair ever popped, in order

  const EMPTY_LOBBY := Lobby(NO_MATCHES, [], multiset{}, [], [], [])

  datatype LobbyEvent =
    | Check(p: PlayerID)
    | Queue(p: PlayerID)
    | Quit(p: PlayerID)
    | Start(i: nat, id: MatchID, names: map<PlayerID, string>)
    | Play(p: PlayerID, cell: Int64)
    | Abandon(p: PlayerID)

  function CheckStep(l: Lobby, p: PlayerID): Lobby {
    if p in l.games.byPlayer then l else l.(checked := l.checked + multiset{p})
  }

  function QueueStep(l: Lobby, p: PlayerID): Lobby {
    if p !in l.checked then l
    else
      var l' := l.(checked := l.checked - multiset{p});
      match Enqueue(l.queue, p)
      case Refused => l'
      case Waiting(q) => l'.(queue := q, log := l.log + [Joined(p)])
      case Paired(pair, q) =>
        l'.(queue := q, log := l.log + [Joined(p)], popped := l.popped + [pair], pairs := l.pairs + [pair])
  }

  function QuitStep(l: Lobby, p: PlayerID): Lobby {
    if p in l.queue then l.(queue := Leave(l.queue, p), log := l.log + [Withdrew(p)]) else l
  }

  /** Loads both players, then enters the match; `names` is what the player store knows. */
  function StartPair(g: GamesValue, pair: Pair, id: MatchID, names: map<PlayerID, string>): Result<GamesValue> {
    if pair.x !in names || pair.o !in names then Err(PlayerNotFound)
    else StartMatch(g, id, pair.x, pair.o, names[pair.x], names[pair.o])
  }

  function StartStep(l: Lobby, i: nat, id: MatchID, names: map<PlayerID, string>): Lobby
    requires i < |l.popped|
  {
    var l' := l.(popped := Without(l.popped, i));
    match StartPair(l.games, l.popped[i], id, names)
    case Err(_) => l'
    case Ok(g) => l'.(games := g)
  }

  function PlayStep(l: Lobby, p: PlayerID, cell: Int64): Lobby {
    match MoveInMatch(l.games, p, cell)
    case Err(_) => l
    case Ok(mv) => l.(games := mv.after)
  }

  function AbandonStep(l: Lobby, p: PlayerID): Lobby {
    match AbandonMatch(l.games, p)
    case None => l
    case Some((g, _)) => l.(games := g)
  }

  /** One step of any caller; a step that is not enabled does nothing. */
  function LobbyStep(l: Lobby, e: LobbyEvent): Lobby {
    match e
    case Check(p) => CheckStep(l, p)
    case Queue(p) => QueueStep(l, p)
    case Quit(p) => QuitStep(l, p)
    case Start(i, id, names) => if i < |l.popped| then StartStep(l, i, id, names) else l
    case Play(p, cell) => PlayStep(l, p, cell)
    case Abandon(p) => AbandonStep(l, p)
  }

  // ----- first come, first paired -----

  /** s less the last occurrence of p. */
  function RemoveLast(s: seq<PlayerID>, p: PlayerID): seq<PlayerID> {
    if s == [] then []
    else if s[|s| - 1] == p then s[..|s| - 1]
    else RemoveLast(s[..|s| - 1], p) + [s[|s| - 1]]
  }

  /** The accepted joins in order, each withdrawal cancelling its player's latest join. */
  function Survivors(log: seq<QueueEvent>): seq<PlayerID> {
    if log == [] then []
    else
      var before, e := Survivors(log[..|log| - 1]), log[|log| - 1];
      if e.Joined? then before + [e.player] else RemoveLast(before, e.player)
  }

  function Flatten(pairs: seq<Pair>): seq<PlayerID> {
    if pairs == [] then []
    else Flatten(pairs[..|pairs| - 1]) + [pairs[|pairs| - 1].x, pairs[|pairs| - 1].o]
  }

  /** Whenever the queue's mutex is free at most one player waits, popped pairs are of two different
      players, and the joins that stand are the popped pairs followed by the queue, in order: nobody is
      invented, repeated or overtaken, and the longer waiter of a pair is X. */
  ghost predicate FirstComeFirstPaired(l: Lobby) {
    && |l.queue| <= 1
    && (forall pair :: pair in l.pairs ==> pair.x != pair.o)
    && (forall pair :: pair in l.popped ==> pair in l.pairs)
    && Survivors(l.log) == Flatten(l.pairs) + l.queue
  }

  lemma SurvivorsUnfold(log: seq<QueueEvent>, e: QueueEvent)
    ensures Survivors(log + [e]) ==
            if e.Joined? then Survivors(log) + [e.player] else RemoveLast(Survivors(log), e.player)
  {
    assert (log + [e])[..|log|] == log;
  }

  lemma FlattenUnfolds(pairs: seq<Pair>, pair: Pair)
    ensures Flatten(pairs + [pair]) == Flatten(pairs) + [pair.x, pair.o]
  {
    assert (pairs + [pair])[..|pairs|] == pairs;
  }

  lemma QueueKeepsOrder(l: Lobby, p: PlayerID)
    requires FirstComeFirstPaired(l)
    ensures FirstComeFirstPaired(QueueStep(l, p))
  {
    SurvivorsUnfold(l.log, Joined(p));
    if p in l.checked && Enqueue(l.queue, p).Paired? {
      var pair := Enqueue(l.queue, p).pair;
      FlattenUnfolds(l.pairs, pair);
      assert l.queue == [pair.x] && p == pair.o;
      assert Flatten(l.pairs) + [pair.x] + [pair.o] == Flatten(l.pairs) + [pair.x, pair.o] + [];
    }
  }

  lemma QuitKeepsOrder(l: Lobby, p: PlayerID)
    requires FirstComeFirstPaired(l)
    ensures FirstComeFirstPaired(QuitStep(l, p))
  {
    if p in l.queue {
      assert l.queue == [p];
      SurvivorsUnfold(l.log, Withdrew(p));
      assert Survivors(l.log)[..|Survivors(l.log)| - 1] == Flatten(l.pairs);
    }
  }

  lemma StepKeepsOrder(l: Lobby, e: LobbyEvent)
    requires FirstComeFirstPaired(l)
    ensures FirstComeFirstPaired(LobbyStep(l, e))
  {
    match e
    case Queue(p) => QueueKeepsOrder(l, p);
    case Quit(p) => QuitKeepsOrder(l, p);
    case _ =>
  }

  // ----- what each visit to the queue does -----

  /** After p has left, p does not wait; nobody else's waiting changes, and the withdrawal counts exactly when p waited. */
  lemma QuitTakesOut(l: Lobby, p: PlayerID)
    requires FirstComeFirstPaired(l)
    ensures var l' := LobbyStep(l, Quit(p));
            && p !in l'.queue
            && (p in l.queue ==> l.queue == [p] && l'.queue == [] && l'.log == l.log + [Withdrew(p)])
            && (p !in l.queue ==> l'.queue == l.queue && l'.log == l.log)
            && l'.games == l.games && l'.checked == l.checked && l'.popped == l.popped && l'.pairs == l.pairs
  {
  }

  /** A visit with nobody waiting leaves p waiting; with another player waiting it takes both off as a pair, the one who
      waited as X; with p itself waiting it changes nothing. Each use up one check. */
  lemma VisitCases(l: Lobby, p: PlayerID)
    requires FirstComeFirstPaired(l)
    ensures var l' := LobbyStep(l, Queue(p));
            && (p !in l.checked ==> l' == l)
            && (p in l.checked ==> l'.checked == l.checked - multiset{p} && l'.games == l.games)
            && (p in l.checked && p in l.queue ==>
                  l'.queue == l.queue && l'.popped == l.popped && l'.pairs == l.pairs && l'.log == l.log)
            && (p in l.checked && l.queue == [] ==>
                  l'.queue == [p] && l'.popped == l.popped && l'.pairs == l.pairs && l'.log == l.log + [Joined(p)])
            && (p in l.checked && l.queue != [] && l.queue[0] != p ==>
                  && l'.queue == [] && l'.log == l.log + [Joined(p)]
                  && l'.popped == l.popped + [Pair(l.queue[0], p)] && l'.pairs == l.pairs + [Pair(l.queue[0], p)])
  {
  }

  /** The first test lets p through exactly when p plays no match at that moment, and changes nothing else. */
  lemma CheckCases(l: Lobby, p: PlayerID)
    ensures var l' := LobbyStep(l, Check(p));
            && l' == l.(checked := l'.checked)
            && l'.checked == if p in l.games.byPlayer then l.checked else l.checked + multiset{p}
  {
  }

  // ----- the games behind the queue -----

  /** A new match needs an ID that is not in use. */
  predicate FreshID(l: Lobby, e: LobbyEvent) {
    e.Start? ==> e.id !in l.games.active
  }

  lemma StepKeepsGames(l: Lobby, e: LobbyEvent)
    requires Mirror(l.games) && InPlay(l.games) && FreshID(l, e)
    ensures Mirror(LobbyStep(l, e).games) && InPlay(LobbyStep(l, e).games)
  {
    match e
    case Start(i, id, names) => if i < |l.popped| { StartKeepsGames(l.games, l.popped[i], id, names); }
    case Play(p, cell) =>
      if MoveInMatch(l.games, p, cell).Ok? {
        MoveKeepsMirror(l.games, p, cell);
        MoveKeepsInPlay(l.games, p, cell);
      }
    case Abandon(p) =>
      if AbandonMatch(l.games, p).Some? {
        AbandonKeepsMirror(l.games, p);
        AbandonKeepsInPlay(l.games, p);
      }
    case _ =>
  }

  lemma StartKeepsGames(g: GamesValue, pair: Pair, id: MatchID, names: map<PlayerID, string>)
    requires Mirror(g) && InPlay(g) && id !in g.active
    ensures var r := StartPair(g, pair, id, names);
            r.Ok? ==> Mirror(r.value) && InPlay(r.value)
  {
    if StartPair(g, pair, id, names).Ok? {
      StartKeepsMirror(g, id, pair.x, pair.o, names[pair.x], names[pair.o]);
      StartKeepsInPlay(g, id, pair.x, pair.o, names[pair.x], names[pair.o]);
    }
  }

  function RunLobby(l: Lobby, es: seq<LobbyEvent>): Lobby {
    if es == [] then l else LobbyStep(RunLobby(l, es[..|es| - 1]), es[|es| - 1])
  }

  /** Every Start of the run draws an ID not in use at that moment. */
  ghost predicate FreshIDs(l: Lobby, es: seq<LobbyEvent>) {
    forall k :: 0 <= k < |es| ==> FreshID(RunLobby(l, es[..k]), es[k])
  }

  ghost predicate Orderly(l: Lobby) {
    FirstComeFirstPaired(l) && Mirror(l.games) && InPlay(l.games)
  }

  /** Over every interleaving of joins, leaves, starts, moves and abandons. */
  lemma {:induction false} EveryInterleavingIsOrderly(es: seq<LobbyEvent>)
    requires FreshIDs(EMPTY_LOBBY, es)
    ensures Orderly(RunLobby(EMPTY_LOBBY, es))
  {
    if es != [] {
      var n := |es| - 1;
      var l := RunLobby(EMPTY_LOBBY, es[..n]);
      forall k | 0 <= k < n
        ensures FreshID(RunLobby(EMPTY_LOBBY, es[..n][..k]), es[..n][k])
      {
        assert es[..n][..k] == es[..k];
      }
      EveryInterleavingIsOrderly(es[..n]);
      assert FreshID(l, es[n]);
      StepKeepsOrder(l, es[n]);
      StepKeepsGames(l, es[n]);
    }
  }

  /** What becomes of a popped pair: it plays exactly when the store knows both and neither is busy by
      then; otherwise both stay outside, and the error is never SamePlayer. */
  lemma StartOfPairVerdict(l: Lobby, i: nat, id: MatchID, names: map<PlayerID, string>)
    requires Orderly(l) && i < |l.popped| && id !in l.games.active
    ensures var pair := l.popped[i];
            var r := StartPair(l.games, pair, id, names);
            && r != Err(SamePlayer)
            && (r == Err(PlayerNotFound) <==> pair.x !in names || pair.o !in names)
            && (r.Ok? <==> pair.x in names && pair.o in names && pair.x !in l.games.byPlayer && pair.o !in l.games.byPlayer)
            && (r.Err? ==> r.error in {PlayerNotFound, AlreadyInMatch})
            && (r.Ok? ==> LobbyStep(l, Start(i, id, names)).games.byPlayer == l.games.byPlayer[pair.x := id][pair.o := id])
            && (r.Err? ==> LobbyStep(l, Start(i, id, names)).games == l.games)
  {
    hide InPlay;
    assert l.popped[i] in l.popped;
    if l.popped[i].x in names && l.popped[i].o in names {
      StartVerdict(l.games, id, l.popped[i].x, l.popped[i].o, names[l.popped[i].x], names[l.popped[i].o]);
    }
  }

  // ----- one call at a time -----

  /** A whole Join with nothing in between. */
  function JoinAlone(l: Lobby, p: PlayerID, id: MatchID, names: map<PlayerID, string>): Lobby {
    var l' := LobbyStep(LobbyStep(l, Check(p)), Queue(p));
    LobbyStep(l', Start(0, id, names))
  }

  /** The same as one call on the games and the queue, with what the caller is told. */
  datatype Joining = Joining(games: GamesValue, queue: seq<PlayerID>, err: Option<Error>)

  function JoinCall(g: GamesValue, queue: seq<PlayerID>, p: PlayerID, id: MatchID,
                    names: map<PlayerID, string>): Joining {
    if p in g.byPlayer then Joining(g, queue, Some(AlreadyInMatch))
    else
      match Enqueue(queue, p)
      case Refused => Joining(g, queue, Some(AlreadyQueued))
      case Waiting(q) => Joining(g, q, None)
      case Paired(pair, q) =>
        match StartPair(g, pair, id, names)
        case Err(e) => Joining(g, q, Some(e))
        case Ok(g') => Joining(g', q, None)
  }

  /** What a join on its own does and tells: refused while playing or waiting; waiting when first; otherwise paired
      with the one who waited, and then told why the match could not start, or that it did. */
  lemma JoinCallCases(g: GamesValue, queue: seq<PlayerID>, p: PlayerID, id: MatchID, names: map<PlayerID, string>)
    requires |queue| <= 1
    ensures var j := JoinCall(g, queue, p, id, names);
            && (p in g.byPlayer ==> j == Joining(g, queue, Some(AlreadyInMatch)))
            && (p !in g.byPlayer && p in queue ==> j == Joining(g, queue, Some(AlreadyQueued)))
            && (p !in g.byPlayer && queue == [] ==> j == Joining(g, [p], None))
            && (p !in g.byPlayer && queue != [] && queue[0] != p ==>
                  var w := queue[0];
                  && j.queue == []
                  && j.err == (if w !in names || p !in names then Some(PlayerNotFound)
                               else if w in g.byPlayer then Some(AlreadyInMatch) else None)
                  && (j.err != None ==> j.games == g)
                  && (j.err == None ==>
                        && j.games.byPlayer == g.byPlayer[w := id][p := id] && id in j.games.active
                        && j.games.active[id].game.x == w && j.games.active[id].game.o == p
                        && j.games.active[id].names == map[w := names[w], p := names[p]]
                        && forall i :: i in g.active && i != id ==> i in j.games.active && j.games.active[i] == g.active[i]))
  {
  }

  lemma JoinCallIsThreeSteps(l: Lobby, p: PlayerID, id: MatchID, names: map<PlayerID, string>)
    requires l.checked == multiset{} && l.popped == []
    ensures var l', j := JoinAlone(l, p, id, names), JoinCall(l.games, l.queue, p, id, names);
            l'.games == j.games && l'.queue == j.queue && l'.checked == multiset{} && l'.popped == []
  {
    if p !in l.games.byPlayer {
      assert LobbyStep(l, Check(p)).checked == multiset{p};
      var l2 := LobbyStep(LobbyStep(l, Check(p)), Queue(p));
      assert l2.checked == multiset{};
      if l2.popped != [] {
        assert Without(l2.popped, 0) == [];
      }
    }
  }

  /** Nothing half done, and nobody both waiting and playing. */
  ghost predicate Quiet(l: Lobby) {
    && Orderly(l) && l.checked == multiset{} && l.popped == []
    && forall p :: p in l.queue ==> p !in l.games.byPlayer
  }

  lemma VisitAlone(l: Lobby, p: PlayerID)
    requires Quiet(l)
    ensures var l' := LobbyStep(LobbyStep(l, Check(p)), Queue(p));
            l' == if p in l.games.byPlayer || p in l.queue then l
                  else if l.queue == [] then l.(queue := [p], log := l.log + [Joined(p)])
                  else var pair := Pair(l.queue[0], p);
                       l.(queue := [], log := l.log + [Joined(p)], popped := [pair], pairs := l.pairs + [pair])
  {
    var l1 := LobbyStep(l, Check(p));
    if p !in l.games.byPlayer {
      assert l1 == l.(checked := multiset{p});
      assert l1.checked - multiset{p} == multiset{};
    }
  }

  lemma StartAlone(l: Lobby, id: MatchID, names: map<PlayerID, string>)
    requires |l.popped| == 1
    requires var pair := l.popped[0];
             && pair.x != pair.o && pair.x in names && pair.o in names
             && pair.x !in l.games.byPlayer && pair.o !in l.games.byPlayer
    ensures var pair, l' := l.popped[0], LobbyStep(l, Start(0, id, names));
            && l' == l.(popped := [], games := l'.games)
            && id in l'.games.active
            && l'.games.active[id].game.x == pair.x && l'.games.active[id].game.o == pair.o
            && l'.games.byPlayer == l.games.byPlayer[pair.x := id][pair.o := id]
  {
    assert Without(l.popped, 0) == [];
  }

  /** Joins one at a time: a playing or waiting caller is refused and nothing changes; a caller finding
      the queue empty waits; otherwise the caller plays O against the one who waited, who plays X. */
  lemma JoinAloneVerdict(l: Lobby, p: PlayerID, id: MatchID, names: map<PlayerID, string>)
    requires Quiet(l) && id !in l.games.active
    requires p in names && forall q :: q in l.queue ==> q in names
    ensures var l' := JoinAlone(l, p, id, names);
            && Quiet(l')
            && (p in l.games.byPlayer || p in l.queue ==> l'.games == l.games && l'.queue == l.queue)
            && (p !in l.games.byPlayer && l.queue == [] ==> l'.games == l.games && l'.queue == [p])
            && (p !in l.games.byPlayer && p !in l.queue && l.queue != [] ==>
                  && l'.queue == [] && id in l'.games.active
                  && l'.games.active[id].game.x == l.queue[0] && l'.games.active[id].game.o == p
                  && l'.games.byPlayer == l.games.byPlayer[l.queue[0] := id][p := id])
  {
    hide Mirror, InPlay, LobbyStep, FirstComeFirstPaired;
    var l2 := LobbyStep(LobbyStep(l, Check(p)), Queue(p));
    VisitAlone(l, p);
    StepKeepsOrder(l, Check(p));
    StepKeepsOrder(LobbyStep(l, Check(p)), Queue(p));
    StepKeepsOrder(l2, Start(0, id, names));
    StepKeepsGames(l2, Start(0, id, names));
    AtMostOneWaits(l);
    if l2.popped != [] {
      StartAlone(l2, id, names);
    } else {
      NoPairNoStart(l2, id, names);
    }
  }

  lemma AtMostOneWaits(l: Lobby)
    requires FirstComeFirstPaired(l)
    ensures l.queue != [] ==> l.queue == [l.queue[0]]
  {
  }

  lemma NoPairNoStart(l: Lobby, id: MatchID, names: map<PlayerID, string>)
    requires l.popped == []
    ensures LobbyStep(l, Start(0, id, names)) == l
  {
  }

  /** Leaves, moves and abandons keep the lobby quiet too. */
  lemma OtherCallsStayQuiet(l: Lobby, e: LobbyEvent)
    requires Quiet(l) && (e.Quit? || e.Play? || e.Abandon?)
    ensures Quiet(LobbyStep(l, e))
  {
    hide Mirror, InPlay;
    StepKeepsOrder(l, e);
    StepKeepsGames(l, e);
    match e
    case Quit(p) =>
      assert p in l.queue ==> l.queue == [p];
    case Play(p, cell) =>
      if MoveInMatch(l.games, p, cell).Ok? {
        assert MoveInMatch(l.games, p, cell).value.after.byPlayer.Keys <= l.games.byPlayer.Keys;
      }
    case _ =>
  }

  /** A caller's whole request, made with nobody else's in between. */
  datatype Request = Join(p: PlayerID, id: MatchID) | Other(e: LobbyEvent)

  function Serve(l: Lobby, r: Request, names: map<PlayerID, string>): Lobby {
    match r
    case Join(p, id) => if p in names && id !in l.games.active then JoinAlone(l, p, id, names) else l
    case Other(e) => if e.Quit? || e.Play? || e.Abandon? then LobbyStep(l, e) else l
  }

  function ServeAll(rs: seq<Request>, names: map<PlayerID, string>): Lobby {
    if rs == [] then EMPTY_LOBBY else Serve(ServeAll(rs[..|rs| - 1], names), rs[|rs| - 1], names)
  }

  /** Served one at a time, requests by players the store knows never leave anyone both waiting and
      playing, nor any call half done; so by the verdict above nobody who waits is ever dropped. */
  lemma {:induction false} SerialServiceStaysQuiet(rs: seq<Request>, names: map<PlayerID, string>)
    ensures Quiet(ServeAll(rs, names))
    ensures forall p :: p in ServeAll(rs, names).queue ==> p in names
  {
    if rs != [] {
      var l, r := ServeAll(rs[..|rs| - 1], names), rs[|rs| - 1];
      SerialServiceStaysQuiet(rs[..|rs| - 1], names);
      match r
      case Join(p, id) => if p in names && id !in l.games.active { JoinAloneVerdict(l, p, id, names); }
      case Other(e) => if e.Quit? || e.Play? || e.Abandon? { OtherCallsStayQuiet(l, e); }
    }
  }

  lemma ServedNext(rs: seq<Request>, r: Request, names: map<PlayerID, string>)
    ensures ServeAll(rs + [r], names) == Serve(ServeAll(rs, names), r, names)
  {
    assert (rs + [r])[..|rs|] == rs;
  }

  /** Served one at a time, whoever waits goes on waiting until leaving or until somebody else joins, and then plays that
      player; and whoever joins, being known and in no match, is then waiting or playing. */
  lemma WaitersAreNeverDropped(rs: seq<Request>, r: Request, names: map<PlayerID, string>)
    ensures var l, l' := ServeAll(rs, names), ServeAll(rs + [r], names);
            && (forall w :: w in l.queue && w !in l'.queue ==>
                  || r == Other(Quit(w))
                  || (r.Join? && r.p != w && w in l'.games.byPlayer && r.p in l'.games.byPlayer
                      && l'.games.byPlayer[w] == r.id && l'.games.byPlayer[r.p] == r.id))
            && (r.Join? && r.p in names && r.p !in l.games.byPlayer && r.id !in l.games.active ==>
                  r.p in l'.queue || r.p in l'.games.byPlayer)
            && (forall w :: r == Other(Quit(w)) ==> w !in l'.queue)
  {
    hide JoinAlone, LobbyStep, Mirror, InPlay, FirstComeFirstPaired;
    var l := ServeAll(rs, names);
    SerialServiceStaysQuiet(rs, names);
    ServedNext(rs, r, names);
    match r
    case Join(p, id) =>
      if p in names && id !in l.games.active {
        AtMostOneWaits(l);
        JoinAloneVerdict(l, p, id, names);
      }
    case Other(e) =>
      if e.Quit? {
        QuitTakesOut(l, e.p);
      } else if e.Play? || e.Abandon? {
        OthersKeepTheQueue(l, e);
      }
  }

  lemma OthersKeepTheQueue(l: Lobby, e: LobbyEvent)
    requires !e.Quit? && !e.Queue?
    ensures LobbyStep(l, e).queue == l.queue
  {
  }

  // ----- what interleaving can do -----

  /** With overlapping calls a waiting player can be dropped. One player's second join, past its test
      before the first join is paired, pops a stranger who waited and then fails to start: the stranger
      was told to wait, and is now neither waiting, nor about to start, nor playing. */
  lemma OverlappingJoinsDropAWaiter(p: PlayerID, q: PlayerID, w: PlayerID, i: MatchID, j: MatchID,
                                    names: map<PlayerID, string>)
    requires p != q && q != w && w != p && i != j && {p, q, w} <= names.Keys
    ensures var es := [Check(p), Check(p)] + [Queue(p), Check(q), Queue(q), Start(0, i, names)]
                      + [Check(w), Queue(w), Queue(p), Start(0, j, names)];
            var l := RunLobby(EMPTY_LOBBY, es);
            && Survivors(l.log) == [p, q, w, p]
            && w !in l.queue && l.checked == multiset{} && l.popped == [] && w !in l.games.byPlayer
  {
    hide RunLobby, LobbyStep, Survivors;
    var es := [Check(p), Check(p)] + [Queue(p), Check(q), Queue(q), Start(0, i, names)];
    UntilPaired(p, q, i, names);
    var l := RunLobby(EMPTY_LOBBY, es);
    RunFour(EMPTY_LOBBY, es, Check(w), Queue(w), Queue(p), Start(0, j, names));
    AfterPairing(l, p, w);
    var l' := LobbyStep(LobbyStep(LobbyStep(l, Check(w)), Queue(w)), Queue(p));
    StartOfBusyPair(l', j, names);
    SurvivorsUnfold(l.log, Joined(w));
    SurvivorsUnfold(l.log + [Joined(w)], Joined(p));
  }

  lemma StartOfBusyPair(l: Lobby, id: MatchID, names: map<PlayerID, string>)
    requires |l.popped| == 1 && l.popped[0].o in l.games.byPlayer
    ensures LobbyStep(l, Start(0, id, names)) == l.(popped := [])
  {
    assert Without(l.popped, 0) == [];
  }

  lemma AfterPairing(l: Lobby, p: PlayerID, w: PlayerID)
    requires l.queue == [] && l.checked == multiset{p} && l.popped == [] && p != w && w !in l.games.byPlayer
    ensures LobbyStep(LobbyStep(LobbyStep(l, Check(w)), Queue(w)), Queue(p)) ==
            l.(checked := multiset{}, log := l.log + [Joined(w)] + [Joined(p)],
               popped := [Pair(w, p)], pairs := l.pairs + [Pair(w, p)])
  {
    var l1 := l.(checked := multiset{p} + multiset{w});
    assert LobbyStep(l, Check(w)) == l1;
    assert l1.checked - multiset{w} == multiset{p};
    assert LobbyStep(l1, Queue(w)) == l.(queue := [w], log := l.log + [Joined(w)]);
    assert multiset{p} - multiset{p} == multiset{};
  }

  lemma UntilPaired(p: PlayerID, q: PlayerID, i: MatchID, names: map<PlayerID, string>)
    requires p != q && {p, q} <= names.Keys
    ensures var l := RunLobby(EMPTY_LOBBY, [Check(p), Check(p)] + [Queue(p), Check(q), Queue(q), Start(0, i, names)]);
            && l.queue == [] && l.checked == multiset{p} && l.popped == []
            && l.games.byPlayer == map[p := i, q := i]
            && Survivors(l.log) == [p, q]
  {
    var l0 := EMPTY_LOBBY;
    RunTwo(l0, Check(p), Check(p));
    RunFour(l0, [Check(p), Check(p)], Queue(p), Check(q), Queue(q), Start(0, i, names));
    TwoChecksOneVisit(p);
    var l3 := l0.(checked := multiset{p}, queue := [p], log := [Joined(p)]);
    PairingVisit(l3, p, q);
    var l5 := l3.(queue := [], log := [Joined(p)] + [Joined(q)], popped := [Pair(p, q)], pairs := [Pair(p, q)]);
    StartAlone(l5, i, names);
    SurvivorsUnfold([], Joined(p));
    SurvivorsUnfold([Joined(p)], Joined(q));
  }

  lemma TwoChecksOneVisit(p: PlayerID)
    ensures LobbyStep(LobbyStep(LobbyStep(EMPTY_LOBBY, Check(p)), Check(p)), Queue(p)) ==
            EMPTY_LOBBY.(checked := multiset{p}, queue := [p], log := [Joined(p)])
  {
    var l2 := LobbyStep(LobbyStep(EMPTY_LOBBY, Check(p)), Check(p));
    assert l2.checked == multiset{p} + multiset{p};
    assert l2.checked - multiset{p} == multiset{p};
  }

  lemma PairingVisit(l: Lobby, p: PlayerID, q: PlayerID)
    requires l.queue == [p] && l.pairs == l.popped == [] && p != q && q !in l.games.byPlayer && q !in l.checked
    ensures LobbyStep(LobbyStep(l, Check(q)), Queue(q)) ==
            l.(queue := [], log := l.log + [Joined(q)], popped := [Pair(p, q)], pairs := [Pair(p, q)])
  {
    assert l.checked + multiset{q} - multiset{q} == l.checked;
  }

  lemma RunUnfolds(l: Lobby, es: seq<LobbyEvent>, e: LobbyEvent)
    ensures RunLobby(l, es + [e]) == LobbyStep(RunLobby(l, es), e)
  {
    assert (es + [e])[..|es|] == es;
  }

  lemma RunTwo(l: Lobby, a: LobbyEvent, b: LobbyEvent)
    ensures RunLobby(l, [a, b]) == LobbyStep(LobbyStep(l, a), b)
  {
    RunUnfolds(l, [], a);
    RunUnfolds(l, [a], b);
    assert [] + [a] == [a] && [a] + [b] == [a, b];
  }

  lemma RunFour(l: Lobby, es: seq<LobbyEvent>, a: LobbyEvent, b: LobbyEvent, c: LobbyEvent, d: LobbyEvent)
    ensures RunLobby(l, es + [a, b, c, d]) == LobbyStep(LobbyStep(LobbyStep(LobbyStep(RunLobby(l, es), a), b), c), d)
  {
    hide LobbyStep, RunLobby;
    RunUnfolds(l, es, a);
    RunUnfolds(l, es + [a], b);
    RunUnfolds(l, es + [a] + [b], c);
    RunUnfolds(l, es + [a] + [b] + [c], d);
    assert es + [a, b, c, d] == es + [a] + [b] + [c] + [d];
  }

  // ----- the object -----

  class Matchmaking {
    var queue: seq<PlayerID>

    constructor ()
      ensures queue == []
    {
      queue := [];
    }

    /** The lock-held part of Join. */
    method Visit(p: PlayerID) returns (r: Enqueued)
      modifies this
      ensures r == Enqueue(old(queue), p)
      ensures queue == if r == Refused then old(queue) else r.queue
    {
      if p in queue {
        return Refused;
      }
      queue := queue + [p];
      if |queue| < 2 {
        return Waiting(queue);
      }
      var x, o := queue[0], queue[1];
      queue := queue[2..];
      return Paired(Pair(x, o), queue);
    }

    method Withdraw(p: PlayerID)
      modifies this
      ensures queue == Leave(old(queue), p)
    {
      var i := 0;
      while i < |queue| && queue[i] != p
        invariant 0 <= i <= |queue|
        invariant p !in queue[..i]
      {
        i := i + 1;
      }
      LeaveSkips(queue, p, i);
      if i < |queue| {
        queue := queue[..i] + queue[i + 1..];
      }
    }

    /** Join run undisturbed. */
    method Join(games: Games, p: PlayerID, id: MatchID, names: map<PlayerID, string>) returns (err: Option<Error>)
      requires games.Valid()
      modifies this, games
      ensures games.Valid()
      ensures Joining(games.Value(), queue, err) == JoinCall(old(games.Value()), old(queue), p, id, names)
    {
      var busy := games.InMatch(p);
      games.AllocationChangesNothing();
      if busy {
        return Some(AlreadyInMatch);
      }
      var r := Visit(p);
      games.AllocationChangesNothing();
      if r == Refused {
        return Some(AlreadyQueued);
      }
      if r.Waiting? {
        return None;
      }
      err := StartPopped(games, r.pair, id, names);
    }

    method StartPopped(games: Games, pair: Pair, id: MatchID, names: map<PlayerID, string>) returns (err: Option<Error>)
      requires games.Valid()
      modifies games
      ensures games.Valid()
      ensures match StartPair(old(games.Value()), pair, id, names)
              case Err(e) => err == Some(e) && games.Value() == old(games.Value())
              case Ok(g) => err == None && games.Value() == g
    {
      if pair.x !in names || pair.o !in names {
        return Some(PlayerNotFound);
      }
      var started := games.Start(id, pair.x, pair.o, names[pair.x], names[pair.o]);
      if started.Err? {
        return Some(started.error);
      }
      return None;
    }
  }
}
