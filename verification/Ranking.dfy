/** The leaderboard: a ranking that does not depend on the order players are visited in. */
module Rankings {
  import opened PlayerStores

  const DEFAULT_LEADERBOARD_LIMIT := 10
  const MAX_LEADERBOARD_LIMIT := 100

  datatype Standing = Standing(rank: int, name: string, wins: int, losses: int, draws: int)

  // ----- the order -----

  predicate LexLess(a: string, b: string) {
    b != "" && (a == "" || (if a[0] == b[0] then LexLess(a[1..], b[1..]) else a[0] < b[0]))
  }

  predicate Outranks(p: Player, q: Player) {
    if p.stats.wins != q.stats.wins then p.stats.wins > q.stats.wins
    else if p.stats.losses != q.stats.losses then p.stats.losses < q.stats.losses
    else LexLess(p.name, q.name)
  }

  lemma {:induction false} LexLessTotal(a: string, b: string)
    ensures !(LexLess(a, b) && LexLess(b, a))
    ensures a != b ==> LexLess(a, b) || LexLess(b, a)
  {
    if a != "" && b != "" {
      LexLessTotal(a[1..], b[1..]);
      assert a == [a[0]] + a[1..] && b == [b[0]] + b[1..];
    }
  }

  lemma {:induction false} LexLessTransitive(a: string, b: string, c: string)
    requires LexLess(a, b) && LexLess(b, c)
    ensures LexLess(a, c)
  {
    if a != "" && a[0] == b[0] == c[0] {
      LexLessTransitive(a[1..], b[1..], c[1..]);
    }
  }

  /** Between players of different names, exactly one outranks the other. */
  lemma OutranksTotal(p: Player, q: Player)
    ensures !(Outranks(p, q) && Outranks(q, p))
    ensures p.name != q.name ==> Outranks(p, q) || Outranks(q, p)
  {
    LexLessTotal(p.name, q.name);
  }

  lemma OutranksTransitive(p: Player, q: Player, r: Player)
    requires Outranks(p, q) && Outranks(q, r)
    ensures Outranks(p, r)
  {
    if LexLess(p.name, q.name) && LexLess(q.name, r.name) {
      LexLessTransitive(p.name, q.name, r.name);
    }
  }

  /** Byte by byte: the first difference decides, and a proper prefix comes first. */
  ghost predicate NameBefore(a: string, b: string) {
    exists n :: 0 <= n <= |a| && n < |b| && a[..n] == b[..n] && (n < |a| ==> a[n] < b[n])
  }

  lemma {:induction false} LexLessIsNameBefore(a: string, b: string)
    ensures LexLess(a, b) <==> NameBefore(a, b)
  {
    if a != "" && b != "" && a[0] == b[0] {
      LexLessIsNameBefore(a[1..], b[1..]);
      if NameBefore(a[1..], b[1..]) {
        var n :| 0 <= n <= |a[1..]| && n < |b[1..]| && a[1..][..n] == b[1..][..n] && (n < |a[1..]| ==> a[1..][n] < b[1..][n]);
        assert a[..n + 1] == [a[0]] + a[1..][..n] && b[..n + 1] == [b[0]] + b[1..][..n];
      }
      if NameBefore(a, b) {
        var n :| 0 <= n <= |a| && n < |b| && a[..n] == b[..n] && (n < |a| ==> a[n] < b[n]);
        assert a[1..][..n - 1] == a[..n][1..] && b[1..][..n - 1] == b[..n][1..];
      }
    } else if a != "" && b != "" {
      assert LexLess(a, b) ==> a[..0] == b[..0];
      forall n | 0 < n <= |a| && n < |b|
        ensures a[..n] != b[..n]
      {
        assert a[..n][0] == a[0] && b[..n][0] == b[0];
      }
    } else if b != "" {
      assert a[..0] == b[..0];
    }
  }

  /** p is before q: more wins, or as many and fewer losses, or both equal and the name that comes first. */
  ghost predicate Before(p: Player, q: Player) {
    && p.stats.wins >= q.stats.wins
    && (p.stats.wins == q.stats.wins ==> p.stats.losses <= q.stats.losses)
    && (p.stats.wins == q.stats.wins && p.stats.losses == q.stats.losses ==> NameBefore(p.name, q.name))
  }

  lemma BestFirst(p: Player, q: Player)
    requires Outranks(p, q)
    ensures Before(p, q)
  {
    LexLessIsNameBefore(p.name, q.name);
  }

  // ----- rankings -----

  function Elements(s: seq<Player>): set<Player> {
    set p | p in s
  }

  ghost predicate Ordered(s: seq<Player>) {
    forall i, j :: 0 <= i < j < |s| ==> Outranks(s[i], s[j])
  }

  /** s lists every player of the set, best first. */
  ghost predicate IsRanking(all: set<Player>, s: seq<Player>) {
    Elements(s) == all && Ordered(s)
  }

  ghost function Outrankers(all: set<Player>, p: Player): set<Player> {
    set q | q in all && Outranks(q, p)
  }

  /** A player's place in a ranking is the number of players who outrank it. */
  lemma {:induction false} PlaceIsOutrankers(all: set<Player>, s: seq<Player>, i: nat)
    requires IsRanking(all, s) && i < |s|
    ensures |Outrankers(all, s[i])| == i
    ensures Outrankers(all, s[i]) == Elements(s[..i])
  {
    var before := Elements(s[..i]);
    forall q | q in before
      ensures q in Outrankers(all, s[i])
    {
      var j :| 0 <= j < i && s[j] == q;
    }
    forall q | q in Outrankers(all, s[i])
      ensures q in before
    {
      var j :| 0 <= j < |s| && s[j] == q;
      if i < j {
        OutranksTotal(s[i], s[j]);
      }
      OutranksTotal(s[i], s[i]);
      assert s[..i][j] == q;
    }
    assert Outrankers(all, s[i]) == before;
    DistinctCount(s[..i]);
  }

  lemma {:induction false} DistinctCount(s: seq<Player>)
    requires Ordered(s)
    ensures |Elements(s)| == |s|
  {
    if s != [] {
      var n := |s| - 1;
      DistinctCount(s[..n]);
      if s[n] in s[..n] {
        var j :| 0 <= j < n && s[j] == s[n];
        OutranksTotal(s[j], s[n]);
      }
      assert Elements(s) == Elements(s[..n]) + {s[n]};
    }
  }

  /** There is only one ranking of a set of players. */
  lemma RankingIsUnique(all: set<Player>, s: seq<Player>, t: seq<Player>)
    requires IsRanking(all, s) && IsRanking(all, t)
    ensures s == t
  {
    DistinctCount(s);
    DistinctCount(t);
    forall i | 0 <= i < |s|
      ensures s[i] == t[i]
    {
      PlaceIsOutrankers(all, s, i);
      PlaceIsOutrankers(all, t, i);
      assert t[i] in all && s[i] in all;
      var j :| 0 <= j < |s| && s[j] == t[i];
      PlaceIsOutrankers(all, s, j);
    }
  }

  // ----- the top of the table -----

  ghost predicate DistinctNames(all: set<Player>) {
    forall p, q :: p in all && q in all && p.name == q.name ==> p == q
  }

  /** r is the ranking of all players, cut to the limit. */
  ghost predicate IsTop(all: set<Player>, limit: nat, r: seq<Player>) {
    exists s :: IsRanking(all, s) && r == if |s| > limit then s[..limit] else s
  }

  /** A shorter top is a prefix of a longer one, so the same limit gives the same list; its length is
      the limit or everybody, and nobody left out outranks anybody listed. */
  lemma TopIsDetermined(all: set<Player>, k: nat, n: nat, r: seq<Player>, r': seq<Player>)
    requires k <= n && IsTop(all, k, r) && IsTop(all, n, r')
    ensures r <= r' && (k == n ==> r == r')
    ensures |r| == if k < |all| then k else |all|
    ensures forall i, q :: 0 <= i < |r| && q in all && q !in r ==> Outranks(r[i], q)
  {
    var s :| IsRanking(all, s) && r == if |s| > k then s[..k] else s;
    var t :| IsRanking(all, t) && r' == if |t| > n then t[..n] else t;
    RankingIsUnique(all, s, t);
    DistinctCount(s);
    forall i, q | 0 <= i < |r| && q in all && q !in r
      ensures Outranks(r[i], q)
    {
      var j :| 0 <= j < |s| && s[j] == q;
      assert j >= |r|;
    }
  }

  lemma IndexedNamesAreDistinct(s: Players)
    requires Indexed(s)
    ensures DistinctNames(s.byID.Values)
  {
    LookupIsLinearScan(s, "");
  }

  // ----- sorting -----

  /** Where p belongs in an ordered list. */
  method PlaceFor(s: seq<Player>, p: Player) returns (i: nat)
    requires Ordered(s) && forall k :: 0 <= k < |s| ==> s[k].name != p.name
    ensures i <= |s|
    ensures forall k :: 0 <= k < i ==> Outranks(s[k], p)
    ensures forall k :: i <= k < |s| ==> Outranks(p, s[k])
  {
    i := |s|;
    while i > 0 && Outranks(p, s[i - 1])
      invariant i <= |s|
      invariant forall k :: i <= k < |s| ==> Outranks(p, s[k])
    {
      i := i - 1;
    }
    forall k | 0 <= k < i
      ensures Outranks(s[k], p)
    {
      OutranksTotal(p, s[i - 1]);
      if k < i - 1 {
        OutranksTransitive(s[k], s[i - 1], p);
      }
    }
  }

  /** Sorts by rank, standing in for the library's sort with the store's comparison. */
  method SortByRank(all: seq<Player>) returns (r: seq<Player>)
    requires forall i, j :: 0 <= i < j < |all| ==> all[i].name != all[j].name
    ensures IsRanking(Elements(all), r)
  {
    r := [];
    for n := 0 to |all|
      invariant Ordered(r)
      invariant Elements(r) == Elements(all[..n])
    {
      var p := all[n];
      forall k | 0 <= k < |r|
        ensures r[k].name != p.name
      {
        assert r[k] in Elements(r);
        var j :| 0 <= j < n && all[j] == r[k];
      }
      var i := PlaceFor(r, p);
      ghost var was := r;
      r := r[..i] + [p] + r[i..];
      InsertKeepsOrder(was, i, p);
      assert all[..n + 1] == all[..n] + [p];
      InsertAdds(was, i, p);
    }
    assert all[..|all|] == all;
  }

  lemma InsertKeepsOrder(s: seq<Player>, i: nat, p: Player)
    requires Ordered(s) && i <= |s|
    requires forall k :: 0 <= k < i ==> Outranks(s[k], p)
    requires forall k :: i <= k < |s| ==> Outranks(p, s[k])
    ensures Ordered(s[..i] + [p] + s[i..])
  {
    var t := s[..i] + [p] + s[i..];
    forall a, b | 0 <= a < b < |t|
      ensures Outranks(t[a], t[b])
    {
      assert t[a] == if a < i then s[a] else if a == i then p else s[a - 1];
      assert t[b] == if b < i then s[b] else if b == i then p else s[b - 1];
    }
  }

  lemma InsertAdds(s: seq<Player>, i: nat, p: Player)
    requires i <= |s|
    ensures Elements(s[..i] + [p] + s[i..]) == Elements(s) + {p}
  {
    assert s == s[..i] + s[i..];
  }

  /** All players, in whatever order the map yields them. */
  method Collect(store: PlayerStore) returns (all: seq<Player>)
    requires forall id :: id in store.byID ==> store.byID[id].id == id
    ensures Elements(all) == store.byID.Values
    ensures forall i, j :: 0 <= i < j < |all| ==> all[i].id != all[j].id
  {
    all := [];
    var todo := store.byID.Keys;
    while todo != {}
      invariant todo <= store.byID.Keys
      invariant forall i :: 0 <= i < |all| ==> all[i].id in store.byID && all[i].id !in todo && store.byID[all[i].id] == all[i]
      invariant forall i, j :: 0 <= i < j < |all| ==> all[i].id != all[j].id
      invariant forall id :: id in store.byID && id !in todo ==> store.byID[id] in all
      decreases |todo|
    {
      var id :| id in todo;
      all := all + [store.byID[id]];
      todo := todo - {id};
    }
  }

  /** Different players of the set, the best first, and those left out behind everybody listed. */
  ghost predicate BestOf(all: set<Player>, r: seq<Player>) {
    && (forall p :: p in r ==> p in all)
    && (forall i, j :: 0 <= i < j < |r| ==> r[i] != r[j] && Before(r[i], r[j]))
    && (forall p, q :: p in r && q in all && q !in r ==> Before(p, q))
  }

  lemma TopIsBestFirst(all: set<Player>, limit: nat, r: seq<Player>)
    requires IsTop(all, limit, r)
    ensures |r| == if limit < |all| then limit else |all|
    ensures BestOf(all, r)
  {
    hide Outranks, Before;
    var s :| IsRanking(all, s) && r == if |s| > limit then s[..limit] else s;
    TopIsDetermined(all, limit, limit, r, r);
    forall p | p in r
      ensures p in all
    {
      assert p in Elements(s);
    }
    forall i, j | 0 <= i < j < |r|
      ensures r[i] != r[j] && Before(r[i], r[j])
    {
      assert Outranks(s[i], s[j]);
      OutranksTotal(s[i], s[j]);
      BestFirst(s[i], s[j]);
    }
    forall p, q | p in r && q in all && q !in r
      ensures Before(p, q)
    {
      var i :| 0 <= i < |r| && r[i] == p;
      BestFirst(r[i], q);
    }
  }

  /** As many players as asked for, or all, the best first. */
  method Top(store: PlayerStore, limit: nat) returns (r: seq<Player>)
    requires Indexed(store.Value())
    ensures IsTop(store.byID.Values, limit, r)
    ensures |r| == if limit < |store.byID.Values| then limit else |store.byID.Values|
    ensures BestOf(store.byID.Values, r)
  {
    var all := Collect(store);
    IndexedNamesAreDistinct(store.Value());
    forall i, j | 0 <= i < j < |all|
      ensures all[i].name != all[j].name
    {
      assert all[i] in Elements(all) && all[j] in Elements(all);
    }
    r := SortByRank(all);
    assert IsRanking(store.byID.Values, r);
    if |r| > limit {
      r := r[..limit];
    }
    TopIsBestFirst(store.byID.Values, limit, r);
  }

  function Clamp(limit: int): nat {
    if limit <= 0 then DEFAULT_LEADERBOARD_LIMIT
    else if limit > MAX_LEADERBOARD_LIMIT then MAX_LEADERBOARD_LIMIT
    else limit
  }

  lemma Clamped(limit: int)
    ensures Clamp(limit) == if limit < 1 then 10 else if limit <= 100 then limit else 100
  {
  }

  function StandingOf(rank: int, p: Player): Standing {
    Standing(rank, p.name, p.stats.wins, p.stats.losses, p.stats.draws)
  }

  function StandingsOf(r: seq<Player>): (standings: seq<Standing>)
    ensures |standings| == |r|
  {
    seq(|r|, i requires 0 <= i < |r| => StandingOf(i + 1, r[i]))
  }

  /** More wins, or as many and fewer losses, or both equal and the name that comes first. */
  ghost predicate ShownBefore(a: Standing, b: Standing) {
    && a.wins >= b.wins
    && (a.wins == b.wins ==> a.losses <= b.losses)
    && (a.wins == b.wins && a.losses == b.losses ==> NameBefore(a.name, b.name))
  }

  /** A line of the board with a player's own figures. */
  predicate IsLineOf(a: Standing, rank: int, p: Player) {
    && a.rank == rank && a.name == p.name
    && a.wins == p.stats.wins && a.losses == p.stats.losses && a.draws == p.stats.draws
  }

  predicate Listed(standings: seq<Standing>, name: string) {
    exists i :: 0 <= i < |standings| && standings[i].name == name
  }

  ghost predicate LineShown(all: set<Player>, standings: seq<Standing>, i: nat)
    requires i < |standings|
  {
    exists p :: p in all && IsLineOf(standings[i], i + 1, p)
  }

  ghost predicate BehindAll(standings: seq<Standing>, q: Player) {
    forall i :: 0 <= i < |standings| ==> ShownBefore(standings[i], StandingOf(0, q))
  }

  /** Ranks count from one, every line shows a player's own figures, the best come first, and whoever is left out is
      behind everybody listed. */
  ghost predicate ShowsBest(all: set<Player>, standings: seq<Standing>) {
    && (forall i :: 0 <= i < |standings| ==> LineShown(all, standings, i))
    && (forall i, j :: 0 <= i < j < |standings| ==> ShownBefore(standings[i], standings[j]))
    && (forall q :: q in all && !Listed(standings, q.name) ==> BehindAll(standings, q))
  }

  lemma MembersAreListed(r: seq<Player>, q: Player)
    requires q in r
    ensures Listed(StandingsOf(r), q.name)
  {
    var k :| 0 <= k < |r| && r[k] == q;
    assert StandingsOf(r)[k].name == q.name;
  }

  lemma BeforeIsShown(p: Player, q: Player, i: int, j: int)
    requires Before(p, q)
    ensures ShownBefore(StandingOf(i, p), StandingOf(j, q))
  {
  }

  lemma LineIsShown(all: set<Player>, r: seq<Player>, i: nat)
    requires BestOf(all, r) && i < |r|
    ensures LineShown(all, StandingsOf(r), i)
  {
    hide Before;
    assert r[i] in r;
    assert IsLineOf(StandingsOf(r)[i], i + 1, r[i]);
  }

  lemma LeftOutIsBehind(all: set<Player>, r: seq<Player>, q: Player)
    requires BestOf(all, r) && q in all && !Listed(StandingsOf(r), q.name)
    ensures BehindAll(StandingsOf(r), q)
  {
    hide Before, ShownBefore, Listed;
    forall i | 0 <= i < |r|
      ensures ShownBefore(StandingsOf(r)[i], StandingOf(0, q))
    {
      if q in r {
        MembersAreListed(r, q);
      }
      assert r[i] in r;
      BeforeIsShown(r[i], q, i + 1, 0);
    }
  }

  lemma StandingsShowBest(all: set<Player>, r: seq<Player>)
    requires BestOf(all, r)
    ensures ShowsBest(all, StandingsOf(r))
  {
    hide Before, ShownBefore, Listed, LineShown, BehindAll;
    var standings := StandingsOf(r);
    forall i | 0 <= i < |standings|
      ensures LineShown(all, standings, i)
    {
      LineIsShown(all, r, i);
    }
    forall i, j | 0 <= i < j < |standings|
      ensures ShownBefore(standings[i], standings[j])
    {
      BeforeIsShown(r[i], r[j], i + 1, j + 1);
    }
    forall q | q in all && !Listed(standings, q.name)
      ensures BehindAll(standings, q)
    {
      LeftOutIsBehind(all, r, q);
    }
  }

  method StandingsFor(players: seq<Player>) returns (standings: seq<Standing>)
    ensures standings == StandingsOf(players)
  {
    standings := [];
    for i := 0 to |players|
      invariant standings == StandingsOf(players)[..i]
    {
      var p := players[i];
      standings := standings + [Standing(i + 1, p.name, p.stats.wins, p.stats.losses, p.stats.draws)];
    }
  }

  /** Any limit is accepted; the ranks are 1, 2, 3, ... down the clamped top of the table, best first. */
  method Leaderboard(store: PlayerStore, limit: int) returns (standings: seq<Standing>)
    requires Indexed(store.Value())
    ensures var cut, n := if limit < 1 then 10 else if limit <= 100 then limit else 100, |store.byID.Values|;
            |standings| == if cut < n then cut else n
    ensures ShowsBest(store.byID.Values, standings)
    ensures exists r: seq<Player> :: IsTop(store.byID.Values, Clamp(limit), r) && standings == StandingsOf(r)
  {
    hide IsTop, ShowsBest, BestOf;
    var cut := limit;
    if cut <= 0 {
      cut := DEFAULT_LEADERBOARD_LIMIT;
    }
    if cut > MAX_LEADERBOARD_LIMIT {
      cut := MAX_LEADERBOARD_LIMIT;
    }
    var players := Top(store, cut);
    standings := StandingsFor(players);
    StandingsShowBest(store.byID.Values, players);
  }
}
