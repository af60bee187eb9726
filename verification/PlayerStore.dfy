/** Players, the name index over them, and registration. */
module PlayerStores {
  import opened Base
  import opened Matches

  const MAX_NAME_LENGTH := 32
  const MIN_PASSWORD_LENGTH := 8
  const MAX_PASSWORD_LENGTH := 72

  datatype Stats = Stats(wins: int, losses: int, draws: int)

  const NO_GAMES := Stats(0, 0, 0)

  datatype Player = Player(id: PlayerID, name: string, passwordHash: string, stats: Stats)

  function Played(s: Stats): int {
    s.wins + s.losses + s.draws
  }

  function AddOutcome(s: Stats, o: Outcome): Stats {
    match o
    case Win => s.(wins := s.wins + 1)
    case Loss => s.(losses := s.losses + 1)
    case Draw => s.(draws := s.draws + 1)
    case Undecided => s
  }

  function Recorded(p: Player, o: Outcome): Player {
    p.(stats := AddOutcome(p.stats, o))
  }

  // ----- names -----

  predicate IsSpace(c: char) {
    c == ' ' || '\t' <= c <= '\r'
  }

  function TrimLeft(s: string): string {
    if s != "" && IsSpace(s[0]) then TrimLeft(s[1..]) else s
  }

  function TrimRight(s: string): string {
    if s != "" && IsSpace(s[|s| - 1]) then TrimRight(s[..|s| - 1]) else s
  }

  function TrimSpace(s: string): string {
    TrimRight(TrimLeft(s))
  }

  function LowerChar(c: char): char {
    if 'A' <= c <= 'Z' then c - 'A' + 'a' else c
  }

  function ToLower(s: string): (t: string)
    ensures |t| == |s|
  {
    seq(|s|, i requires 0 <= i < |s| => LowerChar(s[i]))
  }

  function NameKey(name: string): string {
    ToLower(TrimSpace(name))
  }

  function NormalizeName(name: string): Result<string> {
    var trimmed := TrimSpace(name);
    if trimmed == "" then Err(EmptyName)
    else if |trimmed| > MAX_NAME_LENGTH then Err(NameTooLong)
    else Ok(trimmed)
  }

  predicate Tight(s: string) {
    s == "" || (!IsSpace(s[0]) && !IsSpace(s[|s| - 1]))
  }

  lemma {:induction false} TrimRightKeepsStart(s: string)
    requires s == "" || !IsSpace(s[0])
    ensures Tight(TrimRight(s))
  {
    if s != "" && IsSpace(s[|s| - 1]) {
      TrimRightKeepsStart(s[..|s| - 1]);
    }
  }

  lemma {:induction false} TrimLeftStarts(s: string)
    ensures TrimLeft(s) == "" || !IsSpace(TrimLeft(s)[0])
  {
    if s != "" && IsSpace(s[0]) {
      TrimLeftStarts(s[1..]);
    }
  }

  /** Trimming twice changes nothing, so a name and its normal form share their key. */
  lemma NormalizedNameKeepsKey(name: string)
    ensures Tight(TrimSpace(name)) && TrimSpace(TrimSpace(name)) == TrimSpace(name)
    ensures NormalizeName(name).Ok? ==>
              && NameKey(NormalizeName(name).value) == NameKey(name) != ""
              && NormalizeName(NormalizeName(name).value) == NormalizeName(name)
  {
    TrimLeftStarts(name);
    TrimRightKeepsStart(TrimLeft(name));
  }

  predicate AllSpace(s: string) {
    forall i :: 0 <= i < |s| ==> IsSpace(s[i])
  }

  lemma {:induction false} TrimLeftCuts(s: string)
    ensures exists before :: AllSpace(before) && s == before + TrimLeft(s)
  {
    if s != "" && IsSpace(s[0]) {
      TrimLeftCuts(s[1..]);
      var before :| AllSpace(before) && s[1..] == before + TrimLeft(s[1..]);
      assert AllSpace([s[0]] + before) && s == [s[0]] + before + TrimLeft(s);
    } else {
      assert AllSpace("") && s == "" + TrimLeft(s);
    }
  }

  lemma {:induction false} TrimRightCuts(s: string)
    ensures exists after :: AllSpace(after) && s == TrimRight(s) + after
  {
    if s != "" && IsSpace(s[|s| - 1]) {
      var n := |s| - 1;
      TrimRightCuts(s[..n]);
      var after :| AllSpace(after) && s[..n] == TrimRight(s[..n]) + after;
      assert AllSpace(after + [s[n]]) && s == TrimRight(s) + (after + [s[n]]);
    } else {
      assert AllSpace("") && s == TrimRight(s) + "";
    }
  }

  /** The white space of ASCII: tab, line feed, vertical tab, form feed, carriage return and blank. */
  const WHITE_SPACE := [9 as char, 10 as char, 11 as char, 12 as char, 13 as char, 32 as char]

  /** Trimming takes off the surrounding white space, all of it and nothing else. */
  lemma TrimSpaceCuts(s: string)
    ensures Tight(TrimSpace(s))
    ensures exists before, after :: AllSpace(before) && AllSpace(after) && s == before + TrimSpace(s) + after
    ensures TrimSpace(s) != "" ==> TrimSpace(s)[0] !in WHITE_SPACE && TrimSpace(s)[|TrimSpace(s)| - 1] !in WHITE_SPACE
    ensures forall part :: AllSpace(part) <==> forall i :: 0 <= i < |part| ==> part[i] in WHITE_SPACE
  {
    forall c: char
      ensures IsSpace(c) <==> c in WHITE_SPACE
    {
      SpaceCodes(c);
    }
    NormalizedNameKeepsKey(s);
    TrimLeftCuts(s);
    TrimRightCuts(TrimLeft(s));
    var before :| AllSpace(before) && s == before + TrimLeft(s);
    var after :| AllSpace(after) && TrimLeft(s) == TrimRight(TrimLeft(s)) + after;
    assert s == before + TrimSpace(s) + after;
  }

  lemma SpaceCodes(c: char)
    ensures IsSpace(c) <==> c in WHITE_SPACE
  {
    assert c in WHITE_SPACE <==> c == WHITE_SPACE[0] || c == WHITE_SPACE[1] || c == WHITE_SPACE[2]
                                 || c == WHITE_SPACE[3] || c == WHITE_SPACE[4] || c == WHITE_SPACE[5];
  }

  // ----- capitalisation -----

  /** The upper and the lower case of one letter, 32 codes apart. */
  predicate TwoCases(c: char, d: char) {
    || ('a' <= c <= 'z' && c as int - d as int == 32)
    || ('a' <= d <= 'z' && d as int - c as int == 32)
  }

  /** Equal but for white space around them and for the case of letters. */
  predicate SameName(a: string, b: string) {
    var s, t := TrimSpace(a), TrimSpace(b);
    |s| == |t| && forall i :: 0 <= i < |s| ==> s[i] == t[i] || TwoCases(s[i], t[i])
  }

  lemma LowerFoldsCase(c: char, d: char)
    ensures LowerChar(c) == LowerChar(d) <==> c == d || TwoCases(c, d)
  {
  }

  /** Two names have one key exactly when they are the same but for surrounding white space and case. */
  lemma KeysIgnoreCase(a: string, b: string)
    ensures NameKey(a) == NameKey(b) <==> SameName(a, b)
  {
    hide TrimSpace, LowerChar, TwoCases;
    var s, t := TrimSpace(a), TrimSpace(b);
    if |s| == |t| {
      forall i | 0 <= i < |s|
        ensures ToLower(s)[i] == ToLower(t)[i] <==> s[i] == t[i] || TwoCases(s[i], t[i])
      {
        LowerFoldsCase(s[i], t[i]);
      }
      assert ToLower(s) == ToLower(t) <==> forall i :: 0 <= i < |s| ==> ToLower(s)[i] == ToLower(t)[i];
    }
  }

  // ----- the store -----

  datatype Players = Players(byID: map<PlayerID, Player>, byName: map<string, PlayerID>)

  function CreatePlayer(s: Players, p: Player): Result<Players> {
    var key := NameKey(p.name);
    if key in s.byName then Err(NameTaken)
    else Ok(Players(s.byID[p.id := p], s.byName[key := p.id]))
  }

  function PlayerByID(s: Players, id: PlayerID): Result<Player> {
    if id in s.byID then Ok(s.byID[id]) else Err(PlayerNotFound)
  }

  function PlayerByName(s: Players, name: string): Result<Player> {
    var key := NameKey(name);
    if key !in s.byName then Err(PlayerNotFound) else PlayerByID(s, s.byName[key])
  }

  function SavePlayer(s: Players, p: Player): Result<Players> {
    if p.id !in s.byID then Err(PlayerNotFound)
    else Ok(s.(byID := s.byID[p.id := p]))
  }

  /** The index and the table describe the same players. */
  ghost predicate Indexed(s: Players) {
    && (forall id :: id in s.byID ==>
          s.byID[id].id == id && NameKey(s.byID[id].name) in s.byName && s.byName[NameKey(s.byID[id].name)] == id)
    && (forall key :: key in s.byName ==> s.byName[key] in s.byID && NameKey(s.byID[s.byName[key]].name) == key)
  }

  /** The lookup answers as a scan over all players for the name's key would, and no two players share a key. */
  lemma LookupIsLinearScan(s: Players, name: string)
    requires Indexed(s)
    ensures forall p :: PlayerByName(s, name) == Ok(p) <==> p in s.byID.Values && NameKey(p.name) == NameKey(name)
    ensures PlayerByName(s, name) == Err(PlayerNotFound) <==> forall p :: p in s.byID.Values ==> NameKey(p.name) != NameKey(name)
    ensures forall p, q :: p in s.byID.Values && q in s.byID.Values && NameKey(p.name) == NameKey(q.name) ==> p == q
  {
    forall p | p in s.byID.Values
      ensures p.id in s.byID && s.byID[p.id] == p && s.byName[NameKey(p.name)] == p.id
    {
      var id :| id in s.byID && s.byID[id] == p;
    }
    if PlayerByName(s, name).Ok? {
      assert PlayerByName(s, name).value in s.byID.Values;
    }
  }

  /** Over an agreeing index a creation is refused exactly when somebody has the name in some capitalisation; otherwise
      the player is stored and found under that name. */
  lemma CreateCases(s: Players, p: Player)
    requires Indexed(s)
    ensures var r := CreatePlayer(s, p);
            && (r.Err? <==> exists q :: q in s.byID.Values && SameName(q.name, p.name))
            && (r.Err? ==> r.error == NameTaken)
            && (r.Ok? ==> r.value.byID == s.byID[p.id := p] && PlayerByName(r.value, p.name) == Ok(p))
  {
    hide NameKey, SameName;
    LookupIsLinearScan(s, p.name);
    forall q | q in s.byID.Values
      ensures SameName(q.name, p.name) <==> NameKey(q.name) == NameKey(p.name)
    {
      KeysIgnoreCase(q.name, p.name);
    }
  }

  /** Creating a player under a free key keeps the index sound exactly when the ID is new: an old ID
      would leave its former name pointing at the newcomer. */
  lemma CreateKeepsIndex(s: Players, p: Player)
    requires Indexed(s) && CreatePlayer(s, p).Ok?
    ensures Indexed(CreatePlayer(s, p).value) <==> p.id !in s.byID
  {
    var s' := CreatePlayer(s, p).value;
    if p.id in s.byID {
      var oldKey := NameKey(s.byID[p.id].name);
      assert oldKey in s'.byName && s'.byName[oldKey] == p.id;
      assert NameKey(s'.byID[p.id].name) != oldKey;
    }
  }

  /** Only a stored player can be saved, and only that player's entry changes. */
  lemma SaveCases(s: Players, p: Player)
    ensures var r := SavePlayer(s, p);
            && (p.id !in s.byID ==> r == Err(PlayerNotFound))
            && (p.id in s.byID ==> r == Ok(Players(s.byID[p.id := p], s.byName)))
  {
  }

  /** Saving a known player keeps the index sound exactly when it does not change the key of the
      name: Save never touches the index. */
  lemma SaveKeepsIndex(s: Players, p: Player)
    requires Indexed(s) && SavePlayer(s, p).Ok?
    ensures Indexed(SavePlayer(s, p).value) <==> NameKey(p.name) == NameKey(s.byID[p.id].name)
  {
    var s' := SavePlayer(s, p).value;
    var oldKey := NameKey(s.byID[p.id].name);
    assert oldKey in s'.byName && s'.byName[oldKey] == p.id;
  }

  /** A concrete loss: after saving "a" renamed to "b", nobody is found under "b". */
  lemma RenamingSaveLosesPlayer()
    ensures var s := Players(map["1" := Player("1", "a", "", NO_GAMES)], map["a" := "1"]);
            var renamed := Player("1", "b", "", NO_GAMES);
            Indexed(s) && PlayerByName(SavePlayer(s, renamed).value, "b") == Err(PlayerNotFound)
  {
    assert TrimSpace("a") == "a" && ToLower("a") == "a";
    assert TrimSpace("b") == "b" && ToLower("b") == "b";
  }

  class PlayerStore {
    var byID: map<PlayerID, Player>
    var byName: map<string, PlayerID>

    ghost function Value(): Players
      reads this
    {
      Players(byID, byName)
    }

    constructor ()
      ensures Value() == Players(map[], map[]) && Indexed(Value())
    {
      byID, byName := map[], map[];
    }

    method Create(p: Player) returns (err: Option<Error>)
      modifies this
      ensures match CreatePlayer(old(Value()), p)
              case Ok(s) => err == None && Value() == s
              case Err(e) => err == Some(e) && Value() == old(Value())
    {
      var key := NameKey(p.name);
      if key in byName {
        return Some(NameTaken);
      }
      byID := byID[p.id := p];
      byName := byName[key := p.id];
      return None;
    }

    method ByName(name: string) returns (r: Result<Player>)
      ensures r == PlayerByName(Value(), name)
    {
      var key := NameKey(name);
      if key !in byName {
        return Err(PlayerNotFound);
      }
      r := CopyOf(byName[key]);
    }

    method CopyOf(id: PlayerID) returns (r: Result<Player>)
      ensures r == PlayerByID(Value(), id)
    {
      if id !in byID {
        return Err(PlayerNotFound);
      }
      return Ok(byID[id]);
    }

    method Save(p: Player) returns (err: Option<Error>)
      modifies this
      ensures match SavePlayer(old(Value()), p)
              case Ok(s) => err == None && Value() == s
              case Err(e) => err == Some(e) && Value() == old(Value())
    {
      if p.id !in byID {
        return Some(PlayerNotFound);
      }
      byID := byID[p.id := p];
      return None;
    }
  }

  // ----- registration -----

  /** The checks before the password is hashed; on success, the name to register. */
  function CheckRegistration(s: Players, name: string, password: string): Result<string> {
    match NormalizeName(name)
    case Err(e) => Err(e)
    case Ok(trimmed) =>
      if |password| < MIN_PASSWORD_LENGTH then Err(PasswordTooShort)
      else if |password| > MAX_PASSWORD_LENGTH then Err(PasswordTooLong)
      else if PlayerByName(s, trimmed).Ok? then Err(NameTaken)
      else Ok(trimmed)
  }

  /** A registration is judged in this order: an empty name, one of more than 32 bytes, a password of fewer than 8 or
      of more than 72, a name somebody has in some capitalisation; with none of these it passes, under the trimmed name. */
  lemma RegistrationVerdict(s: Players, name: string, password: string)
    requires Indexed(s)
    ensures var r, n := CheckRegistration(s, name, password), |TrimSpace(name)|;
            var taken := exists p :: p in s.byID.Values && SameName(p.name, name);
            && (n == 0 ==> r == Err(EmptyName))
            && (n > 32 ==> r == Err(NameTooLong))
            && (0 < n <= 32 && |password| < 8 ==> r == Err(PasswordTooShort))
            && (0 < n <= 32 && |password| > 72 ==> r == Err(PasswordTooLong))
            && (0 < n <= 32 && 8 <= |password| <= 72 ==> r == if taken then Err(NameTaken) else Ok(TrimSpace(name)))
    ensures CheckRegistration(s, name, password).Ok? ==> NameKey(name) !in s.byName
  {
    hide SameName, TrimSpace;
    NormalizedNameKeepsKey(name);
    LookupIsLinearScan(s, TrimSpace(name));
    forall p | p in s.byID.Values
      ensures SameName(p.name, name) <==> NameKey(p.name) == NameKey(TrimSpace(name))
    {
      KeysIgnoreCase(p.name, name);
    }
  }

  /** Run undisturbed, Register stores the trimmed name with no games under the new ID, or changes nothing.
      The new ID and the answers of the hasher and of the token issuer come from outside; a token that
      cannot be issued is reported after the account has been stored. */
  method Register(store: PlayerStore, name: string, password: string, hash: Result<string>, id: PlayerID,
                  token: Result<string>)
    returns (r: Result<string>)
    requires Indexed(store.Value()) && id !in store.byID
    modifies store
    ensures Indexed(store.Value())
    ensures match CheckRegistration(old(store.Value()), name, password)
            case Err(e) => r == Err(e) && store.Value() == old(store.Value())
            case Ok(trimmed) =>
              match hash
              case Err(e) => r == Err(e) && store.Value() == old(store.Value())
              case Ok(h) =>
                && r == token
                && PlayerByName(store.Value(), name) == Ok(Player(id, trimmed, h, NO_GAMES))
                && store.Value().byID == old(store.Value()).byID[id := Player(id, trimmed, h, NO_GAMES)]
  {
    NormalizedNameKeepsKey(name);
    var trimmed := NormalizeName(name);
    if trimmed.Err? {
      return Err(trimmed.error);
    }
    if |password| < MIN_PASSWORD_LENGTH {
      return Err(PasswordTooShort);
    }
    if |password| > MAX_PASSWORD_LENGTH {
      return Err(PasswordTooLong);
    }
    var found := store.ByName(trimmed.value);
    if found.Ok? {
      return Err(NameTaken);
    }
    if hash.Err? {
      return Err(hash.error);
    }
    var p := Player(id, trimmed.value, hash.value, NO_GAMES);
    ghost var before := store.Value();
    var err := store.Create(p);
    CreateKeepsIndex(before, p);
    r := match err
      case Some(e) => Err(e)
      case None => token;
  }
}
