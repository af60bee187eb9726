/** The stored text of a move list: printing, parsing, and what the parser accepts.
    Strings are sequences of bytes, one char a byte. */
module Encoding {
  import opened Base
  import opened Matches

  const SEPARATOR := ','
  const INT64_LIMIT := 0x8000_0000_0000_0000

  // ----- signed decimals, as strconv prints and parses them -----

  predicate IsDigit(c: char) {
    '0' <= c <= '9'
  }

  predicate AllDigits(s: string) {
    forall i :: 0 <= i < |s| ==> IsDigit(s[i])
  }

  function DigitOf(n: nat): char
    requires n < 10
  {
    '0' + n as char
  }

  function Digits(n: nat): string {
    if n < 10 then [DigitOf(n)] else Digits(n / 10) + [DigitOf(n % 10)]
  }

  function Abs(n: int): nat {
    if n < 0 then -n else n
  }

  function Itoa(n: int): string {
    if n < 0 then "-" + Digits(-n) else Digits(n)
  }

  /** The number a digit string denotes. */
  function Magnitude(s: string): nat
    requires AllDigits(s)
  {
    if s == "" then 0 else Magnitude(s[..|s| - 1]) * 10 + (s[|s| - 1] - '0') as nat
  }

  function Atoi(s: string): Result<Int64> {
    var signed := s != "" && (s[0] == '+' || s[0] == '-');
    var digits := if signed then s[1..] else s;
    if digits == "" || !AllDigits(digits) then Err(BadNumber)
    else
      var n: int := Magnitude(digits);
      var v := if signed && s[0] == '-' then -n else n;
      if -INT64_LIMIT <= v < INT64_LIMIT then Ok(v) else Err(BadNumber)
  }

  lemma {:induction false} DigitsDenote(n: nat)
    ensures Digits(n) != "" && AllDigits(Digits(n)) && Magnitude(Digits(n)) == n
  {
    if n >= 10 {
      DigitsDenote(n / 10);
      assert Digits(n)[..|Digits(n)| - 1] == Digits(n / 10);
    }
  }

  function PowerOfTen(n: nat): nat {
    if n == 0 then 1 else 10 * PowerOfTen(n - 1)
  }

  /** Digits count by their place: a digit alone is its own value, and what stands to the left of n digits is worth
      ten to the n times more. */
  lemma {:induction false} MagnitudeIsDecimal(a: string, b: string)
    requires AllDigits(a) && AllDigits(b)
    ensures AllDigits(a + b) && Magnitude(a + b) == Magnitude(a) * PowerOfTen(|b|) + Magnitude(b)
    ensures |a| == 1 ==> Magnitude(a) == (a[0] - '0') as nat
  {
    assert |a| == 1 ==> a[..0] == "";
    if b == "" {
      assert a + b == a;
    } else {
      var n := |b| - 1;
      MagnitudeIsDecimal(a, b[..n]);
      assert (a + b)[..|a + b| - 1] == a + b[..n];
      MovePlaces(Magnitude(a), PowerOfTen(n));
    }
  }

  lemma MovePlaces(m: nat, p: nat)
    ensures m * p * 10 == m * (10 * p)
  {
  }

  lemma AtoiInvertsItoa(n: Int64)
    ensures Atoi(Itoa(n)) == Ok(n)
  {
    var digits := Digits(Abs(n));
    DigitsDenote(Abs(n));
    assert IsDigit(digits[0]);
    assert ("-" + digits)[1..] == digits;
  }

  // ----- comma-separated lists -----

  function Join(parts: seq<string>): string {
    if parts == [] then ""
    else if |parts| == 1 then parts[0]
    else parts[0] + [SEPARATOR] + Join(parts[1..])
  }

  function Split(s: string): (parts: seq<string>)
    ensures parts != []
  {
    if s == "" then [""]
    else
      var rest := Split(s[1..]);
      if s[0] == SEPARATOR then [""] + rest
      else [[s[0]] + rest[0]] + rest[1..]
  }

  lemma SplitUnfolds(s: string)
    ensures Split(s) == if s == "" then [""]
                        else if s[0] == SEPARATOR then [""] + Split(s[1..])
                        else [[s[0]] + Split(s[1..])[0]] + Split(s[1..])[1..]
  {
  }

  lemma {:induction false} SplitThenJoin(s: string)
    ensures Join(Split(s)) == s
    ensures forall i :: 0 <= i < |Split(s)| ==> SEPARATOR !in Split(s)[i]
  {
    hide Split;
    SplitUnfolds(s);
    if s != "" {
      var rest := Split(s[1..]);
      SplitThenJoin(s[1..]);
      assert s == [s[0]] + s[1..];
      assert ([""] + rest)[1..] == rest;
      assert ([[s[0]] + rest[0]] + rest[1..])[1..] == rest[1..];
    }
  }

  lemma {:induction false} SplitFirst(part: string, tail: string)
    requires SEPARATOR !in part
    ensures Split(part) == [part]
    ensures Split(part + [SEPARATOR] + tail) == [part] + Split(tail)
  {
    var s := part + [SEPARATOR] + tail;
    if part == "" {
      assert s[1..] == tail;
    } else {
      SplitFirst(part[1..], tail);
      assert s[1..] == part[1..] + [SEPARATOR] + tail;
      assert part == [part[0]] + part[1..];
    }
  }

  lemma {:induction false} JoinThenSplit(parts: seq<string>)
    requires parts != [] && forall i :: 0 <= i < |parts| ==> SEPARATOR !in parts[i]
    ensures Split(Join(parts)) == parts
  {
    if |parts| == 1 {
      SplitFirst(parts[0], "");
    } else {
      JoinThenSplit(parts[1..]);
      SplitFirst(parts[0], Join(parts[1..]));
    }
  }

  // ----- moves -----

  function MarkText(m: Mark): string {
    match m
    case X => "X"
    case O => "O"
    case Empty => " "
  }

  function ParseMark(s: string): Result<Mark> {
    if s == "X" then Ok(X) else if s == "O" then Ok(O) else Err(UnknownMark)
  }

  function MoveText(mv: Move): string {
    MarkText(mv.mark) + Itoa(mv.cell)
  }

  function ParseMove(part: string): Result<Move> {
    if |part| < 2 then Err(MoveTooShort)
    else
      match ParseMark(part[..1])
      case Err(e) => Err(e)
      case Ok(mark) =>
        match Atoi(part[1..])
        case Err(e) => Err(e)
        case Ok(cell) => Ok(Move(mark, cell))
  }

  function Texts(ms: seq<Move>): (parts: seq<string>)
    ensures |parts| == |ms|
  {
    seq(|ms|, i requires 0 <= i < |ms| => MoveText(ms[i]))
  }

  function Encode(ms: seq<Move>): string {
    Join(Texts(ms))
  }

  /** Parses the parts from left to right, stopping at the first bad one. */
  function ParseEach<T>(parse: string -> Result<T>, parts: seq<string>): Result<seq<T>> {
    if parts == [] then Ok([])
    else
      match ParseEach(parse, parts[..|parts| - 1])
      case Err(e) => Err(e)
      case Ok(ms) =>
        match parse(parts[|parts| - 1])
        case Err(e) => Err(e)
        case Ok(mv) => Ok(ms + [mv])
  }

  function ParseAll(parts: seq<string>): Result<seq<Move>> {
    ParseEach(ParseMove, parts)
  }

  function Decode(s: string): Result<seq<Move>> {
    if s == "" then Ok([]) else ParseAll(Split(s))
  }

  lemma {:induction false} ParseEachStops<T>(parse: string -> Result<T>, parts: seq<string>, k: nat)
    requires k <= |parts| && ParseEach(parse, parts[..k]).Err?
    ensures ParseEach(parse, parts) == ParseEach(parse, parts[..k])
  {
    if k == |parts| {
      assert parts[..k] == parts;
    } else {
      assert parts[..|parts| - 1][..k] == parts[..k];
      ParseEachStops(parse, parts[..|parts| - 1], k);
    }
  }

  /** Parsing succeeds when every part does, each giving the value at its place. */
  lemma {:induction false} ParseEachMeaning<T>(parse: string -> Result<T>, parts: seq<string>)
    ensures ParseEach(parse, parts).Ok? <==> forall i :: 0 <= i < |parts| ==> parse(parts[i]).Ok?
    ensures ParseEach(parse, parts).Ok? ==>
              && |ParseEach(parse, parts).value| == |parts|
              && forall i :: 0 <= i < |parts| ==> parse(parts[i]) == Ok(ParseEach(parse, parts).value[i])
  {
    if parts != [] {
      var n := |parts| - 1;
      ParseEachMeaning(parse, parts[..n]);
      assert forall i :: 0 <= i < n ==> parts[..n][i] == parts[i];
    }
  }

  lemma {:induction false} FirstBadPart<T>(parse: string -> Result<T>, parts: seq<string>) returns (k: nat)
    requires ParseEach(parse, parts).Err?
    ensures k < |parts| && parse(parts[k]) == Err(ParseEach(parse, parts).error)
    ensures forall i :: 0 <= i < k ==> parse(parts[i]).Ok?
  {
    var n := |parts| - 1;
    assert forall i :: 0 <= i < n ==> parts[..n][i] == parts[i];
    if ParseEach(parse, parts[..n]).Err? {
      k := FirstBadPart(parse, parts[..n]);
    } else {
      k := n;
      ParseEachMeaning(parse, parts[..n]);
    }
  }

  lemma ParseAllMeaning(parts: seq<string>)
    ensures ParseAll(parts).Ok? <==> forall i :: 0 <= i < |parts| ==> ParseMove(parts[i]).Ok?
    ensures ParseAll(parts).Ok? ==>
              && |ParseAll(parts).value| == |parts|
              && forall i :: 0 <= i < |parts| ==> ParseMove(parts[i]) == Ok(ParseAll(parts).value[i])
  {
    ParseEachMeaning(ParseMove, parts);
  }

  /** A failed decoding reports the error of the first bad part. */
  lemma DecodeReportsFirstBadPart(s: string) returns (k: nat)
    requires Decode(s).Err?
    ensures k < |Split(s)| && ParseMove(Split(s)[k]) == Err(Decode(s).error)
    ensures forall i :: 0 <= i < k ==> ParseMove(Split(s)[i]).Ok?
  {
    k := FirstBadPart(ParseMove, Split(s));
  }

  lemma ItoaHasNoSeparator(n: int)
    ensures SEPARATOR !in Itoa(n) && Itoa(n) != ""
  {
    DigitsDenote(Abs(n));
    assert SEPARATOR !in Digits(Abs(n));
  }

  lemma MoveTextHasNoSeparator(mv: Move)
    ensures SEPARATOR !in MoveText(mv) && |MoveText(mv)| >= 2
  {
    ItoaHasNoSeparator(mv.cell);
  }

  lemma MoveTextParses(mv: Move)
    ensures ParseMove(MoveText(mv)) == if mv.mark == Empty then Err(UnknownMark) else Ok(mv)
  {
    MoveTextHasNoSeparator(mv);
    AtoiInvertsItoa(mv.cell);
    assert MoveText(mv)[1..] == Itoa(mv.cell);
    assert MoveText(mv)[..1] == MarkText(mv.mark);
  }

  lemma EncodedIsNotEmpty(ms: seq<Move>)
    ensures Encode(ms) == "" <==> ms == []
    ensures ms != [] ==> Split(Encode(ms)) == Texts(ms)
  {
    if ms != [] {
      forall i | 0 <= i < |ms|
        ensures SEPARATOR !in Texts(ms)[i] && |Texts(ms)[i]| >= 2
      {
        MoveTextHasNoSeparator(ms[i]);
      }
      JoinThenSplit(Texts(ms));
    }
  }

  /** Decoding an encoded list gives the list back, whatever its length and cells,
      exactly when every move carries X or O. */
  lemma DecodeInvertsEncode(ms: seq<Move>)
    ensures Decode(Encode(ms)) == Ok(ms) <==> forall i :: 0 <= i < |ms| ==> ms[i].mark != Empty
    ensures (exists i :: 0 <= i < |ms| && ms[i].mark == Empty) ==> Decode(Encode(ms)) == Err(UnknownMark)
  {
    hide ParseEach, Split, Join, ParseMove;
    EncodedIsNotEmpty(ms);
    if ms != [] {
      ParseAllMeaning(Texts(ms));
      forall i | 0 <= i < |ms|
        ensures ParseMove(Texts(ms)[i]) == if ms[i].mark == Empty then Err(UnknownMark) else Ok(ms[i])
      {
        MoveTextParses(ms[i]);
      }
      if Decode(Encode(ms)).Ok? {
        assert Decode(Encode(ms)).value == ms;
      } else {
        var k := DecodeReportsFirstBadPart(Encode(ms));
      }
    }
  }

  // ----- what the parser accepts -----

  /** An optional sign, at least one digit, and a value that fits in 64 bits. */
  ghost predicate IsNumber(s: string) {
    exists sign, digits :: SpellsNumber(s, sign, digits)
  }

  ghost predicate SpellsNumber(s: string, sign: string, digits: string) {
    && (sign == "" || sign == "+" || sign == "-") && s == sign + digits
    && digits != "" && AllDigits(digits)
    && (if sign == "-" then Magnitude(digits) <= INT64_LIMIT else Magnitude(digits) < INT64_LIMIT)
  }

  function Signed(sign: string, digits: string): int
    requires AllDigits(digits)
  {
    var n: int := Magnitude(digits);
    if sign == "-" then -n else n
  }

  ghost predicate IsMoveText(s: string) {
    s != "" && (s[0] == 'X' || s[0] == 'O') && IsNumber(s[1..])
  }

  lemma AtoiAccepts(s: string)
    ensures Atoi(s).Ok? <==> IsNumber(s)
    ensures forall sign, digits :: SpellsNumber(s, sign, digits) ==> Atoi(s) == Ok(Signed(sign, digits))
  {
    if Atoi(s).Ok? {
      NumberIsSpelled(s);
    }
    forall sign, digits | SpellsNumber(s, sign, digits)
      ensures Atoi(s) == Ok(Signed(sign, digits))
    {
      SpelledIsNumber(s, sign, digits);
    }
  }

  lemma NumberIsSpelled(s: string)
    requires Atoi(s).Ok?
    ensures IsNumber(s)
  {
    if s[0] == '+' || s[0] == '-' {
      assert s == s[..1] + s[1..];
      assert SpellsNumber(s, s[..1], s[1..]);
    } else {
      assert s == "" + s;
      assert SpellsNumber(s, "", s);
    }
  }

  lemma SpelledIsNumber(s: string, sign: string, digits: string)
    requires SpellsNumber(s, sign, digits)
    ensures Atoi(s) == Ok(Signed(sign, digits))
  {
    assert IsDigit(digits[0]);
    if sign == "" {
      assert s == digits;
    } else {
      assert s[1..] == digits;
    }
  }

  /** A part parses exactly when it is a move text, to the mark and the number it spells. */
  lemma ParseMoveAccepts(s: string)
    ensures ParseMove(s).Ok? <==> IsMoveText(s)
    ensures ParseMove(s).Ok? ==> ParseMove(s).value.mark == if s[0] == 'X' then X else O
    ensures forall sign, digits :: IsMoveText(s) && SpellsNumber(s[1..], sign, digits) ==>
              ParseMove(s).value.cell == Signed(sign, digits)
  {
    if s != "" {
      AtoiAccepts(s[1..]);
      assert s[..1] == [s[0]];
    }
  }

  lemma MoveTextIsOnePart(s: string)
    requires IsMoveText(s)
    ensures SEPARATOR !in s
  {
    var sign, digits :| SpellsNumber(s[1..], sign, digits);
    assert s == [s[0]] + sign + digits;
    assert SEPARATOR !in digits;
  }

  /** Decoding succeeds exactly on the empty text and on comma-separated move texts. */
  lemma DecodeAccepts(s: string)
    ensures Decode(s).Ok? <==>
            s == "" || exists parts :: parts != [] && s == Join(parts) && forall i :: 0 <= i < |parts| ==> IsMoveText(parts[i])
  {
    ParseAllMeaning(Split(s));
    SplitThenJoin(s);
    forall part
      ensures ParseMove(part).Ok? <==> IsMoveText(part)
      ensures IsMoveText(part) ==> SEPARATOR !in part
    {
      ParseMoveAccepts(part);
      if IsMoveText(part) {
        MoveTextIsOnePart(part);
      }
    }
    if exists parts :: parts != [] && s == Join(parts) && forall i :: 0 <= i < |parts| ==> IsMoveText(parts[i]) {
      var parts :| parts != [] && s == Join(parts) && forall i :: 0 <= i < |parts| ==> IsMoveText(parts[i]);
      JoinThenSplit(parts);
    }
    if s != "" && Decode(s).Ok? {
      assert s == Join(Split(s)) && forall i :: 0 <= i < |Split(s)| ==> IsMoveText(Split(s)[i]);
    }
  }

  /** Re-encoding an accepted text is a normal form: it decodes to the same moves, and every move has a real mark. */
  lemma ReencodingIsNormalForm(s: string)
    requires Decode(s).Ok?
    ensures Decode(Encode(Decode(s).value)) == Decode(s)
    ensures forall i :: 0 <= i < |Decode(s).value| ==> Decode(s).value[i].mark != Empty
  {
    ParseAllMeaning(Split(s));
    PartsHaveMarks(Split(s));
    hide ParseEach, ParseMove, Split, Join;
    DecodeInvertsEncode(Decode(s).value);
  }

  lemma PartsHaveMarks(parts: seq<string>)
    ensures forall i :: 0 <= i < |parts| && ParseMove(parts[i]).Ok? ==> ParseMove(parts[i]).value.mark != Empty
  {
  }

  // ----- which texts are written -----

  /** No leading zero. */
  ghost predicate Plain(digits: string) {
    digits != "" && AllDigits(digits) && (digits[0] == '0' ==> digits == "0")
  }

  /** No leading zero, no plus sign and no minus zero. */
  ghost predicate Canonical(s: string) {
    exists sign, digits :: SpellsNumber(s, sign, digits) && sign != "+" && Plain(digits) && (sign == "-" ==> digits != "0")
  }

  lemma {:induction false} DigitsArePlain(n: nat)
    ensures Plain(Digits(n)) && (Digits(n) == "0" <==> n == 0)
  {
    DigitsDenote(n);
    if n >= 10 {
      DigitsArePlain(n / 10);
    }
  }

  lemma {:induction false} PlainDigitsAreWritten(digits: string)
    requires Plain(digits)
    ensures Digits(Magnitude(digits)) == digits
    ensures Magnitude(digits) == 0 <==> digits == "0"
  {
    var n := |digits| - 1;
    assert digits == digits[..n] + [digits[n]];
    if n > 0 {
      PlainDigitsAreWritten(digits[..n]);
    } else {
      assert digits[..0] == "";
    }
  }

  /** Why a part is refused: too short to hold a mark and a digit, then an unknown mark, then a bad number. */
  lemma PartRefusals(part: string)
    ensures ParseMove(part) == Err(MoveTooShort) <==> |part| <= 1
    ensures ParseMove(part) == Err(UnknownMark) <==> |part| >= 2 && part[0] != 'X' && part[0] != 'O'
    ensures ParseMove(part) == Err(BadNumber) <==> |part| >= 2 && (part[0] == 'X' || part[0] == 'O') && !IsNumber(part[1..])
  {
    if |part| >= 2 {
      AtoiAccepts(part[1..]);
      assert part[..1] == [part[0]];
    }
  }

  lemma ItoaIsCanonical(n: Int64)
    ensures Canonical(Itoa(n))
  {
    hide Digits;
    var sign, digits := if n < 0 then "-" else "", Digits(Abs(n));
    DigitsArePlain(Abs(n));
    DigitsDenote(Abs(n));
    assert SpellsNumber(Itoa(n), sign, digits);
  }

  lemma CanonicalIsWritten(s: string, sign: string, digits: string)
    requires SpellsNumber(s, sign, digits) && sign != "+" && Plain(digits) && (sign == "-" ==> digits != "0")
    ensures Atoi(s).Ok? && Itoa(Atoi(s).value) == s
  {
    hide Digits, Magnitude;
    SpelledIsNumber(s, sign, digits);
    PlainDigitsAreWritten(digits);
  }

  /** Of the texts that parse to a number, only the canonical one is ever written. */
  lemma ItoaInvertsAtoi(s: string)
    requires Atoi(s).Ok?
    ensures Itoa(Atoi(s).value) == s <==> Canonical(s)
  {
    hide Itoa, SpellsNumber, Plain;
    ItoaIsCanonical(Atoi(s).value);
    if Canonical(s) {
      var sign, digits :| SpellsNumber(s, sign, digits) && sign != "+" && Plain(digits) && (sign == "-" ==> digits != "0");
      CanonicalIsWritten(s, sign, digits);
    }
  }

  lemma MoveTextWritten(part: string)
    requires ParseMove(part).Ok?
    ensures MoveText(ParseMove(part).value) == part <==> Canonical(part[1..])
  {
    ItoaInvertsAtoi(part[1..]);
    var text := MoveText(ParseMove(part).value);
    assert part == part[..1] + part[1..] && text == part[..1] + Itoa(Atoi(part[1..]).value);
    assert text[1..] == Itoa(Atoi(part[1..]).value);
  }

  /** Re-encoding an accepted text gives back that very text exactly when all its numbers are canonical. */
  lemma ReencodingIsIdentity(s: string)
    requires Decode(s).Ok?
    ensures Encode(Decode(s).value) == s <==>
            s == "" || forall i :: 0 <= i < |Split(s)| ==> Split(s)[i] != "" && Canonical(Split(s)[i][1..])
  {
    var ms, parts := Decode(s).value, Split(s);
    if s != "" {
      hide Split, ParseMove, MoveText, Canonical, Join, ParseEach;
      ParseAllMeaning(parts);
      SplitThenJoin(s);
      EncodedIsNotEmpty(ms);
      assert Encode(ms) == s <==> Texts(ms) == parts;
      forall i | 0 <= i < |parts|
        ensures parts[i] != "" && (Texts(ms)[i] == parts[i] <==> Canonical(parts[i][1..]))
      {
        PartRefusals(parts[i]);
        MoveTextWritten(parts[i]);
      }
      assert Texts(ms) == parts <==> forall i :: 0 <= i < |parts| ==> Texts(ms)[i] == parts[i];
    }
  }

  /** The text of a move list, as stored. */
  lemma WrittenMoves()
    ensures Encode([Move(X, 5), Move(O, 3)]) == "X5,O3"
    ensures Encode([Move(O, -120), Move(X, 0), Move(O, 8)]) == "O-120,X0,O8"
  {
    assert MoveText(Move(X, 5)) == "X5" && MoveText(Move(O, 3)) == "O3";
    assert MoveText(Move(X, 0)) == "X0" && MoveText(Move(O, 8)) == "O8";
    assert Texts([Move(X, 5), Move(O, 3)]) == ["X5", "O3"];
    assert Digits(120) == Digits(12) + "0" && Digits(12) == Digits(1) + "2";
    assert MoveText(Move(O, -120)) == "O-120";
    assert Texts([Move(O, -120), Move(X, 0), Move(O, 8)]) == ["O-120", "X0", "O8"];
    assert ["O-120", "X0", "O8"][1..] == ["X0", "O8"];
  }

  // ----- status text -----

  function StatusText(s: Status): string {
    match s
    case XWon => "x_won"
    case OWon => "o_won"
    case Drawn => "draw"
    case InProgress => "in_progress"
  }

  function ParseStatus(s: string): Result<Status> {
    if s == "in_progress" then Ok(InProgress)
    else if s == "x_won" then Ok(XWon)
    else if s == "o_won" then Ok(OWon)
    else if s == "draw" then Ok(Drawn)
    else Err(UnknownStatus)
  }

  lemma WrittenStatuses()
    ensures [StatusText(InProgress), StatusText(XWon), StatusText(OWon), StatusText(Drawn)] ==
            ["in_progress", "x_won", "o_won", "draw"]
  {
  }

  lemma StatusTextParses(st: Status)
    ensures ParseStatus(StatusText(st)) == Ok(st)
    ensures forall s :: ParseStatus(s) == Ok(st) ==> s == StatusText(st)
  {
    assert StatusText(XWon)[0] == 'x' && StatusText(OWon)[0] == 'o';
    assert StatusText(Drawn)[0] == 'd' && StatusText(InProgress)[0] == 'i';
  }

  // ----- the loops -----

  method EncodeMoves(moves: seq<Move>) returns (s: string)
    ensures s == Encode(moves)
  {
    var parts := new string[|moves|];
    for i := 0 to |moves|
      invariant forall k :: 0 <= k < i ==> parts[k] == Texts(moves)[k]
    {
      parts[i] := MarkText(moves[i].mark) + Itoa(moves[i].cell);
    }
    assert parts[..] == Texts(moves);
    s := Join(parts[..]);
  }

  method DecodeMoves(s: string) returns (r: Result<seq<Move>>)
    ensures r == Decode(s)
  {
    if s == "" {
      return Ok([]);
    }
    var parts := Split(s);
    var moves: seq<Move> := [];
    for i := 0 to |parts|
      invariant ParseAll(parts[..i]) == Ok(moves)
    {
      var part := parts[i];
      assert parts[..i + 1][..i] == parts[..i];
      if ParseMove(part).Err? {
        ParseEachStops(ParseMove, parts, i + 1);
      }
      if |part| < 2 {
        return Err(MoveTooShort);
      }
      var mark := ParseMark(part[..1]);
      if mark.Err? {
        return Err(mark.error);
      }
      var cell := Atoi(part[1..]);
      if cell.Err? {
        return Err(cell.error);
      }
      moves := moves + [Move(mark.value, cell.value)];
    }
    assert parts[..|parts|] == parts;
    return Ok(moves);
  }
}
