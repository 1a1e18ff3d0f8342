/** Chunk identifiers and grid arithmetic (internal/model/chunk.go). */
module ChunkIds {
  import opened Wrappers

  const CHUNK_SIZE: int := 128
  const CHUNK_CELL_COUNT: int := 16384
  const CHUNK_MIN_LEVEL: int := 0
  const CHUNK_MAX_LEVEL: int := 6

  /** The largest value of Go's 64-bit int, the bound that strconv.Atoi enforces. */
  const MAX_INT: int := 0x7fff_ffff_ffff_ffff

  datatype ChunkID = ChunkID(region: string, z: int, x: int, y: int)

  datatype ParseError = BadFormat | EmptyRegion | BadCoordinate(name: string) | NegativeCoordinate(name: string)

  // ---------------------------------------------------------------- decimal text

  predicate IsDigit(c: char) { '0' <= c <= '9' }

  predicate AllDigits(s: string) { forall i :: 0 <= i < |s| ==> IsDigit(s[i]) }

  function DigitChar(d: nat): char
    requires d < 10
  {
    '0' + d as char
  }

  function DigitValue(c: char): nat
    requires IsDigit(c)
  {
    c as int - '0' as int
  }

  function FormatNat(n: nat): (s: string)
    ensures s != [] && AllDigits(s)
  {
    if n < 10 then [DigitChar(n)] else FormatNat(n / 10) + [DigitChar(n % 10)]
  }

  /** fmt's `%d`. */
  function FormatInt(n: int): (s: string)
    ensures ':' !in s
  {
    if n < 0 then "-" + FormatNat(-n) else FormatNat(n)
  }

  function DigitsValue(s: string): nat
    requires AllDigits(s)
  {
    if s == [] then 0 else 10 * DigitsValue(s[..|s| - 1]) + DigitValue(s[|s| - 1])
  }

  /** strconv.Atoi: an optional sign, then one or more decimal digits, inside the 64-bit range. */
  function Atoi(s: string): Option<int> {
    var signed := s != [] && (s[0] == '-' || s[0] == '+');
    var digits := if signed then s[1..] else s;
    if digits == [] || !AllDigits(digits) then None
    else
      var value: int := DigitsValue(digits);
      var n := if signed && s[0] == '-' then -value else value;
      if -MAX_INT - 1 <= n <= MAX_INT then Some(n) else None
  }

  /** strings.Split(s, ":"). */
  function Split(s: string): (parts: seq<string>)
    ensures parts != []
  {
    if s == [] then [""]
    else
      var rest := Split(s[1..]);
      if s[0] == ':' then [""] + rest else Prepend(s[0], rest)
  }

  function Prepend(c: char, parts: seq<string>): (longer: seq<string>)
    requires parts != []
    ensures |longer| == |parts|
  {
    [[c] + parts[0]] + parts[1..]
  }

  lemma PrependConcat(c: char, a: seq<string>, b: seq<string>)
    requires a != []
    ensures Prepend(c, a + b) == Prepend(c, a) + b
  {
  }

  // ---------------------------------------------------------------- parsing and printing

  function ParseChunkCoord(name: string, raw: string): Result<int, ParseError> {
    match Atoi(raw)
    case None => Err(BadCoordinate(name))
    case Some(value) => if value < 0 then Err(NegativeCoordinate(name)) else Ok(value)
  }

  function ParseChunkID(raw: string): Result<ChunkID, ParseError> {
    var parts := Split(raw);
    if |parts| != 4 then Err(BadFormat)
    else if parts[0] == "" then Err(EmptyRegion)
    else
      match ParseChunkCoord("z", parts[1])
      case Err(e) => Err(e)
      case Ok(z) =>
        match ParseChunkCoord("x", parts[2])
        case Err(e) => Err(e)
        case Ok(x) =>
          match ParseChunkCoord("y", parts[3])
          case Err(e) => Err(e)
          case Ok(y) => Ok(ChunkID(parts[0], z, x, y))
  }

  function Print(id: ChunkID): string {
    Join(id.region, FormatInt(id.z), FormatInt(id.x), FormatInt(id.y))
  }

  /** What a chunk ID needs for its printed form to be read back: the guards of ParseChunkID, seen from the value. */
  predicate Printable(id: ChunkID) {
    && id.region != "" && ':' !in id.region
    && 0 <= id.z <= MAX_INT && 0 <= id.x <= MAX_INT && 0 <= id.y <= MAX_INT
  }

  lemma {:induction false} FormatNatValue(n: nat)
    ensures DigitsValue(FormatNat(n)) == n
  {
    if n >= 10 {
      FormatNatValue(n / 10);
      assert FormatNat(n)[..|FormatNat(n)| - 1] == FormatNat(n / 10);
    }
  }

  lemma AtoiFormat(n: int)
    ensures Atoi(FormatInt(n)) == if -MAX_INT - 1 <= n <= MAX_INT then Some(n) else None
  {
    hide DigitsValue, FormatNat, IsDigit;
    var s := FormatInt(n);
    if n < 0 {
      FormatNatValue(-n);
      assert s[1..] == FormatNat(-n);
    } else {
      FormatNatValue(n);
      assert s[0] != '-' && s[0] != '+' by { FirstDigit(s); }
    }
  }

  lemma FirstDigit(s: string)
    requires s != [] && AllDigits(s)
    ensures s[0] != '-' && s[0] != '+'
  {
    assert IsDigit(s[0]);
  }

  lemma SplitStep(c: char, rest: string)
    ensures Split([c] + rest) == if c == ':' then [""] + Split(rest) else Prepend(c, Split(rest))
  {
    assert ([c] + rest)[1..] == rest;
  }

  lemma {:induction false} SplitConcat(a: string, b: string)
    ensures Split(a + ":" + b) == Split(a) + Split(b)
  {
    if a == [] {
      assert a + ":" + b == [':'] + b;
      SplitStep(':', b);
    } else {
      SplitConcat(a[1..], b);
      SplitConcatStep(a[0], a[1..], b);
      assert [a[0]] + a[1..] == a;
    }
  }

  lemma SplitConcatStep(c: char, a: string, b: string)
    requires Split(a + ":" + b) == Split(a) + Split(b)
    ensures Split([c] + a + ":" + b) == Split([c] + a) + Split(b)
  {
    hide Prepend, Split;
    assert [c] + a + ":" + b == [c] + (a + ":" + b);
    SplitStep(c, a + ":" + b);
    SplitStep(c, a);
    if c != ':' {
      PrependConcat(c, Split(a), Split(b));
    } else {
      assert [""] + (Split(a) + Split(b)) == [""] + Split(a) + Split(b);
    }
  }

  lemma {:induction false} SplitCount(a: string)
    ensures |Split(a)| == 1 <==> ':' !in a
    ensures ':' !in a ==> Split(a) == [a]
  {
    if a != [] {
      SplitCount(a[1..]);
      assert a == [a[0]] + a[1..];
    }
  }

  /** Four colon-free coordinates joined by colons after any region. */
  function Join(region: string, z: string, x: string, y: string): string {
    region + ":" + (z + ":" + (x + ":" + y))
  }

  lemma SplitJoin(region: string, z: string, x: string, y: string)
    requires ':' !in z && ':' !in x && ':' !in y
    ensures Split(Join(region, z, x, y)) == Split(region) + [z, x, y]
  {
    SplitConcat(region, z + ":" + (x + ":" + y));
    SplitConcat(z, x + ":" + y);
    SplitConcat(x, y);
    SplitCount(z);
    SplitCount(x);
    SplitCount(y);
    assert [z] + ([x] + [y]) == [z, x, y];
  }

  /** Reading back a printed chunk ID gives the same ID exactly when the ID is printable. */
  lemma ParsePrintRoundTrip(id: ChunkID)
    ensures ParseChunkID(Print(id)) == Ok(id) <==> Printable(id)
  {
    SplitJoin(id.region, FormatInt(id.z), FormatInt(id.x), FormatInt(id.y));
    SplitCount(id.region);
    AtoiFormat(id.z);
    AtoiFormat(id.x);
    AtoiFormat(id.y);
    if ':' !in id.region {
      assert Split(Print(id)) == [id.region, FormatInt(id.z), FormatInt(id.x), FormatInt(id.y)];
    }
  }

  /** The printed form is injective on printable IDs, so it is a safe worker and store key. */
  lemma PrintInjective(a: ChunkID, b: ChunkID)
    requires Printable(a) && Printable(b)
    ensures Print(a) == Print(b) <==> a == b
  {
    ParsePrintRoundTrip(a);
    ParsePrintRoundTrip(b);
  }

  // ---------------------------------------------------------------- the other round trip

  /** The decimal texts that printing a number produces: digits without a leading zero, or one digit. */
  predicate PlainNumber(s: string) {
    s != [] && AllDigits(s) && (|s| > 1 ==> s[0] != '0')
  }

  lemma {:induction false} FormatNatPlain(n: nat)
    ensures PlainNumber(FormatNat(n)) && (n > 0 ==> FormatNat(n)[0] != '0')
  {
    if n >= 10 {
      FormatNatPlain(n / 10);
    }
  }

  lemma {:induction false} PlainIsPositive(s: string)
    requires PlainNumber(s) && s[0] != '0'
    ensures DigitsValue(s) > 0
  {
    var init := s[..|s| - 1];
    if init != [] {
      PlainIsPositive(init);
    }
  }

  lemma DigitCharValue(c: char)
    requires IsDigit(c)
    ensures DigitValue(c) < 10 && DigitChar(DigitValue(c)) == c
  {
  }

  lemma {:induction false} PlainPrintsBack(s: string)
    requires PlainNumber(s)
    ensures FormatNat(DigitsValue(s)) == s
  {
    var init, last := s[..|s| - 1], s[|s| - 1];
    DigitCharValue(last);
    assert s == init + [last];
    if init == [] {
      assert DigitsValue(init) == 0;
    } else {
      PlainPrintsBack(init);
      PlainIsPositive(init);
      assert DigitsValue(s) / 10 == DigitsValue(init) && DigitsValue(s) % 10 == DigitValue(last);
    }
  }

  /** A text that reads as a number that is not negative prints back exactly when it is plain. */
  lemma PrintsBackNumber(s: string)
    requires Atoi(s).Some? && Atoi(s).value >= 0
    ensures FormatInt(Atoi(s).value) == s <==> PlainNumber(s)
  {
    FormatNatPlain(Atoi(s).value);
    if PlainNumber(s) {
      assert IsDigit(s[0]);
      PlainPrintsBack(s);
    }
  }

  /** A text with nothing but zeros. */
  predicate Zeros(s: string) { forall i :: 0 <= i < |s| ==> s[i] == '0' }

  /** One of the spellings of a number: a sign that fits, any zeros, and the number as printing writes it. */
  predicate Spells(s: string, sign: string, zeros: string, n: int) {
    && s == sign + zeros + FormatNat(if n < 0 then -n else n) && Zeros(zeros)
    && (sign == "-" || sign == "+" || sign == "") && (n < 0 ==> sign == "-") && (n > 0 ==> sign != "-")
  }

  lemma {:induction false} LeadingZeros(zeros: string, s: string)
    requires Zeros(zeros) && AllDigits(s)
    ensures AllDigits(zeros + s) && DigitsValue(zeros + s) == DigitsValue(s)
  {
    var all := zeros + s;
    if s != [] {
      assert all[..|all| - 1] == zeros + s[..|s| - 1];
      LeadingZeros(zeros, s[..|s| - 1]);
    } else if zeros != [] {
      assert all == zeros && zeros[..|zeros| - 1] + s == zeros[..|zeros| - 1];
      LeadingZeros(zeros[..|zeros| - 1], s);
    }
  }

  /** Digits are zeros before the printed form of their value. */
  lemma {:induction false} DigitsSpell(s: string) returns (zeros: string)
    requires s != [] && AllDigits(s)
    ensures Zeros(zeros) && s == zeros + FormatNat(DigitsValue(s))
  {
    if PlainNumber(s) {
      PlainPrintsBack(s);
      zeros := "";
    } else {
      assert s == "0" + s[1..];
      LeadingZeros("0", s[1..]);
      var less := DigitsSpell(s[1..]);
      zeros := "0" + less;
    }
  }

  lemma AtoiParts(s: string) returns (sign: string, digits: string)
    requires Atoi(s).Some?
    ensures s == sign + digits && digits != [] && AllDigits(digits)
    ensures sign == "" || sign == "+" || sign == "-"
    ensures Atoi(s).value == if sign == "-" then 0 - DigitsValue(digits) else DigitsValue(digits)
  {
    var signed := s != [] && (s[0] == '-' || s[0] == '+');
    sign, digits := if signed then [s[0]] else "", if signed then s[1..] else s;
    assert s == sign + digits;
  }

  /** Reading a number accepts exactly its spellings, and only inside the 64-bit range. */
  lemma AtoiSpelling(s: string, n: int)
    ensures Atoi(s) == Some(n) <==>
              -MAX_INT - 1 <= n <= MAX_INT && exists sign, zeros :: Spells(s, sign, zeros, n)
  {
    if Atoi(s) == Some(n) {
      var sign, digits := AtoiParts(s);
      var zeros := DigitsSpell(digits);
      assert Spells(s, sign, zeros, n);
    }
    forall sign, zeros | Spells(s, sign, zeros, n) && -MAX_INT - 1 <= n <= MAX_INT ensures Atoi(s) == Some(n) {
      SpellingReads(s, sign, zeros, n);
    }
  }

  lemma SpellingReads(s: string, sign: string, zeros: string, n: int)
    requires Spells(s, sign, zeros, n) && -MAX_INT - 1 <= n <= MAX_INT
    ensures Atoi(s) == Some(n)
  {
    var size := if n < 0 then -n else n;
    FormatNatValue(size);
    LeadingZeros(zeros, FormatNat(size));
    SignedReads(s, sign, zeros + FormatNat(size), n);
  }

  /** Digits after a sign. */
  lemma SignedReads(s: string, sign: string, digits: string, n: int)
    requires s == sign + digits && digits != [] && AllDigits(digits)
    requires sign == "" || sign == "+" || sign == "-"
    requires n == (if sign == "-" then 0 - DigitsValue(digits) else DigitsValue(digits))
    requires -MAX_INT - 1 <= n <= MAX_INT
    ensures Atoi(s) == Some(n)
  {
    hide DigitsValue;
    if sign == "" {
      assert s == digits && IsDigit(digits[0]);
    } else {
      assert s[0] == sign[0] && s[1..] == digits;
    }
  }

  predicate Coordinate(s: string) { Atoi(s).Some? && Atoi(s).value >= 0 }

  /** A chunk text parses exactly when it has four parts, a region and three coordinates, and then to those; every
      error has its exact condition, the first wrong part deciding. */
  lemma ParseExact(raw: string)
    ensures
      var parts, r := Split(raw), ParseChunkID(raw);
      && (r == Err(BadFormat) <==> |parts| != 4)
      && (r == Err(EmptyRegion) <==> |parts| == 4 && parts[0] == "")
      && (|parts| == 4 && parts[0] != "" ==>
            && (r.Ok? <==> Coordinate(parts[1]) && Coordinate(parts[2]) && Coordinate(parts[3]))
            && (r.Ok? ==>
                  r.value == ChunkID(parts[0], Atoi(parts[1]).value, Atoi(parts[2]).value, Atoi(parts[3]).value))
            && (r == Err(BadCoordinate("z")) <==> Atoi(parts[1]).None?)
            && (r == Err(NegativeCoordinate("z")) <==> Atoi(parts[1]).Some? && Atoi(parts[1]).value < 0)
            && (r == Err(BadCoordinate("x")) <==> Coordinate(parts[1]) && Atoi(parts[2]).None?)
            && (r == Err(NegativeCoordinate("x")) <==>
                  Coordinate(parts[1]) && Atoi(parts[2]).Some? && Atoi(parts[2]).value < 0)
            && (r == Err(BadCoordinate("y")) <==>
                  Coordinate(parts[1]) && Coordinate(parts[2]) && Atoi(parts[3]).None?)
            && (r == Err(NegativeCoordinate("y")) <==>
                  Coordinate(parts[1]) && Coordinate(parts[2]) && Atoi(parts[3]).Some? && Atoi(parts[3]).value < 0))
  {
    hide Atoi, Split;
  }

  /** The parts with colons between them again. */
  function Glue(parts: seq<string>): string
    requires parts != []
  {
    if |parts| == 1 then parts[0] else parts[0] + ":" + Glue(parts[1..])
  }

  lemma GluePrepend(c: char, parts: seq<string>)
    requires parts != []
    ensures Glue(Prepend(c, parts)) == [c] + Glue(parts)
  {
    if |parts| > 1 {
      assert Prepend(c, parts)[1..] == parts[1..];
    }
  }

  lemma {:induction false} GlueSplit(s: string)
    ensures Glue(Split(s)) == s && forall i :: 0 <= i < |Split(s)| ==> ':' !in Split(s)[i]
  {
    if s != [] {
      var rest := Split(s[1..]);
      GlueSplit(s[1..]);
      if s[0] == ':' {
        assert ([""] + rest)[1..] == rest;
      } else {
        GluePrepend(s[0], rest);
      }
    }
  }

  lemma GlueFour(parts: seq<string>)
    requires |parts| == 4
    ensures Glue(parts) == Join(parts[0], parts[1], parts[2], parts[3])
  {
    assert parts[1..][1..] == parts[2..] && parts[2..][1..] == parts[3..];
    assert Glue(parts[3..]) == parts[3];
    assert Glue(parts[2..]) == parts[2] + ":" + parts[3];
    assert Glue(parts[1..]) == parts[1] + ":" + Glue(parts[2..]);
  }

  /** The three coordinates of a chunk text are written as printing writes them. */
  predicate PlainCoordinates(raw: string) {
    |Split(raw)| == 4 && PlainNumber(Split(raw)[1]) && PlainNumber(Split(raw)[2]) && PlainNumber(Split(raw)[3])
  }

  /** Which texts print back to themselves after parsing: exactly those whose coordinates are plain. */
  lemma PrintsBack(raw: string)
    requires ParseChunkID(raw).Ok?
    ensures Print(ParseChunkID(raw).value) == raw <==> PlainCoordinates(raw)
  {
    hide PlainNumber, FormatInt, Atoi, Split;
    var parts, id := Split(raw), ParseChunkID(raw).value;
    GlueSplit(raw);
    GlueFour(parts);
    PrintsBackNumber(parts[1]);
    PrintsBackNumber(parts[2]);
    PrintsBackNumber(parts[3]);
    SplitJoin(id.region, FormatInt(id.z), FormatInt(id.x), FormatInt(id.y));
    SplitCount(id.region);
    assert Split(Print(id)) == [id.region, FormatInt(id.z), FormatInt(id.x), FormatInt(id.y)];
  }

  lemma AtoiPlusSign(n: nat)
    requires n <= MAX_INT
    ensures Atoi("+" + FormatInt(n)) == Some(n)
    ensures "+" + FormatInt(n) != FormatInt(n)
  {
    FormatNatValue(n);
    var s := "+" + FormatInt(n);
    assert s[1..] == FormatNat(n);
    assert |s| == |FormatInt(n)| + 1;
  }

  /** Printing does not invert parsing: every printable ID has a second spelling, with a plus sign before its
      level, that parses to the same ID. */
  lemma ParseAcceptsAlias(id: ChunkID)
    requires Printable(id)
    ensures ParseChunkID(Alias(id)) == Ok(id) && Alias(id) != Print(id)
  {
    var z, x, y := FormatInt(id.z), FormatInt(id.x), FormatInt(id.y);
    SplitJoin(id.region, "+" + z, x, y);
    SplitJoin(id.region, z, x, y);
    SplitCount(id.region);
    AtoiPlusSign(id.z);
    AtoiFormat(id.x);
    AtoiFormat(id.y);
    assert Split(Alias(id))[1] == "+" + z && Split(Print(id))[1] == z;
  }

  function Alias(id: ChunkID): string {
    Join(id.region, "+" + FormatInt(id.z), FormatInt(id.x), FormatInt(id.y))
  }

  // ---------------------------------------------------------------- grid arithmetic

  function Pow2(n: nat): (p: nat)
    ensures p >= 1
  {
    if n == 0 then 1 else 2 * Pow2(n - 1)
  }

  /** ChunkGridSize: the number of chunks along one side of a level, or None outside the levels. */
  function ChunkGridSize(level: int): Option<nat> {
    if level < CHUNK_MIN_LEVEL || level > CHUNK_MAX_LEVEL then None else Some(Pow2(level))
  }

  function ChunkCellIndex(x: int, y: int): Option<int> {
    if x < 0 || x >= CHUNK_SIZE || y < 0 || y >= CHUNK_SIZE then None else Some(y * CHUNK_SIZE + x)
  }

  /** The chunk names a map service accepts for play: region "cn", deepest level, inside the grid. */
  predicate Playable(id: ChunkID) {
    && id.region == "cn" && id.z == CHUNK_MAX_LEVEL
    && 0 <= id.x < Pow2(CHUNK_MAX_LEVEL) && 0 <= id.y < Pow2(CHUNK_MAX_LEVEL)
  }

  lemma LeafGrid()
    ensures Pow2(CHUNK_MAX_LEVEL) == 64
  {
    assert Pow2(0) == 1 && Pow2(1) == 2 && Pow2(2) == 4 && Pow2(3) == 8 && Pow2(4) == 16 && Pow2(5) == 32;
  }

  lemma PlayablePrintable(id: ChunkID)
    requires Playable(id)
    ensures Printable(id)
  {
    LeafGrid();
  }
}
