/** The text keys under which the three caching usecases share one store. */
module CacheKeys {
  import opened Rounding
  import opened Decimal

  /** One request to a caching usecase. */
  datatype Request =
    | Tide(prefCode: string, portCode: string, date: string)
    | Current(lat: real, lon: real)
    | Forecast(lat: real, lon: real)
    | Search(query: string, limit: int)

  datatype Kind = TideKind | CurrentKind | ForecastKind | SearchKind

  function KindOf(r: Request): Kind {
    match r
    case Tide(_, _, _) => TideKind
    case Current(_, _) => CurrentKind
    case Forecast(_, _) => ForecastKind
    case Search(_, _) => SearchKind
  }

  /** A SHA-256 digest. */
  type Byte = b: int | 0 <= b < 256
  type Digest = d: seq<Byte> | |d| == 32 witness seq(32, _ => 0)

  // ---- What the handlers let through ----

  predicate IsAlnum(c: char) { IsDigit(c) || 'a' <= c <= 'z' || 'A' <= c <= 'Z' }

  predicate DateShape(s: string) {
    |s| == 10 && forall k :: 0 <= k < 10 ==> if k == 4 || k == 7 then s[k] == '-' else IsDigit(s[k])
  }

  predicate Valid(r: Request) {
    match r
    case Tide(pref, port, date) =>
      && 1 <= |pref| <= 2 && (forall k :: 0 <= k < |pref| ==> IsDigit(pref[k]))
      && 1 <= |port| && (forall k :: 0 <= k < |port| ==> IsAlnum(port[k]))
      && DateShape(date)
    case Current(lat, lon) => InRange(lat, lon)
    case Forecast(lat, lon) => InRange(lat, lon)
    case Search(query, limit) => 2 <= |query| <= 200 && 1 <= limit <= 20
  }

  // ---- The keys ----

  function HexDigit(d: nat): (c: char)
    requires d < 16
    ensures c != ':'
  {
    if d < 10 then '0' + d as char else 'a' + (d - 10) as char
  }

  function HexByte(b: Byte): (s: string)
    ensures |s| == 2 && ':' !in s
  {
    [HexDigit(b / 16), HexDigit(b % 16)]
  }

  function Hex(d: seq<Byte>): (s: string)
    ensures |s| == 2 * |d| && ':' !in s
  {
    if d == [] then "" else HexByte(d[0]) + Hex(d[1..])
  }

  /** How many ten-thousandths a coordinate's size rounds to. */
  function Cell(v: real): (n: nat) {
    Round(Abs(RoundCoordinate(v, 4)) * 10000.0)
  }

  /** Four decimals of n ten-thousandths. */
  function Fixed4(n: nat): string {
    Print(n / 10000) + ['.'] + PrintWidth(n % 10000, 4)
  }

  /**
    The rounded coordinate as %.4f prints it.  Floating-point rounding keeps the sign
    bit, so a negative coordinate that rounds to zero prints as -0.0000.
   */
  function Coordinate(v: real): string {
    (if v < 0.0 then "-" else "") + Fixed4(Cell(v))
  }

  function KeyOf(sha256: string -> Digest, r: Request): string {
    match r
    case Tide(pref, port, date) => "tide:" + (pref + [':'] + (port + [':'] + date))
    case Current(lat, lon) => "weather:current:" + (Coordinate(lat) + [':'] + Coordinate(lon))
    case Forecast(lat, lon) => "weather:forecast:" + (Coordinate(lat) + [':'] + Coordinate(lon))
    case Search(query, limit) => "location:" + (Hex(sha256(query)) + [':'] + PrintInt(limit))
  }

  // ---- Coordinates ----

  lemma ScaleIs10000()
    ensures Pow10(4) == 10000.0
  {
  }

  /** The cell is the rounded coordinate without its sign. */
  lemma CellIsRounded(v: real)
    ensures RoundCoordinate(v, 4) == (if v < 0.0 then -(Cell(v) as real) else Cell(v) as real) / 10000.0
  {
    ScaleIs10000();
    var n := Round(v * 10000.0);
    var r := RoundCoordinate(v, 4);
    assert r == n as real / 10000.0;
    var size := if n < 0 then -n else n;
    assert Abs(r) * 10000.0 == size as real;
    RoundInteger(size);
    assert v < 0.0 ==> n <= 0;
  }

  lemma Fixed4ReadsBack(m: nat, n: nat)
    requires Fixed4(m) == Fixed4(n)
    ensures m == n
  {
    SplitUnique(Print(m / 10000), PrintWidth(m % 10000, 4), Print(n / 10000), PrintWidth(n % 10000, 4), '.');
    PrintReadsBack(m / 10000);
    PrintReadsBack(n / 10000);
    assert TenTo(4) == 10000;
    PrintWidthReadsBack(m % 10000, 4);
    PrintWidthReadsBack(n % 10000, 4);
  }

  lemma CoordinateReadsBack(v: real, w: real)
    requires Coordinate(v) == Coordinate(w)
    ensures (v < 0.0 <==> w < 0.0) && Cell(v) == Cell(w)
  {
    assert IsDigit(Fixed4(Cell(v))[0]) && IsDigit(Fixed4(Cell(w))[0]);
    assert Coordinate(v)[0] == '-' <==> v < 0.0;
    assert Coordinate(w)[0] == '-' <==> w < 0.0;
    CancelPrefix(if v < 0.0 then "-" else "", Fixed4(Cell(v)), Fixed4(Cell(w)));
    Fixed4ReadsBack(Cell(v), Cell(w));
  }

  lemma CancelPrefix(p: string, x: string, y: string)
    requires p + x == p + y
    ensures x == y
  {
    assert x == (p + x)[|p|..] && y == (p + y)[|p|..];
  }

  /** Two coordinates print alike exactly if they round alike and lie on the same side of zero. */
  lemma CoordinateIff(v: real, w: real)
    ensures Coordinate(v) == Coordinate(w)
            <==> RoundCoordinate(v, 4) == RoundCoordinate(w, 4) && (v < 0.0 <==> w < 0.0)
  {
    CellIsRounded(v);
    CellIsRounded(w);
    if Coordinate(v) == Coordinate(w) { CoordinateReadsBack(v, w); }
  }

  /** So rounding alone does not decide the key: two coordinates of the cell around zero get different keys. */
  lemma ZeroCellHasTwoKeys(sha256: string -> Digest)
    ensures RoundCoordinate(-0.00001, 4) == RoundCoordinate(0.00001, 4)
    ensures KeyOf(sha256, Current(-0.00001, 0.0)) != KeyOf(sha256, Current(0.00001, 0.0))
  {
    ScaleIs10000();
    CoordinateIff(-0.00001, 0.00001);
    NoColonInCoordinate(-0.00001);
    NoColonInCoordinate(0.00001);
    if KeyOf(sha256, Current(-0.00001, 0.0)) == KeyOf(sha256, Current(0.00001, 0.0)) {
      WeatherKeySplits(sha256, Current(-0.00001, 0.0), Current(0.00001, 0.0));
    }
  }

  lemma NoColonInCoordinate(v: real)
    ensures ':' !in Coordinate(v)
  {
  }

  // ---- Keys ----

  /** Requests of different kinds never share a key, whatever they carry. */
  lemma KindsAreDisjoint(sha256: string -> Digest, r: Request, q: Request)
    requires KeyOf(sha256, r) == KeyOf(sha256, q)
    ensures KindOf(r) == KindOf(q)
  {
    var i := KeyOf(sha256, r)[0];
    assert i == 't' <==> r.Tide?;
    assert i == 'l' <==> r.Search?;
    assert i == 't' <==> q.Tide?;
    assert i == 'l' <==> q.Search?;
    if i == 'w' {
      var k := KeyOf(sha256, r)[8];
      assert k == 'c' <==> r.Current?;
      assert k == 'c' <==> q.Current?;
    }
  }

  /** Codes without colons are recoverable from a tide key, whatever the date. */
  lemma TideKeySplits(sha256: string -> Digest, r: Request, q: Request)
    requires r.Tide? && q.Tide? && KeyOf(sha256, r) == KeyOf(sha256, q)
    requires ':' !in r.prefCode && ':' !in r.portCode && ':' !in q.prefCode && ':' !in q.portCode
    ensures r == q
  {
    var x, y := r.portCode + [':'] + r.date, q.portCode + [':'] + q.date;
    CancelPrefix("tide:", r.prefCode + [':'] + x, q.prefCode + [':'] + y);
    SplitUnique(r.prefCode, x, q.prefCode, y, ':');
    SplitUnique(r.portCode, r.date, q.portCode, q.date, ':');
  }

  /** With colons in the codes, which the handler's patterns keep out, two requests can share a key. */
  lemma TideKeyNeedsPatterns(sha256: string -> Digest)
    ensures KeyOf(sha256, Tide("1:2", "3", "d")) == KeyOf(sha256, Tide("1", "2:3", "d"))
  {
  }

  lemma WeatherKeySplits(sha256: string -> Digest, r: Request, q: Request)
    requires (r.Current? && q.Current?) || (r.Forecast? && q.Forecast?)
    requires KeyOf(sha256, r) == KeyOf(sha256, q)
    ensures Coordinate(r.lat) == Coordinate(q.lat) && Coordinate(r.lon) == Coordinate(q.lon)
  {
    CancelPrefix(if r.Current? then "weather:current:" else "weather:forecast:",
                 Coordinate(r.lat) + [':'] + Coordinate(r.lon), Coordinate(q.lat) + [':'] + Coordinate(q.lon));
    NoColonInCoordinate(r.lat);
    NoColonInCoordinate(q.lat);
    SplitUnique(Coordinate(r.lat), Coordinate(r.lon), Coordinate(q.lat), Coordinate(q.lon), ':');
  }

  lemma HexByteReadsBack(b: Byte, c: Byte)
    requires HexByte(b) == HexByte(c)
    ensures b == c
  {
  }

  lemma {:induction false} HexReadsBack(d: seq<Byte>, e: seq<Byte>)
    requires |d| == |e| && Hex(d) == Hex(e)
    ensures d == e
  {
    if d != [] {
      assert HexByte(d[0]) == Hex(d)[..2] && HexByte(e[0]) == Hex(e)[..2];
      HexByteReadsBack(d[0], e[0]);
      CancelPrefix(HexByte(d[0]), Hex(d[1..]), Hex(e[1..]));
      HexReadsBack(d[1..], e[1..]);
      assert d == [d[0]] + d[1..] && e == [e[0]] + e[1..];
    }
  }

  lemma SearchKeySplits(sha256: string -> Digest, r: Request, q: Request)
    requires r.Search? && q.Search? && KeyOf(sha256, r) == KeyOf(sha256, q)
    ensures sha256(r.query) == sha256(q.query) && r.limit == q.limit
  {
    var h, g := Hex(sha256(r.query)), Hex(sha256(q.query));
    CancelPrefix("location:", h + [':'] + PrintInt(r.limit), g + [':'] + PrintInt(q.limit));
    SplitUnique(h, PrintInt(r.limit), g, PrintInt(q.limit), ':');
    HexReadsBack(sha256(r.query), sha256(q.query));
    PrintIntInjective(r.limit, q.limit);
  }

  /** A digest as text: two hexadecimal digits for each byte, in order. */
  lemma {:induction false} HexDigits(d: seq<Byte>, i: nat)
    requires i < |d|
    ensures Hex(d)[2 * i] == "0123456789abcdef"[d[i] / 16] && Hex(d)[2 * i + 1] == "0123456789abcdef"[d[i] % 16]
    decreases i
  {
    assert Hex(d) == HexByte(d[0]) + Hex(d[1..]);
    HexDigitIs(d[i] / 16);
    HexDigitIs(d[i] % 16);
    if i > 0 { HexDigits(d[1..], i - 1); }
  }

  lemma HexDigitIs(n: nat)
    requires n < 16
    ensures HexDigit(n) == "0123456789abcdef"[n]
  {
  }

  /** A coordinate as text: its sign and the decimal digits of its value rounded to four places. */
  lemma CoordinateInFull(v: real) returns (whole: string, fraction: string)
    ensures Coordinate(v) == (if v < 0.0 then "-" else "") + whole + "." + fraction
    ensures whole != "" && AllDigits(whole) && |fraction| == 4 && AllDigits(fraction)
    ensures Abs(RoundCoordinate(v, 4)) == Read(whole) as real + Read(fraction) as real / 10000.0
  {
    var n := Cell(v);
    whole, fraction := Print(n / 10000), PrintWidth(n % 10000, 4);
    assert TenTo(4) == 10000;
    PrintReadsBack(n / 10000);
    PrintWidthReadsBack(n % 10000, 4);
    CellIsRounded(v);
    assert n == 10000 * (n / 10000) + n % 10000;
    assert n as real == 10000.0 * (n / 10000) as real + (n % 10000) as real;
  }

  /** The shape of the keys, part by part. */
  lemma KeysInFull(sha256: string -> Digest, r: Request)
    ensures match r
            case Tide(pref, port, date) => KeyOf(sha256, r) == "tide:" + pref + ":" + port + ":" + date
            case Current(lat, lon) => KeyOf(sha256, r) == "weather:current:" + Coordinate(lat) + ":" + Coordinate(lon)
            case Forecast(lat, lon) => KeyOf(sha256, r) == "weather:forecast:" + Coordinate(lat) + ":" + Coordinate(lon)
            case Search(query, limit) => KeyOf(sha256, r) == "location:" + Hex(sha256(query)) + ":" + PrintInt(limit)
  {
  }

  /** What sharing a cache entry means for two requests. */
  ghost predicate SameEntry(sha256: string -> Digest, r: Request, q: Request) {
    match r
    case Tide(_, _, _) => q == r
    case Current(lat, lon) => q.Current? && SameCell(lat, q.lat) && SameCell(lon, q.lon)
    case Forecast(lat, lon) => q.Forecast? && SameCell(lat, q.lat) && SameCell(lon, q.lon)
    case Search(query, limit) => q.Search? && sha256(query) == sha256(q.query) && limit == q.limit
  }

  ghost predicate SameCell(v: real, w: real) {
    RoundCoordinate(v, 4) == RoundCoordinate(w, 4) && (v < 0.0 <==> w < 0.0)
  }

  /** On what the handlers let through, keys are equal exactly for requests that are to share an entry. */
  lemma KeysEqualIff(sha256: string -> Digest, r: Request, q: Request)
    requires Valid(r) && Valid(q)
    ensures KeyOf(sha256, r) == KeyOf(sha256, q) <==> SameEntry(sha256, r, q)
  {
    if (r.Current? && q.Current?) || (r.Forecast? && q.Forecast?) {
      CoordinateIff(r.lat, q.lat);
      CoordinateIff(r.lon, q.lon);
    }
    if KeyOf(sha256, r) == KeyOf(sha256, q) {
      KindsAreDisjoint(sha256, r, q);
      match r
      case Tide(_, _, _) => TideKeySplits(sha256, r, q);
      case Search(_, _) => SearchKeySplits(sha256, r, q);
      case _ => WeatherKeySplits(sha256, r, q);
    }
  }

  /** Coordinates that share a weather entry differ by at most 0.0001 degrees each way. */
  lemma SameCellWithin(v: real, w: real)
    requires SameCell(v, w)
    ensures Abs(v - w) <= 0.0001
  {
  }
}
