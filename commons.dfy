/**
 * Small helpers every component uses (commons.cpp): the wall-clock
 * timestamp that reads as 0 until the clock has been synchronised, and
 * the parser that turns a configured hex string such as "7FC0FFFF0080BD7E"
 * into its byte values.
 */
module Commons {
  import opened Wrappers

  /** 2021-01-01T00:00:00Z: any earlier clock reading is taken as "not synchronised". */
  const SYNCED_EPOCH: int := 1609459200

  /** `get_current_timestamp`, with the clock reading `now` passed in: 0 for an unsynchronised clock. */
  function GetCurrentTimestamp(now: int): (r: int)
    ensures r == 0 || r >= SYNCED_EPOCH
    ensures now >= SYNCED_EPOCH ==> r == now
    ensures now < SYNCED_EPOCH ==> r == 0
  {
    if now < SYNCED_EPOCH then 0 else now
  }

  /** A valid reading is never mistaken for "unknown", and no unsynchronised reading gets through. */
  lemma TimestampKnownIffSynced(now: int)
    requires now >= 0
    ensures GetCurrentTimestamp(now) != 0 <==> now >= SYNCED_EPOCH
  {
  }

  predicate IsHexDigit(c: char)
  {
    ('0' <= c <= '9') || ('a' <= c <= 'f') || ('A' <= c <= 'F')
  }

  function HexValue(c: char): (v: int)
    requires IsHexDigit(c)
    ensures 0 <= v < 16
  {
    if '0' <= c <= '9' then c as int - '0' as int
    else if 'a' <= c <= 'f' then c as int - 'a' as int + 10
    else c as int - 'A' as int + 10
  }

  /** The characters `isspace` accepts before a number. */
  predicate IsSpace(c: char)
  {
    c == ' ' || c == '\t' || c == '\n' || c == '\r' || c == '\U{B}' || c == '\U{C}'
  }

  /**
   * `std::stoi(pair, nullptr, 16)` on a two-character string: leading
   * white space and a sign are accepted, parsing stops at the first
   * character that is not a hex digit, and no digit at all is an error.
   * So "7F" is 127, "7G" and "0x" stop after one digit, " 7" is 7, "-7"
   * is -7, and "G7" fails.
   */
  function StoiPair(c1: char, c2: char): (r: Option<int>)
    ensures r.Some? ==> -15 <= r.value <= 255
    ensures IsHexDigit(c1) && IsHexDigit(c2) ==> r == Some(16 * HexValue(c1) + HexValue(c2))
    ensures !IsHexDigit(c1) && !IsSpace(c1) && c1 != '+' && c1 != '-' ==> r == None
  {
    if IsHexDigit(c1) then
      if IsHexDigit(c2) then Some(16 * HexValue(c1) + HexValue(c2)) else Some(HexValue(c1))
    else if (IsSpace(c1) || c1 == '+') && IsHexDigit(c2) then Some(HexValue(c2))
    else if c1 == '-' && IsHexDigit(c2) then Some(-HexValue(c2))
    else None
  }

  /** The values of the first `k` pairs, or `None` as soon as one pair fails. */
  function PairsUpTo(s: string, k: nat): Option<seq<int>>
    requires 2 * k <= |s|
  {
    if k == 0 then Some([])
    else match PairsUpTo(s, k - 1)
      case None => None
      case Some(prefix) =>
        match StoiPair(s[2 * k - 2], s[2 * k - 1])
        case None => None
        case Some(v) => Some(prefix + [v])
  }

  /** What `pavectorseHexToFixedArray` returns: empty for an odd length or any bad pair, otherwise every pair's value. */
  function HexToArray(s: string): seq<int>
  {
    if |s| % 2 != 0 then []
    else match PairsUpTo(s, |s| / 2)
      case None => []
      case Some(r) => r
  }

  /** `pavectorseHexToFixedArray`: parse two characters at a time, giving up on the first pair `stoi` rejects. */
  method ParseHexToArray(hexString: string) returns (result: seq<int>)
    ensures result == HexToArray(hexString)
  {
    result := [];
    var len := |hexString|;
    if len % 2 != 0 {
      return [];
    }
    var i := 0;
    while i < len
      invariant i % 2 == 0 && 0 <= i <= len
      invariant PairsUpTo(hexString, i / 2) == Some(result)
    {
      match StoiPair(hexString[i], hexString[i + 1]) {
        case None =>
          PairsStayFailed(hexString, i / 2 + 1, len / 2);
          return [];
        case Some(b) =>
          result := result + [b];
      }
      i := i + 2;
    }
  }

  /** Once a pair has failed, every longer prefix fails too. */
  lemma {:induction false} PairsStayFailed(s: string, k: nat, n: nat)
    requires k <= n && 2 * n <= |s| && PairsUpTo(s, k) == None
    ensures PairsUpTo(s, n) == None
    decreases n - k
  {
    if k < n {
      PairsStayFailed(s, k + 1, n);
    }
  }

  predicate AllHex(s: string)
  {
    forall i :: 0 <= i < |s| ==> IsHexDigit(s[i])
  }

  /** A string of hex digits gives one byte per pair, each the value of its two digits. */
  lemma {:induction false} PairsOfHexDigits(s: string, k: nat)
    requires 2 * k <= |s| && AllHex(s)
    ensures PairsUpTo(s, k).Some?
    ensures |PairsUpTo(s, k).value| == k
    ensures forall j :: 0 <= j < k ==>
      PairsUpTo(s, k).value[j] == 16 * HexValue(s[2 * j]) + HexValue(s[2 * j + 1])
  {
    if k > 0 {
      PairsOfHexDigits(s, k - 1);
    }
  }

  /** An even-length string of hex digits parses to `|s| / 2` values in 0..255, each its digit pair. */
  lemma HexDigitsParse(s: string)
    requires |s| % 2 == 0 && AllHex(s)
    ensures |HexToArray(s)| == |s| / 2
    ensures forall j :: 0 <= j < |s| / 2 ==>
      0 <= HexToArray(s)[j] < 256 && HexToArray(s)[j] == 16 * HexValue(s[2 * j]) + HexValue(s[2 * j + 1])
  {
    PairsOfHexDigits(s, |s| / 2);
  }

  /** An odd-length string parses to nothing. */
  lemma OddLengthIsEmpty(s: string)
    requires |s| % 2 == 1
    ensures HexToArray(s) == []
  {
  }

  /** One pair that `stoi` rejects empties the whole result, whatever the other pairs hold. */
  lemma BadPairEmptiesAll(s: string, j: nat)
    requires |s| % 2 == 0 && 2 * j + 1 < |s|
    requires StoiPair(s[2 * j], s[2 * j + 1]) == None
    ensures HexToArray(s) == []
  {
    assert PairsUpTo(s, j + 1) == None;
    PairsStayFailed(s, j + 1, |s| / 2);
  }

  /** The number of decimal digits `s` starts with. */
  function DigitRun(s: string): (n: nat)
    ensures n <= |s|
    ensures forall i :: 0 <= i < n ==> '0' <= s[i] <= '9'
    ensures n < |s| ==> !('0' <= s[n] <= '9')
  {
    if |s| == 0 || !('0' <= s[0] <= '9') then 0 else 1 + DigitRun(s[1..])
  }

  /** The value of a run of decimal digits. */
  function DecimalValue(d: string): nat
    requires forall i :: 0 <= i < |d| ==> '0' <= d[i] <= '9'
  {
    if |d| == 0 then 0 else DecimalValue(d[..|d| - 1]) * 10 + (d[|d| - 1] as int - '0' as int)
  }

  /** The number of white-space characters `s` starts with, which `std::stoi` and `%d` skip. */
  function SpaceRun(s: string): (n: nat)
    ensures n <= |s|
  {
    if |s| == 0 || !IsSpace(s[0]) then 0 else 1 + SpaceRun(s[1..])
  }

  const INT_MIN: int := -0x8000_0000
  const INT_MAX: int := 0x7FFF_FFFF

  predicate AllDigits(s: string)
  {
    forall i :: 0 <= i < |s| ==> '0' <= s[i] <= '9'
  }

  /** The digits `u` starts with: their value and their number; `None` when it starts with no digit. */
  function ScanDigits(u: string): (r: Option<(nat, nat)>)
    ensures r.Some? ==> 0 < r.value.1 <= |u|
  {
    var n := DigitRun(u);
    if n == 0 then None else Some((DecimalValue(u[..n]), n))
  }

  /**
   * An optional sign, then at least one digit, at the start of `t`: the
   * value and the number of characters read. `None` when no digit follows
   * the sign, or when the value does not fit in an `int`.
   */
  function ScanSigned(t: string): (r: Option<(int, nat)>)
    ensures r.Some? ==> 0 < r.value.1 <= |t| && INT_MIN <= r.value.0 <= INT_MAX
  {
    if |t| > 0 && (t[0] == '-' || t[0] == '+') then
      match ScanDigits(t[1..])
      case None => None
      case Some((m, n)) =>
        var v: int := if t[0] == '-' then -(m as int) else m;
        if INT_MIN <= v <= INT_MAX then Some((v, n + 1)) else None
    else
      match ScanDigits(t)
      case None => None
      case Some((m, n)) => if m <= INT_MAX then Some((m, n)) else None
  }

  /**
   * The integer conversion `std::stoi` and `%d` perform: white space
   * skipped, then `ScanSigned`. The value and the number of characters
   * consumed.
   */
  function ScanInt(s: string): (r: Option<(int, nat)>)
    ensures r.Some? ==> 0 < r.value.1 <= |s| && INT_MIN <= r.value.0 <= INT_MAX
  {
    var w := SpaceRun(s);
    match ScanSigned(s[w..])
    case Some((v, n)) => Some((v, w + n))
    case None => None
  }

  /** A digit run stops where the digits stop. */
  lemma {:induction false} DigitRunStops(d: string, rest: string)
    requires AllDigits(d)
    requires |rest| == 0 || !('0' <= rest[0] <= '9')
    ensures DigitRun(d + rest) == |d|
  {
    if |d| > 0 {
      assert (d + rest)[1..] == d[1..] + rest;
      DigitRunStops(d[1..], rest);
    } else {
      assert d + rest == rest;
    }
  }

  /** A run of white space stops where the white space stops. */
  lemma {:induction false} SpaceRunStops(w: string, rest: string)
    requires forall i :: 0 <= i < |w| ==> IsSpace(w[i])
    requires |rest| == 0 || !IsSpace(rest[0])
    ensures SpaceRun(w + rest) == |w|
  {
    if |w| > 0 {
      assert (w + rest)[1..] == w[1..] + rest;
      SpaceRunStops(w[1..], rest);
    } else {
      assert w + rest == rest;
    }
  }

  /** `std::stoi` and `%d` skip white space before what `ScanSigned` reads. */
  lemma ScanIntSkipsSpace(w: string, t: string)
    requires forall i :: 0 <= i < |w| ==> IsSpace(w[i])
    requires |t| == 0 || !IsSpace(t[0])
    ensures ScanInt(w + t) == match ScanSigned(t) case Some((v, n)) => Some((v, |w| + n)) case None => None
  {
    SpaceRunStops(w, t);
    assert (w + t)[|w|..] == t;
  }

  /** A run of digits is read up to the first non-digit. */
  lemma ScanDigitsReads(d: string, rest: string)
    requires |d| > 0 && AllDigits(d)
    requires |rest| == 0 || !('0' <= rest[0] <= '9')
    ensures ScanDigits(d + rest) == Some((DecimalValue(d), |d|))
  {
    DigitRunStops(d, rest);
    assert (d + rest)[..|d|] == d;
  }

  /** An unsigned run of digits is read up to the first non-digit. */
  lemma ScanSignedReadsDigits(d: string, rest: string)
    requires |d| > 0 && AllDigits(d) && DecimalValue(d) <= INT_MAX
    requires |rest| == 0 || !('0' <= rest[0] <= '9')
    ensures ScanSigned(d + rest) == Some((DecimalValue(d) as int, |d|))
  {
    ScanDigitsReads(d, rest);
    assert (d + rest)[0] == d[0];
  }

  /** A '-' and a run of digits are read as the negated value. */
  lemma ScanSignedReadsNegative(t: string, d: string, rest: string)
    requires |d| > 0 && AllDigits(d) && DecimalValue(d) <= -INT_MIN
    requires |rest| == 0 || !('0' <= rest[0] <= '9')
    requires |t| > 0 && t[0] == '-' && t[1..] == d + rest
    ensures ScanSigned(t) == Some((-(DecimalValue(d) as int), |d| + 1))
  {
    ScanDigitsReads(d, rest);
    ScanSignedMinus(t);
  }

  /** After a '-', the digits that follow are read and negated. */
  lemma ScanSignedMinus(t: string)
    requires |t| > 0 && t[0] == '-' && ScanDigits(t[1..]).Some? && ScanDigits(t[1..]).value.0 <= -INT_MIN
    ensures ScanSigned(t) == Some((-(ScanDigits(t[1..]).value.0 as int), ScanDigits(t[1..]).value.1 + 1))
  {
  }

  /*
   * Decimal spelling
   */

  /** The character of decimal digit `d`. */
  function Digit(d: nat): (c: char)
    requires d < 10
    ensures '0' <= c <= '9'
  {
    ('0' as int + d) as char
  }

  /** The decimal spelling of `n`, without leading zeros. */
  function Decimal(n: nat): (s: string)
    ensures |s| > 0 && AllDigits(s)
  {
    if n < 10 then [Digit(n)] else Decimal(n / 10) + [Digit(n % 10)]
  }

  /** The decimal spelling of a possibly negative number. */
  function Spelled(n: int): string
  {
    if n < 0 then "-" + Decimal(-n) else Decimal(n)
  }

  /** The digits of `Decimal(n)` are worth `n`. */
  lemma {:induction false} DecimalValueOfDecimal(n: nat)
    ensures DecimalValue(Decimal(n)) == n
  {
    var s := Decimal(n);
    if n < 10 {
      assert s[..0] == [];
    } else {
      assert s[..|s| - 1] == Decimal(n / 10);
      DecimalValueOfDecimal(n / 10);
    }
  }

  /** Every `int` spelled in decimal is read back by `ScanSigned`, whatever non-digit text follows. */
  lemma ScanSignedReadsSpelled(n: int, rest: string)
    requires INT_MIN <= n <= INT_MAX
    requires |rest| == 0 || !('0' <= rest[0] <= '9')
    ensures |Spelled(n) + rest| > 0 && !IsSpace((Spelled(n) + rest)[0])
    ensures ScanSigned(Spelled(n) + rest) == Some((n, |Spelled(n)|))
  {
    if n < 0 {
      ReadsNegativeSpelling(n, rest);
    } else {
      ReadsDigitSpelling(n, rest);
    }
  }

  lemma ReadsDigitSpelling(n: nat, rest: string)
    requires n <= INT_MAX
    requires |rest| == 0 || !('0' <= rest[0] <= '9')
    ensures |Spelled(n) + rest| > 0 && !IsSpace((Spelled(n) + rest)[0])
    ensures ScanSigned(Spelled(n) + rest) == Some((n, |Spelled(n)|))
  {
    var d := Decimal(n);
    DecimalValueOfDecimal(n);
    assert (d + rest)[0] == d[0];
    ScanSignedReadsDigits(d, rest);
  }

  lemma ReadsNegativeSpelling(n: int, rest: string)
    requires INT_MIN <= n < 0
    requires |rest| == 0 || !('0' <= rest[0] <= '9')
    ensures |Spelled(n) + rest| > 0 && !IsSpace((Spelled(n) + rest)[0])
    ensures ScanSigned(Spelled(n) + rest) == Some((n, |Spelled(n)|))
  {
    var d := Decimal(-n);
    DecimalValueOfDecimal(-n);
    NegativeSpelling(Spelled(n) + rest, d, rest);
  }

  lemma NegativeSpelling(t: string, d: string, rest: string)
    requires |d| > 0 && AllDigits(d) && DecimalValue(d) <= -INT_MIN
    requires |rest| == 0 || !('0' <= rest[0] <= '9')
    requires t == "-" + d + rest
    ensures t[0] == '-'
    ensures ScanSigned(t) == Some((-(DecimalValue(d) as int), |d| + 1))
  {
    assert t[0] == '-' && t[1..] == d + rest;
    ScanSignedReadsNegative(t, d, rest);
  }
}
