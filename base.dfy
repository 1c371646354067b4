/** Value types shared by the whole model, and the Kotlin/Java string operations
    the ONVIF client relies on (indexOf, substringBefore/After, split, replace,
    lowercase, trim, joinToString, String.toInt). */
module Base {

  datatype Option<+T> = None | Some(value: T)

  /** The exceptions the core raises or lets through, one per Java/Kotlin exception kind. */
  datatype Error =
    | XmlPull                      // XmlPullParserException: malformed input, or nextText/nextTag refused
    | NumberFormat(text: string)   // NumberFormatException from String.toInt
    | AttributeIndex               // IndexOutOfBoundsException from getAttributeValue(0)
    | UnknownFormat                // UnknownFormatConversionException from String.format
    | MissingFormatArgument        // MissingFormatArgumentException from String.format
    | AssetNotFound(name: string)  // the request template could not be opened
    | MalformedUrl                 // URL(null) in HttpUtil.postRequest
    | ResponseCode(code: int)      // HttpUtil.postRequest: status other than 200
    | Io                           // connection failure inside HttpUtil.postRequest

  datatype Result<+T> = Ok(value: T) | Err(error: Error)

  /** Kotlin's Byte: signed, 8 bits. */
  newtype JByte = x: int | -128 <= x < 128

  // ---------------------------------------------------------------------
  // Searching

  /** `p` occurs in `s` starting at position `k`. */
  predicate IsAt(s: string, p: string, k: int) {
    0 <= k && k + |p| <= |s| && s[k..k + |p|] == p
  }

  /** Java's `s.indexOf(p, from)`: the first occurrence at or after `from`, or -1. */
  function IndexOf(s: string, p: string, from: nat): (r: int)
    requires from <= |s|
    ensures r == -1 || (from <= r <= |s| - |p| && IsAt(s, p, r))
    ensures r == -1 ==> forall k :: from <= k ==> !IsAt(s, p, k)
    ensures r != -1 ==> forall k :: from <= k < r ==> !IsAt(s, p, k)
    decreases |s| - from
  {
    if from + |p| > |s| then -1
    else if s[from..from + |p|] == p then from
    else IndexOf(s, p, from + 1)
  }

  /** Kotlin's `s.contains(p)`. */
  predicate Contains(s: string, p: string) {
    IndexOf(s, p, 0) != -1
  }

  lemma ContainsIff(s: string, p: string)
    ensures Contains(s, p) <==> exists k :: IsAt(s, p, k)
  {
    if Contains(s, p) {
      var k := IndexOf(s, p, 0);
      assert IsAt(s, p, k);
    }
  }

  /** An occurrence inside a prefix is an occurrence in the whole string. */
  lemma IsAtPrefix(s: string, n: nat, p: string, k: int)
    requires n <= |s| && IsAt(s[..n], p, k)
    ensures IsAt(s, p, k)
  {
    assert s[..n][k..k + |p|] == s[k..k + |p|];
  }

  /** Kotlin's `s.substringBefore(d)`: the text before the first `d`, or all of `s`. */
  function SubstringBefore(s: string, d: string): (r: string)
    ensures r <= s
  {
    var k := IndexOf(s, d, 0);
    if k == -1 then s else s[..k]
  }

  /** Kotlin's `s.substringAfter(d)`: the text after the first `d`, or all of `s`. */
  function SubstringAfter(s: string, d: string): string {
    var k := IndexOf(s, d, 0);
    if k == -1 then s else s[k + |d|..]
  }

  /** The text `substringBefore` keeps never holds the delimiter, and it is followed
      in `s` either by the delimiter or by the end of `s`. */
  lemma {:induction false} BeforeFirst(s: string, d: string)
    requires |d| > 0
    ensures forall k :: !IsAt(SubstringBefore(s, d), d, k)
    ensures |SubstringBefore(s, d)| == |s| || IsAt(s, d, |SubstringBefore(s, d)|)
  {
    var r := SubstringBefore(s, d);
    forall k | IsAt(r, d, k) ensures false {
      assert r == s[..|r|];
      IsAtPrefix(s, |r|, d, k);
    }
  }

  /** Kotlin's `s.split(d)` for a non-empty literal delimiter (trailing empty parts kept). */
  function Split(s: string, d: string): (parts: seq<string>)
    requires |d| > 0
    ensures |parts| >= 1 && parts[0] == SubstringBefore(s, d)
    decreases |s|
  {
    var k := IndexOf(s, d, 0);
    if k == -1 then [s] else [s[..k]] + Split(s[k + |d|..], d)
  }

  /** Kotlin's `parts.joinToString(sep)`. */
  function Join(parts: seq<string>, sep: string): string {
    if |parts| == 0 then ""
    else if |parts| == 1 then parts[0]
    else parts[0] + sep + Join(parts[1..], sep)
  }

  /** Splitting and re-joining with the same delimiter gives back the text. */
  lemma {:induction false} JoinSplit(s: string, d: string)
    requires |d| > 0
    ensures Join(Split(s, d), d) == s
    decreases |s|
  {
    var k := IndexOf(s, d, 0);
    if k != -1 {
      var rest := s[k + |d|..];
      var tail := Split(rest, d);
      assert Split(s, d) == [s[..k]] + tail;
      JoinSplit(rest, d);
      JoinCons(s[..k], tail, d);
      assert s == s[..k] + d + rest by {
        assert s[k..k + |d|] == d;
      }
    }
  }

  lemma JoinCons(x: string, tail: seq<string>, d: string)
    requires |tail| >= 1
    ensures Join([x] + tail, d) == x + d + Join(tail, d)
  {
    assert ([x] + tail)[1..] == tail;
  }

  /** Joining parts free of a one-character delimiter and splitting again gives back the parts. */
  lemma {:induction false} SplitJoin(parts: seq<string>, d: string)
    requires |d| == 1 && |parts| >= 1
    requires forall i :: 0 <= i < |parts| ==> d[0] !in parts[i]
    ensures Split(Join(parts, d), d) == parts
    decreases |parts|
  {
    if |parts| == 1 {
      NoOccurrence(parts[0], d);
    } else {
      var x, tail := parts[0], parts[1..];
      var rest := Join(tail, d);
      assert parts == [x] + tail;
      JoinCons(x, tail, d);
      var s := x + d + rest;
      assert Join(parts, d) == s;
      FirstDelimiter(x, d, rest);
      assert s[..|x|] == x;
      assert s[|x| + |d|..] == rest;
      assert Split(s, d) == [x] + Split(rest, d);
      assert forall i :: 0 <= i < |tail| ==> d[0] !in tail[i];
      SplitJoin(tail, d);
    }
  }

  /** In `x + d + rest`, with `x` free of the one-character `d`, the first `d` is the one after `x`. */
  lemma FirstDelimiter(x: string, d: string, rest: string)
    requires |d| == 1 && d[0] !in x
    ensures IndexOf(x + d + rest, d, 0) == |x|
  {
    var s := x + d + rest;
    var n := |x|;
    assert IsAt(s, d, n) by {
      assert s[n..n + 1] == d;
    }
    forall k | 0 <= k < n ensures !IsAt(s, d, k) {
      assert s[k] == x[k];
      assert s[k..k + 1] == [s[k]];
    }
  }

  lemma NoOccurrence(s: string, d: string)
    requires |d| == 1 && d[0] !in s
    ensures IndexOf(s, d, 0) == -1
  {
  }

  // ---------------------------------------------------------------------
  // Rewriting

  /** Kotlin's `s.replace(p, r)` for a non-empty `p`: every non-overlapping
      occurrence, scanned left to right, is replaced. */
  function ReplaceAll(s: string, p: string, r: string): string
    requires |p| > 0
    decreases |s|
  {
    if |s| < |p| then s
    else if s[..|p|] == p then r + ReplaceAll(s[|p|..], p, r)
    else [s[0]] + ReplaceAll(s[1..], p, r)
  }

  /** Where `p` does not occur, `replace` changes nothing. */
  lemma {:induction false} ReplaceAbsent(s: string, p: string, r: string)
    requires |p| > 0 && forall k :: !IsAt(s, p, k)
    ensures ReplaceAll(s, p, r) == s
    decreases |s|
  {
    if |s| >= |p| {
      assert !IsAt(s, p, 0);
      assert s[..|p|] == s[0..|p|];
      forall k | IsAt(s[1..], p, k) ensures false {
        assert s[1..][k..k + |p|] == s[k + 1..k + 1 + |p|];
        assert IsAt(s, p, k + 1);
      }
      ReplaceAbsent(s[1..], p, r);
    }
  }

  /** Kotlin's `lowercase()`, on the ASCII letters. */
  function Lower(s: string): (r: string)
    ensures |r| == |s|
    ensures forall k :: 0 <= k < |s| ==> r[k] == LowerChar(s[k])
  {
    seq(|s|, k requires 0 <= k < |s| => LowerChar(s[k]))
  }

  function LowerChar(c: char): char {
    if 'A' <= c <= 'Z' then (c as int + 32) as char else c
  }

  /** Kotlin's `trim { it <= ' ' }`: drops leading and trailing characters at or below the space. */
  function Trim(s: string): (r: string)
    ensures |r| > 0 ==> r[0] > ' ' && r[|r| - 1] > ' '
    ensures exists a, b :: 0 <= a <= b <= |s| && r == s[a..b]
  {
    var a := FirstAbove(s, 0);
    var b := LastAbove(s, |s|);
    if a < b then s[a..b] else s[0..0]
  }

  function FirstAbove(s: string, i: nat): (k: nat)
    requires i <= |s|
    ensures i <= k <= |s| && (k < |s| ==> s[k] > ' ')
    ensures forall m :: i <= m < k ==> s[m] <= ' '
    decreases |s| - i
  {
    if i == |s| || s[i] > ' ' then i else FirstAbove(s, i + 1)
  }

  function LastAbove(s: string, j: nat): (k: nat)
    requires j <= |s|
    ensures k <= j && (k > 0 ==> s[k - 1] > ' ')
    ensures forall m :: k <= m < j ==> s[m] <= ' '
  {
    if j == 0 || s[j - 1] > ' ' then j else LastAbove(s, j - 1)
  }

  // ---------------------------------------------------------------------
  // Decimal numbers

  const IntMin: int := -0x8000_0000
  const IntMax: int := 0x7fff_ffff

  predicate IsDigit(c: char) { '0' <= c <= '9' }

  predicate AllDigits(s: string) { forall k :: 0 <= k < |s| ==> IsDigit(s[k]) }

  function DigitsValue(s: string): nat
    requires AllDigits(s)
  {
    if |s| == 0 then 0 else DigitsValue(s[..|s| - 1]) * 10 + (s[|s| - 1] as int - '0' as int)
  }

  /** The first code point of each run of ten decimal digits (general category Nd) in the
      Basic Multilingual Plane, Unicode 15.0: ASCII, Arabic-Indic, Extended Arabic-Indic, NKo,
      Devanagari, Bengali, Gurmukhi, Gujarati, Oriya, Tamil, Telugu, Kannada, Malayalam,
      Sinhala Lith, Thai, Lao, Tibetan, Myanmar, Myanmar Shan, Khmer, Mongolian, Limbu,
      New Tai Lue, Tai Tham Hora, Tai Tham Tham, Balinese, Sundanese, Lepcha, Ol Chiki, Vai,
      Saurashtra, Kayah Li, Javanese, Myanmar Tai Laing, Cham, Meetei Mayek and fullwidth. */
  const DecimalZeros: seq<int> := [
    0x0030, 0x0660, 0x06F0, 0x07C0, 0x0966, 0x09E6, 0x0A66, 0x0AE6, 0x0B66, 0x0BE6,
    0x0C66, 0x0CE6, 0x0D66, 0x0DE6, 0x0E50, 0x0ED0, 0x0F20, 0x1040, 0x1090, 0x17E0,
    0x1810, 0x1946, 0x19D0, 0x1A80, 0x1A90, 0x1B50, 0x1BB0, 0x1C40, 0x1C50, 0xA620,
    0xA8D0, 0xA900, 0xA9D0, 0xA9F0, 0xAA50, 0xABF0, 0xFF10]

  /** `c` is one of the ten digits of run `j`. */
  predicate InRun(c: char, j: nat)
    requires j < |DecimalZeros|
  {
    DecimalZeros[j] <= c as int < DecimalZeros[j] + 10
  }

  /** The digit value of `c`, looking in the runs from `j` on. */
  function DigitFrom(c: char, j: nat): (r: Option<nat>)
    requires j <= |DecimalZeros|
    ensures r.Some? ==> r.value < 10
    decreases |DecimalZeros| - j
  {
    if j == |DecimalZeros| then None
    else if InRun(c, j) then Some(c as int - DecimalZeros[j])
    else DigitFrom(c, j + 1)
  }

  /** `Character.digit(c, 10)` as `parseInt` uses it: the value of a decimal digit of any
      script, and none (-1) for every other character, including each half of a surrogate
      pair, so a digit outside the Basic Multilingual Plane is no digit. */
  function DigitValue(c: char): (r: Option<nat>)
    ensures r.Some? ==> r.value < 10
    ensures IsDigit(c) ==> r == Some(c as int - '0' as int)
  {
    DigitFrom(c, 0)
  }

  /** A character has a digit value exactly when it lies in one of the runs, and the value is
      its distance from the run's zero. */
  lemma {:induction false} DigitFromRuns(c: char, j: nat)
    requires j <= |DecimalZeros|
    ensures DigitFrom(c, j).None? <==> forall m :: j <= m < |DecimalZeros| ==> !InRun(c, m)
    ensures DigitFrom(c, j).Some? ==>
              exists m :: j <= m < |DecimalZeros| && InRun(c, m) && DigitFrom(c, j).value == c as int - DecimalZeros[m]
    decreases |DecimalZeros| - j
  {
    if j < |DecimalZeros| {
      if InRun(c, j) {
        assert DigitFrom(c, j) == Some(c as int - DecimalZeros[j]);
      } else {
        DigitFromRuns(c, j + 1);
      }
    }
  }

  predicate AllDecimal(s: string) { forall k :: 0 <= k < |s| ==> DigitValue(s[k]).Some? }

  /** The value of a run of decimal digits of any script. */
  function ParsedValue(s: string): nat
    requires AllDecimal(s)
  {
    if |s| == 0 then 0 else ParsedValue(s[..|s| - 1]) * 10 + DigitValue(s[|s| - 1]).value
  }

  /** Kotlin's `String.toInt()` (Integer.parseInt, radix 10): an optional sign, at least one
      decimal digit, and a value that fits in 32 bits; anything else is a
      NumberFormatException. */
  function ToInt(s: string): (r: Result<int>)
    ensures r.Ok? ==> IntMin <= r.value <= IntMax
    ensures r.Err? ==> r.error == NumberFormat(s)
    ensures |s| == 0 ==> r.Err?
  {
    if |s| == 0 then Err(NumberFormat(s))
    else
      var body := if s[0] == '-' || s[0] == '+' then s[1..] else s;
      if |body| == 0 || !AllDecimal(body) then Err(NumberFormat(s))
      else
        var v: int := if s[0] == '-' then -(ParsedValue(body) as int) else ParsedValue(body);
        if IntMin <= v <= IntMax then Ok(v) else Err(NumberFormat(s))
  }

  /** On ASCII digits the value `toInt` reads is the one `toString` writes. */
  lemma {:induction false} AsciiParsedValue(s: string)
    requires AllDigits(s)
    ensures AllDecimal(s) && ParsedValue(s) == DigitsValue(s)
  {
    if |s| > 0 {
      AsciiParsedValue(s[..|s| - 1]);
    }
  }

  /** A digit of another script counts as the ASCII digit of the same value: U+0663,
      ARABIC-INDIC DIGIT THREE, reads as 3. */
  lemma ArabicIndicThree(s: string)
    requires s == [0x0663 as char]
    ensures ToInt(s) == Ok(3)
  {
    assert !InRun(s[0], 0) && InRun(s[0], 1);
    assert DigitFrom(s[0], 1) == Some(3);
    assert DigitValue(s[0]) == Some(3);
    assert AllDecimal(s) && s[..0] == [];
    assert ParsedValue(s) == 3;
  }

  /** Decimal digits of `n` without padding, as Kotlin's `toString()` writes a non-negative Int. */
  function Decimal(n: nat): (r: string)
    ensures |r| >= 1 && AllDigits(r)
  {
    if n < 10 then [('0' as int + n) as char] else Decimal(n / 10) + [('0' as int + n % 10) as char]
  }

  lemma {:induction false} DecimalValue(n: nat)
    ensures DigitsValue(Decimal(n)) == n
  {
    if n >= 10 {
      DecimalValue(n / 10);
      var s := Decimal(n);
      assert s[..|s| - 1] == Decimal(n / 10);
    }
  }

  /** `toInt` reads back every non-negative 32-bit value written in decimal. */
  lemma DecimalToInt(n: nat)
    requires n <= IntMax
    ensures ToInt(Decimal(n)) == Ok(n)
  {
    DecimalValue(n);
    var s := Decimal(n);
    AsciiParsedValue(s);
    assert IsDigit(s[0]);
  }

  /** A text with no decimal digit of any script never parses as a number. */
  lemma NoDigitNoInt(s: string)
    requires forall k :: 0 <= k < |s| ==> DigitValue(s[k]).None?
    ensures ToInt(s).Err?
  {
    if |s| > 0 {
      var body := if s[0] == '-' || s[0] == '+' then s[1..] else s;
      if |body| > 0 {
        assert body[0] == s[|s| - |body|];
      }
    }
  }
}
