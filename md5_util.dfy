/** `MD5Util`: lower-case hexadecimal text of bytes, and `MD5Encode`. */
module Md5Util {
  import opened Base
  import opened Primitives

  /** The `hexDigits` table. */
  const HexDigits: string := "0123456789abcdef"

  predicate IsHexDigit(c: char) {
    '0' <= c <= '9' || 'a' <= c <= 'f'
  }

  predicate IsLowerHex(s: string) {
    forall k :: 0 <= k < |s| ==> IsHexDigit(s[k])
  }

  /** The position of a hexadecimal digit in the table. */
  function HexValue(c: char): (v: nat)
    requires IsHexDigit(c)
    ensures v < 16 && HexDigits[v] == c
  {
    if c <= '9' then c as int - '0' as int else c as int - 'a' as int + 10
  }

  /** `byteToHexString`'s `n`: the byte read as unsigned. */
  function Unsigned(b: JByte): (n: nat)
    ensures n < 256
    ensures n == b as int || n == b as int + 256
  {
    if b < 0 then b as int + 256 else b as int
  }

  /** The byte whose unsigned reading is `n`. */
  function Signed(n: nat): (b: JByte)
    requires n < 256
    ensures Unsigned(b) == n
  {
    if n >= 128 then (n - 256) as JByte else n as JByte
  }

  /** The table's entry `k` is a digit of value `k`. */
  lemma HexDigitValue(k: nat)
    requires k < 16
    ensures IsHexDigit(HexDigits[k]) && HexValue(HexDigits[k]) == k
  {
  }

  /** `byteToHexString(b)`: two lower-case hexadecimal digits whose value is the unsigned byte. */
  function ByteToHex(b: JByte): (r: string)
    ensures |r| == 2 && IsLowerHex(r)
    ensures HexValue(r[0]) * 16 + HexValue(r[1]) == Unsigned(b)
  {
    var n := Unsigned(b);
    var hi, lo := n / 16, n % 16;
    assert n == hi * 16 + lo && hi < 16;
    HexDigitValue(hi);
    HexDigitValue(lo);
    [HexDigits[hi], HexDigits[lo]]
  }

  /** The two examples of the byte table: -1 is "ff" and 0 is "00". */
  lemma ByteToHexExamples()
    ensures ByteToHex(-1) == "ff" && ByteToHex(0) == "00" && ByteToHex(-128) == "80"
  {
  }

  /** What `byteArrayToHexString(bytes)` returns: the digits of each byte, in order. */
  function HexOf(bytes: Bytes): (r: string)
    ensures |r| == 2 * |bytes| && IsLowerHex(r)
  {
    if |bytes| == 0 then "" else HexOf(bytes[..|bytes| - 1]) + ByteToHex(bytes[|bytes| - 1])
  }

  /** `byteArrayToHexString(bytes)`: appends the digits of each byte to a builder. */
  method ByteArrayToHex(bytes: Bytes) returns (r: string)
    ensures r == HexOf(bytes)
  {
    r := "";
    for i := 0 to |bytes|
      invariant r == HexOf(bytes[..i])
    {
      assert bytes[..i + 1][..i] == bytes[..i];
      r := r + ByteToHex(bytes[i]);
    }
    assert bytes[..|bytes|] == bytes;
  }

  /** Reads hexadecimal text back, two digits per byte. */
  function Unhex(s: string): (bytes: Bytes)
    requires |s| % 2 == 0 && IsLowerHex(s)
    ensures |bytes| * 2 == |s|
  {
    if |s| == 0 then []
    else Unhex(s[..|s| - 2]) + [Signed(HexValue(s[|s| - 2]) * 16 + HexValue(s[|s| - 1]))]
  }

  /** Two digits with value `n` are read back as the byte whose unsigned reading is `n`. */
  lemma SignedUnsigned(b: JByte)
    ensures Signed(Unsigned(b)) == b
  {
  }

  /** Hexadecimal text followed by hexadecimal text is hexadecimal text. */
  lemma LowerHexConcat(t: string, h: string)
    requires IsLowerHex(t) && IsLowerHex(h)
    ensures IsLowerHex(t + h)
  {
    var s := t + h;
    forall k | 0 <= k < |s|
      ensures IsHexDigit(s[k])
    {
      if k < |t| { assert s[k] == t[k]; } else { assert s[k] == h[k - |t|]; }
    }
  }

  /** Reading text followed by two digits reads the text, then the byte of those digits. */
  lemma UnhexAppend(t: string, h: string)
    requires |t| % 2 == 0 && IsLowerHex(t) && |h| == 2 && IsLowerHex(h)
    ensures IsLowerHex(t + h) && Unhex(t + h) == Unhex(t) + [Signed(HexValue(h[0]) * 16 + HexValue(h[1]))]
  {
    var s := t + h;
    LowerHexConcat(t, h);
    assert s[..|s| - 2] == t;
    assert s[|s| - 2] == h[0] && s[|s| - 1] == h[1];
  }

  /** The text of a non-empty array is that of all but its last byte, then the last byte's
      digits; reading it back adds that byte to what the shorter text reads as. */
  lemma UnhexTurn(bytes: Bytes) returns (init: Bytes)
    requires |bytes| > 0
    ensures bytes == init + [bytes[|bytes| - 1]] && |init| < |bytes|
    ensures Unhex(HexOf(init)) == init ==> Unhex(HexOf(bytes)) == bytes
  {
    init := bytes[..|bytes| - 1];
    var last := bytes[|bytes| - 1];
    var h := ByteToHex(last);
    UnhexAppend(HexOf(init), h);
    SignedUnsigned(last);
    assert Signed(HexValue(h[0]) * 16 + HexValue(h[1])) == last;
  }

  /** Hexadecimal text loses nothing: reading it back gives the bytes. */
  lemma {:induction false} UnhexHexOf(bytes: Bytes)
    ensures Unhex(HexOf(bytes)) == bytes
    decreases |bytes|
  {
    if |bytes| > 0 {
      var init := UnhexTurn(bytes);
      UnhexHexOf(init);
    }
  }

  /** Different byte arrays never give the same text. */
  lemma HexOfInjective(a: Bytes, b: Bytes)
    requires HexOf(a) == HexOf(b)
    ensures a == b
  {
    UnhexHexOf(a);
    UnhexHexOf(b);
  }

  /** What `MD5Encode(origin)` returns: the hexadecimal MD5 of the string's bytes, or `origin`
      itself when no MD5 implementation is available. */
  function Md5Of(lib: Library, origin: string): (r: string)
    ensures lib.md5.None? ==> r == origin
    ensures lib.md5.Some? ==> var d := lib.md5.value(lib.utf8(origin));
      |r| == 2 * |d| && IsLowerHex(r) && Unhex(r) == d
  {
    if lib.md5.None? then origin
    else
      var d := lib.md5.value(lib.utf8(origin));
      UnhexHexOf(d);
      HexOf(d)
  }

  /** `MD5Encode(origin)`: starts from `origin` and replaces it by the digest's text when the
      digest can be made. */
  method Md5Encode(lib: Library, origin: string) returns (resultString: string)
    ensures resultString == Md5Of(lib, origin)
  {
    resultString := origin;
    if lib.md5.Some? {
      var md := lib.md5.value;
      resultString := ByteArrayToHex(md(lib.utf8(resultString)));
    }
  }
}
