/** `Gsoap`: the WS-Security UsernameToken password digest (section 3.1 of the OASIS Web
    Services Security UsernameToken Profile 1.0),
    `Base64(SHA-1(Base64-decode(nonce) + created + password))`. */
module Gsoap {
  import opened Base
  import opened Primitives
  import opened Nonce

  /** `Digest(nonce, createdTime, userName, encodePsw)`. */
  datatype Digest = Digest(nonce: string, createdTime: string, userName: string, encodePsw: string)

  /** The clock reading `Date()` gives, in the default time zone (hour 0-23). */
  datatype LocalTime = LocalTime(year: nat, month: nat, day: nat, hour: nat, minute: nat, second: nat)

  predicate ValidTime(t: LocalTime) {
    1 <= t.month <= 12 && 1 <= t.day <= 31 && t.hour < 24 && t.minute < 60 && t.second < 60
  }

  function Pow10(n: nat): (r: nat)
    ensures r >= 1
  {
    if n == 0 then 1 else 10 * Pow10(n - 1)
  }

  /** A SimpleDateFormat number field: the decimal digits of `n`, padded with zeros on the left to
      at least `width` digits. */
  function Padded(n: nat, width: nat): (r: string)
    ensures |r| >= 1 && |r| >= width && AllDigits(r)
    decreases n, width
  {
    var last := [('0' as int + n % 10) as char];
    if n < 10 && width <= 1 then last
    else Padded(n / 10, if width == 0 then 0 else width - 1) + last
  }

  /** The padded digits read back as `n`, and take exactly `width` places when `n` fits. */
  lemma {:induction false} PaddedValue(n: nat, width: nat)
    ensures DigitsValue(Padded(n, width)) == n
    ensures 1 <= width && n < Pow10(width) ==> |Padded(n, width)| == width
    decreases n, width
  {
    var r := Padded(n, width);
    if !(n < 10 && width <= 1) {
      var w := if width == 0 then 0 else width - 1;
      PaddedValue(n / 10, w);
      assert r[..|r| - 1] == Padded(n / 10, w);
      if 1 <= width && n < Pow10(width) {
        assert Pow10(width) == 10 * Pow10(w);
        assert n / 10 < Pow10(w);
      }
    }
  }

  /** The `hh` field: the hour of a 12-hour clock, 12 for midnight and noon. */
  function Hour12(hour: nat): (h: nat)
    ensures 1 <= h <= 12
  {
    if hour % 12 == 0 then 12 else hour % 12
  }

  /** `SimpleDateFormat("yyyy-MM-dd'T'hh:mm:ss'Z'").format(now)`. */
  function CreatedTime(t: LocalTime): string {
    DatePart(t) + TimePart(t)
  }

  /** `yyyy-MM-dd'T'` */
  function DatePart(t: LocalTime): string {
    Fields(Padded(t.year, 4), '-', Padded(t.month, 2), '-', Padded(t.day, 2), 'T')
  }

  /** `hh:mm:ss'Z'` */
  function TimePart(t: LocalTime): string {
    Fields(Padded(Hour12(t.hour), 2), ':', Padded(t.minute, 2), ':', Padded(t.second, 2), 'Z')
  }

  /** Three fields, each followed by its separator. */
  function Fields(a: string, x: char, b: string, y: char, c: string, z: char): string {
    a + [x] + b + [y] + c + [z]
  }

  /** Where each field and separator of `Fields` sits. */
  lemma FieldsAt(a: string, x: char, b: string, y: char, c: string, z: char)
    ensures var s := Fields(a, x, b, y, c, z);
      |s| == |a| + |b| + |c| + 3 && s[..|a|] == a && s[|a|] == x &&
      s[|a| + 1..|a| + 1 + |b|] == b && s[|a| + 1 + |b|] == y &&
      s[|a| + 2 + |b|..|a| + 2 + |b| + |c|] == c && s[|s| - 1] == z
  {
  }

  /** `s[from..to]` is a run of digits whose value is `v`. */
  predicate FieldIs(s: string, from: nat, to: nat, v: nat) {
    from <= to <= |s| && AllDigits(s[from..to]) && DigitsValue(s[from..to]) == v
  }

  /** The fields of a three-field text, read back. */
  lemma {:induction false} FieldValues(a: string, x: char, b: string, y: char, c: string, z: char, va: nat, vb: nat, vc: nat)
    requires AllDigits(a) && AllDigits(b) && AllDigits(c)
    requires DigitsValue(a) == va && DigitsValue(b) == vb && DigitsValue(c) == vc
    ensures var s := Fields(a, x, b, y, c, z);
      FieldIs(s, 0, |a|, va) && s[|a|] == x &&
      FieldIs(s, |a| + 1, |a| + 1 + |b|, vb) && s[|a| + 1 + |b|] == y &&
      FieldIs(s, |a| + 2 + |b|, |a| + 2 + |b| + |c|, vc) && |s| == |a| + |b| + |c| + 3 && s[|s| - 1] == z
  {
    FieldsAt(a, x, b, y, c, z);
  }

  /** A field of a text is the same field, shifted, in a longer text. */
  lemma FieldShift(p: string, s: string, from: nat, to: nat, v: nat)
    requires FieldIs(s, from, to, v)
    ensures FieldIs(p + s, |p| + from, |p| + to, v)
  {
    assert (p + s)[|p| + from..|p| + to] == s[from..to];
  }

  lemma FieldPrefix(s: string, q: string, from: nat, to: nat, v: nat)
    requires FieldIs(s, from, to, v)
    ensures FieldIs(s + q, from, to, v)
  {
    assert (s + q)[from..to] == s[from..to];
  }

  /** For a year of four digits the text has twenty characters: the separators at fixed places,
      and each field reading back as the year, month, day, 12-hour clock hour, minute and second;
      the `Z` is a literal, not a time zone. */
  lemma CreatedTimeFields(t: LocalTime)
    requires ValidTime(t) && t.year < 10000
    ensures var s := CreatedTime(t);
      |s| == 20 && s[4] == '-' && s[7] == '-' && s[10] == 'T' && s[13] == ':' && s[16] == ':' && s[19] == 'Z' &&
      FieldIs(s, 0, 4, t.year) && FieldIs(s, 5, 7, t.month) && FieldIs(s, 8, 10, t.day) &&
      FieldIs(s, 11, 13, Hour12(t.hour)) && FieldIs(s, 14, 16, t.minute) && FieldIs(s, 17, 19, t.second)
  {
    var date := DatePart(t);
    var time := TimePart(t);
    DateFields(t);
    TimeFields(t);
    FieldPrefix(date, time, 0, 4, t.year);
    FieldPrefix(date, time, 5, 7, t.month);
    FieldPrefix(date, time, 8, 10, t.day);
    FieldShift(date, time, 0, 2, Hour12(t.hour));
    FieldShift(date, time, 3, 5, t.minute);
    FieldShift(date, time, 6, 8, t.second);
  }

  lemma DateFields(t: LocalTime)
    requires ValidTime(t) && t.year < 10000
    ensures var s := DatePart(t);
      |s| == 11 && s[4] == '-' && s[7] == '-' && s[10] == 'T' &&
      FieldIs(s, 0, 4, t.year) && FieldIs(s, 5, 7, t.month) && FieldIs(s, 8, 10, t.day)
  {
    PaddedValue(t.year, 4);
    PaddedValue(t.month, 2);
    PaddedValue(t.day, 2);
    FieldValues(Padded(t.year, 4), '-', Padded(t.month, 2), '-', Padded(t.day, 2), 'T', t.year, t.month, t.day);
  }

  lemma TimeFields(t: LocalTime)
    requires ValidTime(t)
    ensures var s := TimePart(t);
      |s| == 9 && s[2] == ':' && s[5] == ':' && s[8] == 'Z' &&
      FieldIs(s, 0, 2, Hour12(t.hour)) && FieldIs(s, 3, 5, t.minute) && FieldIs(s, 6, 8, t.second)
  {
    PaddedValue(Hour12(t.hour), 2);
    PaddedValue(t.minute, 2);
    PaddedValue(t.second, 2);
    FieldValues(Padded(Hour12(t.hour), 2), ':', Padded(t.minute, 2), ':', Padded(t.second, 2), 'Z',
                Hour12(t.hour), t.minute, t.second);
  }

  /** With no AM/PM marker, a time before noon and the time twelve hours later give the same text. */
  lemma CreatedTimeTwelveHoursApart(t: LocalTime)
    requires t.hour < 12
    ensures CreatedTime(t) == CreatedTime(t.(hour := t.hour + 12))
  {
  }

  /** `getNonce()`: 32 draws from the alphabet, joined. */
  function GetNonce(random: nat -> Draw): (r: string)
    ensures |r| == Length && forall k :: 0 <= k < |r| ==> IsAlphanumeric(r[k])
  {
    NonceIsAlphanumeric(random);
    NonceOf(random)
  }

  /** A `MessageDigest`: the bytes passed to `update` since the last `digest()`, and the hash it
      applies to them. */
  class MessageDigest {
    const hash: Bytes -> Bytes
    var input: Bytes

    constructor (hash: Bytes -> Bytes)
      ensures this.hash == hash && input == []
    {
      this.hash := hash;
      input := [];
    }

    /** `update(bytes)`. */
    method Update(bytes: Bytes)
      modifies this
      ensures input == old(input) + bytes
    {
      input := input + bytes;
    }

    /** `digest()`: the hash of everything passed in, after which the digest starts over. */
    method Digest() returns (r: Bytes)
      modifies this
      ensures r == hash(old(input)) && input == []
    {
      r := hash(input);
      input := [];
    }
  }

  /** The password digest for a nonce, a creation time and a password, or None when SHA-1 is
      unavailable or the nonce is not Base64 text. */
  function PasswordDigest(lib: Library, nonce: string, created: string, psw: string): Option<string> {
    if lib.sha1.None? then None
    else
      match lib.base64Decode(lib.utf8(nonce))
      case None => None
      case Some(decoded) =>
        Some(Trim(lib.base64Encode(lib.sha1.value(decoded + lib.utf8(created) + lib.utf8(psw)))))
  }

  /** What `getDigest(userName, psw)` returns, given the nonce draws and the clock reading. */
  function DigestOf(lib: Library, userName: string, psw: string, random: nat -> Draw, now: LocalTime): Option<Digest> {
    var nonce := GetNonce(random);
    var time := CreatedTime(now);
    match PasswordDigest(lib, nonce, time, psw)
    case None => None
    case Some(encoded) => Some(Digest(nonce, time, userName, encoded))
  }

  /** `getDigest(userName, psw)`: feeds the decoded nonce, the time and the password to SHA-1,
      in that order; an exception on the way gives null. */
  method GetDigest(lib: Library, userName: string, psw: string, random: nat -> Draw, now: LocalTime)
    returns (r: Option<Digest>)
    ensures r == DigestOf(lib, userName, psw, random, now)
  {
    var nonce := GetNonce(random);
    var time := CreatedTime(now);
    if lib.sha1.None? {
      return None;
    }
    var md := new MessageDigest(lib.sha1.value);
    var decodedNonce := lib.base64Decode(lib.utf8(nonce));
    if decodedNonce.None? {
      return None;
    }
    var dateBytes := lib.utf8(time);
    var passwordBytes := lib.utf8(psw);
    md.Update(decodedNonce.value);
    md.Update(dateBytes);
    md.Update(passwordBytes);
    assert md.input == decodedNonce.value + dateBytes + passwordBytes;
    var hashedBytes := md.Digest();
    var result := Trim(lib.base64Encode(hashedBytes));
    return Some(Digest(nonce, time, userName, result));
  }

  /** A digest carries the raw nonce (32 letters and digits), the time text that was hashed and
      the user name as given; its password digest is trimmed. The receiving side, recomputing
      the digest from the nonce, the time and the password, finds the same value. It is null
      exactly when SHA-1 is unavailable or the nonce does not decode. */
  lemma DigestProperties(lib: Library, userName: string, psw: string, random: nat -> Draw, now: LocalTime)
    ensures var r := DigestOf(lib, userName, psw, random, now);
      (r.None? <==> lib.sha1.None? || lib.base64Decode(lib.utf8(NonceOf(random))).None?) &&
      (r.Some? ==>
        r.value.nonce == NonceOf(random) && |r.value.nonce| == Length &&
        (forall k :: 0 <= k < Length ==> IsAlphanumeric(r.value.nonce[k])) &&
        r.value.createdTime == CreatedTime(now) && r.value.userName == userName &&
        (|r.value.encodePsw| > 0 ==> r.value.encodePsw[0] > ' ' && r.value.encodePsw[|r.value.encodePsw| - 1] > ' ') &&
        PasswordDigest(lib, r.value.nonce, r.value.createdTime, psw) == Some(r.value.encodePsw))
  {
  }
}
