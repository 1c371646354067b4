/** The random nonces of `Gsoap.getNonce` and `HttpUtil.generateNonce`: 32 characters, each
    drawn from the same 62-character alphabet. */
module Nonce {
  import opened Base

  /** The alphabet both nonce generators draw from: the digits, then the lower-case letters,
      then the upper-case letters, each in order (62 characters). */
  const Chars: string := Alphabet(62)

  /** The first `n` characters of the alphabet. */
  function Alphabet(n: nat): (r: string)
    ensures |r| == n && forall k :: 0 <= k < n ==> r[k] == CharAt(k)
  {
    if n == 0 then "" else Alphabet(n - 1) + [CharAt(n - 1)]
  }

  function CharAt(k: nat): char {
    if k < 10 then ('0' as int + k) as char
    else if k < 36 then ('a' as int + k - 10) as char
    else ('A' as int + (k - 36) % 26) as char
  }

  /** The nonce length. */
  const Length: nat := 32

  /** An index `text.random()` or `secureRandom.nextInt(chars.length)` can return. */
  type Draw = k: nat | k < 62

  predicate IsAlphanumeric(c: char) {
    '0' <= c <= '9' || 'a' <= c <= 'z' || 'A' <= c <= 'Z'
  }

  /** The alphabet is exactly the ASCII letters and digits. */
  lemma CharsAreAlphanumeric(k: Draw)
    ensures IsAlphanumeric(Chars[k])
  {
  }

  /** Its ends, as in the source's literal. */
  lemma CharsExamples()
    ensures Chars[0] == '0' && Chars[9] == '9' && Chars[10] == 'a' && Chars[35] == 'z'
    ensures Chars[36] == 'A' && Chars[61] == 'Z'
  {
  }

  /** The draw that picks the character `c`. */
  function DrawOf(c: char): (k: Draw)
    requires IsAlphanumeric(c)
    ensures Chars[k] == c
  {
    if c <= '9' then c as int - '0' as int
    else if 'a' <= c then c as int - 'a' as int + 10
    else c as int - 'A' as int + 36
  }

  /** The nonce the draws `random(0)`, ..., `random(31)` make, in that order. */
  function NonceOf(random: nat -> Draw): (r: string)
    ensures |r| == Length
    ensures forall k :: 0 <= k < Length ==> r[k] == Chars[random(k)]
  {
    seq(Length, k requires 0 <= k => Chars[random(k)])
  }

  /** Every nonce is 32 letters and digits. */
  lemma NonceIsAlphanumeric(random: nat -> Draw)
    ensures forall k :: 0 <= k < |NonceOf(random)| ==> IsAlphanumeric(NonceOf(random)[k])
  {
    forall k | 0 <= k < Length ensures IsAlphanumeric(NonceOf(random)[k]) {
      CharsAreAlphanumeric(random(k));
    }
  }

  /** And every 32-character string of letters and digits is a nonce some draws make. */
  lemma EveryNonceReachable(s: string)
    requires |s| == Length && forall k :: 0 <= k < |s| ==> IsAlphanumeric(s[k])
    ensures exists random: nat -> Draw :: NonceOf(random) == s
  {
    var random := (k: nat) => if k < |s| then DrawOf(s[k]) else 0;
    assert NonceOf(random) == s;
  }
}
