/**
 * The session token as the claims it carries, and the UTF-8 byte count that
 * the signing-key check is stated in. Serialisation and the HMAC-SHA-256
 * signature are not modelled.
 */
module Jwt {
  import opened Wrappers

  /** A minted token: Name and Role claims, issuer, audience and expiry (seconds). */
  datatype Token = Token(name: string, role: string, issuer: Option<string>, audience: Option<string>, expires: int)

  /** Tokens expire 20 minutes after they are minted; time is counted in seconds. */
  const TokenLifetime: int := 20 * 60

  /** The signing key must be at least 256 bits. */
  const MinKeyBytes: nat := 32

  /** Bytes UTF-8 uses for one Unicode scalar value. */
  function Utf8Size(c: char): (n: nat)
    ensures 1 <= n <= 4
    ensures n == 1 <==> c as int < 0x80
  {
    if c as int < 0x80 then 1
    else if c as int < 0x800 then 2
    else if c as int < 0x10000 then 3
    else 4
  }

  /** Length of the UTF-8 encoding of `s`: at least one and at most four bytes per character. */
  function Utf8Length(s: string): (n: nat)
    ensures |s| <= n <= 4 * |s|
  {
    if s == [] then 0 else Utf8Size(s[0]) + Utf8Length(s[1..])
  }

  lemma {:induction false} Utf8LengthAppend(a: string, b: string)
    ensures Utf8Length(a + b) == Utf8Length(a) + Utf8Length(b)
  {
    if a == [] {
      assert a + b == b;
    } else {
      assert (a + b)[1..] == a[1..] + b;
      Utf8LengthAppend(a[1..], b);
    }
  }

  predicate IsAscii(s: string)
  {
    forall i :: 0 <= i < |s| ==> s[i] as int < 0x80
  }

  /** An ASCII string encodes to one byte per character, and only an ASCII string does. */
  lemma {:induction false} AsciiLength(s: string)
    ensures Utf8Length(s) == |s| <==> IsAscii(s)
  {
    if s != [] {
      AsciiLength(s[1..]);
      assert forall i :: 1 <= i < |s| ==> s[i] == s[1..][i - 1];
    }
  }

  /** For an ASCII key, the 32-byte minimum is a 32-character minimum. */
  lemma AsciiKeyBytes(key: string)
    requires IsAscii(key)
    ensures Utf8Length(key) >= MinKeyBytes <==> |key| >= MinKeyBytes
  {
    AsciiLength(key);
  }
}
