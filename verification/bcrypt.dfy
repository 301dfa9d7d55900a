/**
 * The password hasher: BCrypt.Net's `HashPassword` and `Verify`, idealised.
 *
 * A bcrypt hash string is a header naming the algorithm revision and the work
 * factor, a 22-character salt and a digest. The salt is random, so it is a
 * parameter here. The digest is modelled by a collision-free stand-in
 * (`Digest`); the one-wayness and cost of the real key derivation are not
 * modelled.
 */
module BCrypt {

  /** Revision 2a, work factor 11: the library's defaults when none is given. */
  const Header: string := "$2a$11$"

  const SaltLength: nat := 22

  /** The salt `HashPassword` draws at random. */
  type Salt = s: string | |s| == SaltLength witness "ABCDEFGHIJKLMNOPQRSTUV"

  /** Idealised digest: distinct passwords give distinct digests. */
  function Digest(password: string): string
  {
    password
  }

  /** A string laid out as a bcrypt hash: header, then at least a salt's worth of characters. */
  predicate WellFormed(h: string)
  {
    |h| >= |Header| + SaltLength && h[..|Header|] == Header
  }

  /** The salt embedded in a well-formed hash. */
  function SaltOf(h: string): string
    requires WellFormed(h)
  {
    h[|Header|..|Header| + SaltLength]
  }

  /** Hash a password under a salt; the result is never the password itself and always verifies it. */
  function HashPassword(password: string, salt: Salt): (h: string)
    ensures WellFormed(h) && SaltOf(h) == salt
    ensures Verify(password, h)
    ensures h != password
  {
    var h := Header + salt + Digest(password);
    assert h[..|Header|] == Header;
    assert h[|Header|..|Header| + SaltLength] == salt;
    assert h[|Header| + SaltLength..] == Digest(password);
    h
  }

  /**
   * Recompute the digest of `password` with the salt embedded in `h` and
   * compare. A malformed hash fails closed.
   */
  predicate Verify(password: string, h: string)
  {
    WellFormed(h) && h[|Header| + SaltLength..] == Digest(password)
  }

  /** Only the password that was hashed verifies against the hash. */
  lemma VerifyOnlyHashedPassword(password: string, other: string, salt: Salt)
    ensures Verify(other, HashPassword(password, salt)) <==> other == password
  {
  }

  /** Self-salting: the same password hashed under two salts gives two different hashes. */
  lemma SaltedHashesDiffer(password: string, s1: Salt, s2: Salt)
    requires s1 != s2
    ensures HashPassword(password, s1) != HashPassword(password, s2)
  {
  }
}
