/** The password hasher (bcrypt's hashSync / compareSync), kept abstract:
    a digest remembers what it was made from and under which salt, and the
    only question the rest of the model may ask of it is Matches. */
module Bcrypt {

  /** A value stored in a password or refresh-token column. `Unparsable`
      is any string that is not a bcrypt digest, such as the empty string. */
  datatype Digest<T> = Unparsable(text: string) | Salted(salt: nat, secret: T)

  /** compareSync(plain, digest): false, never an exception, on a string that
      is not a digest. */
  predicate Matches<T(==)>(plain: T, d: Digest<T>)
    ensures Matches(plain, d) ==> d.Salted? && d.secret == plain
    ensures d.Unparsable? ==> !Matches(plain, d)
  {
    d.Salted? && d.secret == plain
  }

  /** hashSync(plain, 10) with the random salt passed in. A digest matches
      exactly the plaintext it was made from, whatever the salt. */
  function Hash<T(==,!new)>(plain: T, salt: nat): (d: Digest<T>)
    ensures forall p :: Matches(p, d) <==> p == plain
    ensures d != Unparsable("")
  {
    Salted(salt, plain)
  }

  /** Hashing the same plaintext under two salts yields two digests that
      both match it. */
  lemma SaltedDigestsDiffer<T(!new)>(plain: T, s1: nat, s2: nat)
    requires s1 != s2
    ensures Hash(plain, s1) != Hash(plain, s2)
    ensures Matches(plain, Hash(plain, s1)) && Matches(plain, Hash(plain, s2))
  {
  }
}
