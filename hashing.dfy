/**
 * The password-hashing primitive (BCrypt.Net), kept abstract.
 *
 * Nothing about the digest algorithm is modelled. A hasher is a pair of functions:
 * `hash(password, salt)` produces the stored hash string and `verify(password, hash)`
 * checks a submitted password against it. The salt is the random input of
 * `HashPassword`, passed in explicitly. The single fact assumed of the primitive is
 * the one every caller relies on: a password verifies against a hash freshly made from it.
 */
module Hashing {

  type Password = string
  type Hash = string
  type Salt = seq<bv8>

  datatype Hasher = Hasher(hash: (Password, Salt) -> Hash, verify: (Password, Hash) -> bool)

  /** A freshly computed hash verifies the password it was computed from, for every salt. */
  ghost predicate Sound(h: Hasher) {
    forall p: Password, s: Salt :: h.verify(p, h.hash(p, s))
  }

  /** The hashers that behave as BCrypt's HashPassword/Verify pair does. */
  type Bcrypt = h: Hasher | Sound(h)
    witness Hasher((p: Password, s: Salt) => "", (p: Password, d: Hash) => true)

}
