/**
 * bcryptjs, reduced to what the handlers rely on: bcrypt reads at most the
 * first 72 bytes of a password, so `hash` yields a digest that `compare`
 * accepts for every password with the same first 72 bytes and for no other.
 * A character of the model stands for one byte. Salts, the work factor and
 * hash collisions are not modelled.
 */
module Bcrypt {

  /** The number of password bytes bcrypt reads. */
  const MaxPasswordBytes: nat := 72

  /** The part of a password that bcrypt reads. */
  function Significant(password: string): (s: string)
    ensures |s| <= MaxPasswordBytes && s <= password
    ensures |password| <= MaxPasswordBytes ==> s == password
    ensures |password| > MaxPasswordBytes ==> |s| == MaxPasswordBytes
  {
    if |password| <= MaxPasswordBytes then password else password[..MaxPasswordBytes]
  }

  /**
   * A password digest, a type of its own so that a record's password field
   * never holds a plaintext string. It is a plain value that keeps the
   * significant part of the password, so that Compare has a definition; the
   * handlers never read it.
   */
  datatype Digest = Digest(significant: string)

  /** bcrypt.compare(password, digest) */
  predicate Compare(password: string, digest: Digest)
  {
    digest.significant == Significant(password)
  }

  /** bcrypt.hash(password, 10) */
  function Hash(password: string): (d: Digest)
    ensures Compare(password, d)
    ensures forall other :: Compare(other, d) <==> Significant(other) == Significant(password)
  {
    Digest(Significant(password))
  }

  /** Two passwords that agree on their first 72 bytes are interchangeable. */
  lemma LongPasswordsCollide(password: string, other: string)
    requires |password| >= MaxPasswordBytes && |other| >= MaxPasswordBytes
    requires password[..MaxPasswordBytes] == other[..MaxPasswordBytes]
    ensures Compare(other, Hash(password))
  {
  }
}

/**
 * jsonwebtoken, reduced to what the handlers and the middleware observe.
 * Signatures, secrets and the seven-day expiry claim are not modelled.
 */
module Jwt {

  /** jwt.sign({ id }, secret, { expiresIn: "7d" }) */
  datatype Token = Signed(id: string)

  /**
   * What jwt.verify(token, secret) does with a given token: it returns the
   * decoded payload, of which only `id` is read ("" stands for a falsy decoded
   * value or a payload whose `id` is missing or falsy), or it throws an error
   * whose `name` the middleware inspects.
   */
  datatype Verification = Decoded(id: string) | Threw(name: string)
}
