/**
 * The credential verifier (backend/auth.py, `verify_password` and `get_password_hash`).
 * bcrypt is a foreign library; it is modelled as a symbolic digest that remembers the
 * password it was made from, so that verification succeeds for exactly that password.
 * The digest has its own type, so a stored hash can never be a plain password.
 */
module Passwords {

  datatype PasswordHash = Bcrypt(digestOf: string)

  /** `get_password_hash`. */
  function HashPassword(password: string): PasswordHash
  {
    Bcrypt(password)
  }

  /** `verify_password`. */
  predicate VerifyPassword(plain: string, hashed: PasswordHash)
  {
    hashed.digestOf == plain
  }

  /** A hash verifies exactly the password it was computed from. */
  lemma HashVerifiesOnlyItsPassword(plain: string, password: string)
    ensures VerifyPassword(plain, HashPassword(password)) <==> plain == password
  {
  }
}
