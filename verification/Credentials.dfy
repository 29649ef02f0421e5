/** Secrets as the services see them: random strings, kept only as salted hashes. */
module Credentials {

  /** A salted bcrypt hash: it verifies the secret it was made from, and no other. */
  datatype Hash = Hash(secret: string, salt: nat)

  predicate Verifies(secret: string, h: Hash) {
    h.secret == secret
  }

  /** The first 12 characters of a bearer token. */
  function Prefix(secret: string): string {
    if |secret| <= 12 then secret else secret[..12]
  }
}
