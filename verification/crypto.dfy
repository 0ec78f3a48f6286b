/** bcrypt and JWT, which the backend calls through passlib and python-jose.
    Neither algorithm is modelled: the four primitives are parameters, and
    the only facts assumed of them are stated as predicates that the lemmas
    needing them take as preconditions. */
module Crypto {

  import opened Wrappers

  /** The claims of an access token: `sub` (absent when the token carries
      none) and the expiry `exp` in seconds since the epoch. */
  datatype Claims = Claims(sub: Option<string>, exp: int)

  /** `get_password_hash`, `verify_password`, `jwt.encode` and
      `jwt.decode` with the server's secret and algorithm fixed. `decode`
      is given the current time because python-jose rejects expired
      tokens. */
  datatype Primitives = Primitives(
    hash: string -> string,
    verify: (string, string) -> bool,
    encode: Claims -> string,
    decode: (string, int) -> Option<Claims>)

  /** A token that has not expired decodes to the claims it was made from. */
  ghost predicate TokensRoundTrip(p: Primitives) {
    forall c: Claims, now: int :: now <= c.exp ==> p.decode(p.encode(c), now) == Some(c)
  }

  /** A password verifies against its own hash. */
  ghost predicate HashesVerify(p: Primitives) {
    forall pw: string :: p.verify(pw, p.hash(pw))
  }
}
