/**
 * The token layer as the handlers see it. Signing, verification, expiry and
 * password hashing are foreign calls: a decoded token is its claims map, or
 * None where `decode_token` raises `JWTError`, and password checking is a
 * predicate the caller passes in.
 */
module Auth {
  import opened Base

  /** The payload of a decoded token; only string-valued claims are modelled. */
  type Claims = map<string, string>

  /** `payload.get(key)`. */
  function Claim(c: Claims, key: string): (r: Option<string>)
    ensures r.Some? <==> key in c
    ensures r.Some? ==> r.value == c[key]
  {
    if key in c then Some(c[key]) else None
  }

  /** The data `login` hands to `create_access_token` (the `exp` claim added there is not modelled). */
  function AccessClaims(email: string, role: string): (c: Claims)
    ensures c.Keys == {"sub", "role", "email"}
    ensures Claim(c, "sub") == Some(email) && Claim(c, "email") == Some(email)
    ensures Claim(c, "role") == Some(role)
  {
    map["sub" := email, "role" := role, "email" := email]
  }
}
