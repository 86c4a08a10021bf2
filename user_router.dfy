/**
 * The user endpoint `/me`: a resolver that accepts only user-role tokens and
 * looks the user up by the token's `email` claim, not its subject. `me`
 * returns the resolved row unchanged.
 */
module UserRouter {
  import opened Base
  import opened Models
  import opened Auth
  import opened Crud

  const NotAuthorized := HttpError(403, "Not authorized")
  const UserNotFound := HttpError(404, "User not found")
  const CouldNotValidate := HttpError(403, "Could not validate credentials")

  /**
   * `get_user_from_token` on a decoded token (None: `decode_token` raised).
   * A token without an `email` claim filters on NULL, which no row matches
   * because the column is NOT NULL.
   */
  function GetUserFromToken(users: seq<User>, decoded: Option<Claims>): (r: Result<User>)
    ensures decoded.None? ==> r == Err(CouldNotValidate)
    ensures decoded.Some? && Claim(decoded.value, "role") != Some("user") ==> r == Err(NotAuthorized)
    ensures r == Err(UserNotFound) <==>
              && decoded.Some? && Claim(decoded.value, "role") == Some("user")
              && forall u :: u in users ==> Claim(decoded.value, "email") != Some(u.email)
    ensures r.Ok? ==>
              && r.value in users
              && decoded.Some? && Claim(decoded.value, "role") == Some("user")
              && Claim(decoded.value, "email") == Some(r.value.email)
    ensures decoded.Some? && Claim(decoded.value, "role") == Some("user")
            && (exists u :: u in users && Claim(decoded.value, "email") == Some(u.email)) ==>
              r.Ok?
  {
    match decoded
    case None => Err(CouldNotValidate)
    case Some(payload) =>
      if Claim(payload, "role") != Some("user") then Err(NotAuthorized)
      else
        match Claim(payload, "email")
        case None => Err(UserNotFound)
        case Some(email) =>
          match UserByEmail(users, email)
          case None => Err(UserNotFound)
          case Some(u) => Ok(u)
  }

  /** The lookup key is the `email` claim: the subject plays no part. */
  lemma EmailClaimNotSubject(users: seq<User>, c: Claims, d: Claims)
    requires Claim(c, "role") == Claim(d, "role") && Claim(c, "email") == Claim(d, "email")
    ensures GetUserFromToken(users, Some(c)) == GetUserFromToken(users, Some(d))
  {
  }

  /** A token naming a registered user only in its subject is not enough. */
  lemma SubjectAloneNotFound(users: seq<User>, u: User)
    requires u in users
    ensures GetUserFromToken(users, Some(map["sub" := u.email, "role" := "user"])) == Err(UserNotFound)
  {
    var c := map["sub" := u.email, "role" := "user"];
    assert "email" !in c;
  }
}
