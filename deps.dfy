/**
 * `get_current_user`, the dependency every expense endpoint uses: it accepts
 * any decodable token with a subject and looks the subject up in the User
 * table first and the Admin table second. The `role` claim is never read.
 */
module Deps {
  import opened Base
  import opened Models
  import opened Auth
  import opened Crud

  const VerificationFailed := HttpError(401, "Token verification failed")
  const InvalidToken := HttpError(401, "Invalid token")
  const UserNotFound := HttpError(404, "User not found")

  /** The principal a decoded token (None: `decode_token` raised) stands for. */
  function GetCurrentUser(users: seq<User>, admins: seq<Admin>, decoded: Option<Claims>): (r: Result<Principal>)
    ensures decoded.None? ==> r == Err(VerificationFailed)
    ensures decoded.Some? && Claim(decoded.value, "sub").None? ==> r == Err(InvalidToken)
    ensures r.Ok? ==> decoded.Some? && Claim(decoded.value, "sub") == Some(r.value.Email())
    ensures r.Ok? && r.value.AsUser? ==> r.value.user in users
    ensures r.Ok? && r.value.AsAdmin? ==>
              r.value.admin in admins && forall u :: u in users ==> u.email != r.value.admin.email
    ensures r == Err(UserNotFound) <==>
              && decoded.Some? && "sub" in decoded.value
              && (forall u :: u in users ==> u.email != decoded.value["sub"])
              && (forall a :: a in admins ==> a.email != decoded.value["sub"])
    ensures r.Err? ==> r.error in {VerificationFailed, InvalidToken, UserNotFound}
    ensures decoded.Some? && "sub" in decoded.value && (exists u :: u in users && u.email == decoded.value["sub"]) ==>
              r.Ok? && r.value.AsUser?
    ensures decoded.Some? && "sub" in decoded.value && (exists a :: a in admins && a.email == decoded.value["sub"]) ==>
              r.Ok?
  {
    match decoded
    case None => Err(VerificationFailed)
    case Some(payload) =>
      match Claim(payload, "sub")
      case None => Err(InvalidToken)
      case Some(email) =>
        match UserByEmail(users, email)
        case Some(u) => Ok(AsUser(u))
        case None =>
          match AdminByEmail(admins, email)
          case Some(a) => Ok(AsAdmin(a))
          case None => Err(UserNotFound)
  }

  /** Only the `sub` claim matters: tokens that agree on it resolve alike, whatever their roles say. */
  lemma GetCurrentUserIgnoresRole(users: seq<User>, admins: seq<Admin>, c: Claims, d: Claims)
    requires Claim(c, "sub") == Claim(d, "sub")
    ensures GetCurrentUser(users, admins, Some(c)) == GetCurrentUser(users, admins, Some(d))
  {
  }

  /** An email registered both as a user and as an admin resolves to the User row, even on an admin token. */
  lemma UserTableWins(users: seq<User>, admins: seq<Admin>, u: User, a: Admin)
    requires UniqueKey(users, UserEmail)
    requires u in users && a in admins && u.email == a.email
    ensures GetCurrentUser(users, admins, Some(AccessClaims(a.email, "admin"))) == Ok(AsUser(u))
  {
    var found := UserByEmail(users, u.email);
    assert found.Some?;
    UniqueEmailLookup(users, u);
  }

  /** With unique emails, looking a user's email up finds that user. */
  lemma UniqueEmailLookup(users: seq<User>, u: User)
    requires UniqueKey(users, UserEmail) && u in users
    ensures UserByEmail(users, u.email) == Some(u)
  {
    var found := UserByEmail(users, u.email);
    var j :| 0 <= j < |users| && users[j] == u;
    var i :| 0 <= i < |users| && users[i] == found.value;
    UniqueKeyIndex(users, UserEmail, i, j);
  }

  /** With unique emails, looking an admin's email up finds that admin. */
  lemma UniqueAdminEmailLookup(admins: seq<Admin>, a: Admin)
    requires UniqueKey(admins, AdminEmail) && a in admins
    ensures AdminByEmail(admins, a.email) == Some(a)
  {
    var found := AdminByEmail(admins, a.email);
    var j :| 0 <= j < |admins| && admins[j] == a;
    var i :| 0 <= i < |admins| && admins[i] == found.value;
    UniqueKeyIndex(admins, AdminEmail, i, j);
  }
}
