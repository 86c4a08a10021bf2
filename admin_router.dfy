/**
 * The admin endpoints: a resolver that accepts only admin-role tokens whose
 * subject is in the Admin table, and the user listing, approval and deletion
 * it guards.
 */
module AdminRouter {
  import opened Base
  import opened Models
  import opened Auth
  import opened Crud

  const NotAuthorized := HttpError(403, "Not authorized")
  const MissingSubject := HttpError(401, "Invalid token: missing subject")
  const AdminNotFound := HttpError(404, "Admin not found")
  const CouldNotValidate := HttpError(403, "Could not validate credentials")
  const UserNotFound := HttpError(404, "User not found")

  /** `get_admin_from_token` on a decoded token (None: `decode_token` raised). */
  function GetAdminFromToken(admins: seq<Admin>, decoded: Option<Claims>): (r: Result<Admin>)
    ensures decoded.None? ==> r == Err(CouldNotValidate)
    ensures decoded.Some? && Claim(decoded.value, "role") != Some("admin") ==> r == Err(NotAuthorized)
    ensures r == Err(MissingSubject) <==>
              decoded.Some? && Claim(decoded.value, "role") == Some("admin")
              && (Claim(decoded.value, "sub") == None || Claim(decoded.value, "sub") == Some(""))
    ensures r == Err(AdminNotFound) <==>
              && decoded.Some? && Claim(decoded.value, "role") == Some("admin")
              && "sub" in decoded.value && decoded.value["sub"] != ""
              && forall a :: a in admins ==> a.email != decoded.value["sub"]
    ensures r.Ok? ==>
              && r.value in admins && r.value.email != ""
              && decoded.Some? && Claim(decoded.value, "role") == Some("admin")
              && Claim(decoded.value, "sub") == Some(r.value.email)
    ensures decoded.Some? && Claim(decoded.value, "role") == Some("admin") && "sub" in decoded.value
            && decoded.value["sub"] != "" && (exists a :: a in admins && a.email == decoded.value["sub"]) ==>
              r.Ok?
  {
    match decoded
    case None => Err(CouldNotValidate)
    case Some(payload) =>
      if Claim(payload, "role") != Some("admin") then Err(NotAuthorized)
      else
        match Claim(payload, "sub")
        case None => Err(MissingSubject)
        case Some(email) =>
          if email == "" then Err(MissingSubject)
          else
            match AdminByEmail(admins, email)
            case None => Err(AdminNotFound)
            case Some(a) => Ok(a)
  }

  /** The role is checked before any lookup: a non-admin token is refused whatever the Admin table holds. */
  lemma RoleCheckedFirst(admins: seq<Admin>, other: seq<Admin>, c: Claims)
    requires Claim(c, "role") != Some("admin")
    ensures GetAdminFromToken(admins, Some(c)) == GetAdminFromToken(other, Some(c)) == Err(NotAuthorized)
  {
  }

  /** A user token is refused even when its email is also an admin's. */
  lemma UserTokenRefused(admins: seq<Admin>, a: Admin)
    requires a in admins
    ensures GetAdminFromToken(admins, Some(AccessClaims(a.email, "user"))) == Err(NotAuthorized)
  {
    assert AccessClaims(a.email, "user")["role"] == "user";
  }

  /** `list_users`: every user, newest first, for an accepted admin token. */
  function ListUsers(store: Store, decoded: Option<Claims>): (r: Result<seq<User>>)
    reads store
    requires store.Valid()
    ensures r.Err? <==> GetAdminFromToken(store.admins, decoded).Err?
    ensures r.Err? ==> r.error == GetAdminFromToken(store.admins, decoded).error
    ensures r.Ok? ==> multiset(r.value) == multiset(store.users)
    ensures r.Ok? ==> forall i, j :: 0 <= i < j < |r.value| ==> r.value[i].createdAt > r.value[j].createdAt
  {
    match GetAdminFromToken(store.admins, decoded)
    case Err(e) => Err(e)
    case Ok(_) => Ok(store.GetAllUsers())
  }

  /** `approve_user`: 404 for an unknown id; the store is untouched unless a user is approved. */
  method ApproveUser(store: Store, decoded: Option<Claims>, userId: int) returns (r: Result<string>)
    requires store.Valid()
    modifies store
    ensures store.Valid()
    ensures GetAdminFromToken(old(store.admins), decoded).Err? ==>
              r == Err(GetAdminFromToken(old(store.admins), decoded).error) && unchanged(store)
    ensures GetAdminFromToken(old(store.admins), decoded).Ok? ==>
              match UserIndex(old(store.users), userId)
              case None => r == Err(UserNotFound) && unchanged(store)
              case Some(i) =>
                && r == Ok("User approved")
                && store.users == old(store.users)[i := old(store.users)[i].(approved := true)]
                && store.admins == old(store.admins) && store.vendors == old(store.vendors)
                && store.clock == old(store.clock) && forall c :: store.Table(c) == old(store.Table(c))
  {
    var gate := GetAdminFromToken(store.admins, decoded);
    if gate.Err? {
      return Err(gate.error);
    }
    var ok := store.ApproveUser(userId);
    if !ok {
      return Err(UserNotFound);
    }
    r := Ok("User approved");
  }

  /** `delete_user`: 404 for an unknown id; otherwise exactly that user is removed. */
  method DeleteUser(store: Store, decoded: Option<Claims>, userId: int) returns (r: Result<string>)
    requires store.Valid()
    modifies store
    ensures store.Valid()
    ensures GetAdminFromToken(old(store.admins), decoded).Err? ==>
              r == Err(GetAdminFromToken(old(store.admins), decoded).error) && unchanged(store)
    ensures GetAdminFromToken(old(store.admins), decoded).Ok? ==>
              match UserIndex(old(store.users), userId)
              case None => r == Err(UserNotFound) && unchanged(store)
              case Some(i) =>
                && r == Ok("User deleted")
                && store.users == old(store.users)[..i] + old(store.users)[i + 1..]
                && store.admins == old(store.admins) && store.vendors == old(store.vendors)
                && store.clock == old(store.clock) && forall c :: store.Table(c) == old(store.Table(c))
  {
    var gate := GetAdminFromToken(store.admins, decoded);
    if gate.Err? {
      return Err(gate.error);
    }
    var ok := store.DeleteUser(userId);
    if !ok {
      return Err(UserNotFound);
    }
    r := Ok("User deleted");
  }
}
