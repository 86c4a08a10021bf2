/**
 * Registration and login. `register` refuses an email already in the User
 * table and otherwise creates an unapproved user; `login` tries the Admin
 * table first and then the User table, checking the password before the
 * approval flag.
 */
module AuthRouter {
  import opened Base
  import opened Models
  import opened Auth
  import opened Crud

  const EmailTaken := HttpError(400, "Email already registered")
  const InvalidCredentials := HttpError(400, "Invalid credentials")
  const NotApproved := HttpError(403, "User not approved by admin")

  /**
   * `register`, given the hash `hash_password` produced for the submitted
   * password. No role is taken from the client.
   */
  method Register(store: Store, username: string, email: string, hashed: string) returns (r: Result<User>)
    requires store.Valid()
    modifies store
    ensures store.Valid()
    ensures UserByEmail(old(store.users), email).Some? ==> r == Err(EmailTaken) && unchanged(store)
    ensures UserByEmail(old(store.users), email).None? ==>
              && r.Ok? && !r.value.approved && r.value.role == "user"
              && r.value.username == username && r.value.email == email && r.value.passwordHash == hashed
              && store.users == old(store.users) + [r.value]
              && store.admins == old(store.admins) && store.vendors == old(store.vendors)
              && forall c :: store.Table(c) == old(store.Table(c))
  {
    if UserByEmail(store.users, email).Some? {
      return Err(EmailTaken);
    }
    var u := store.CreateUser(username, email, hashed);
    r := Ok(u);
  }

  /** What `login` returns: the claims it signs, the token type and the role. */
  datatype Grant = Grant(claims: Claims, tokenType: string, role: string)

  /** The admin branch of `login` is taken: an admin has the email and the password matches that admin's hash. */
  predicate AdminAccepts(admins: seq<Admin>, email: string, password: string, verify: (string, string) -> bool) {
    AdminByEmail(admins, email).Some? && verify(password, AdminByEmail(admins, email).value.passwordHash)
  }

  /** The user `login` falls back to, if an email names one. */
  predicate PasswordMatches(users: seq<User>, email: string, password: string, verify: (string, string) -> bool) {
    UserByEmail(users, email).Some? && verify(password, UserByEmail(users, email).value.passwordHash)
  }

  /** `login`, with `verify_password` as `verify` and the signed token given by its claims. */
  function Login(admins: seq<Admin>, users: seq<User>, email: string, password: string,
                 verify: (string, string) -> bool): (r: Result<Grant>)
    ensures r.Ok? ==> r.value.tokenType == "bearer" && r.value.claims == AccessClaims(email, r.value.role)
    ensures r.Ok? && r.value.role == "admin" <==> AdminAccepts(admins, email, password, verify)
    ensures r.Ok? && r.value.role == "user" <==>
              && !AdminAccepts(admins, email, password, verify)
              && PasswordMatches(users, email, password, verify) && UserByEmail(users, email).value.approved
    ensures r == Err(InvalidCredentials) <==>
              !AdminAccepts(admins, email, password, verify) && !PasswordMatches(users, email, password, verify)
    ensures r == Err(NotApproved) <==>
              && !AdminAccepts(admins, email, password, verify)
              && PasswordMatches(users, email, password, verify) && !UserByEmail(users, email).value.approved
  {
    var admin := AdminByEmail(admins, email);
    if admin.Some? && verify(password, admin.value.passwordHash) then
      Ok(Grant(AccessClaims(admin.value.email, "admin"), "bearer", "admin"))
    else
      match UserByEmail(users, email)
      case None => Err(InvalidCredentials)
      case Some(u) =>
        if !verify(password, u.passwordHash) then Err(InvalidCredentials)
        else if !u.approved then Err(NotApproved)
        else Ok(Grant(AccessClaims(u.email, "user"), "bearer", "user"))
  }

  /** A wrong admin password is not an error by itself: login goes on as if the Admin table were empty. */
  lemma WrongAdminPasswordFallsThrough(admins: seq<Admin>, users: seq<User>, email: string, password: string,
                                       verify: (string, string) -> bool)
    requires AdminByEmail(admins, email).Some?
    requires !verify(password, AdminByEmail(admins, email).value.passwordHash)
    ensures Login(admins, users, email, password, verify) == Login([], users, email, password, verify)
  {
  }

  /** An unapproved user with the right password gets 403 and never a token, unless an admin shares the email. */
  lemma UnapprovedUserRefused(admins: seq<Admin>, users: seq<User>, u: User, password: string,
                              verify: (string, string) -> bool)
    requires UniqueKey(users, UserEmail) && u in users && !u.approved && verify(password, u.passwordHash)
    requires !AdminAccepts(admins, u.email, password, verify)
    ensures Login(admins, users, u.email, password, verify) == Err(NotApproved)
  {
    var found := UserByEmail(users, u.email);
    var j :| 0 <= j < |users| && users[j] == u;
    var i :| 0 <= i < |users| && users[i] == found.value;
    UniqueKeyIndex(users, UserEmail, i, j);
  }

  /** The password is checked before approval: a wrong password is 400 whatever the user's approval flag says. */
  lemma PasswordBeforeApproval(admins: seq<Admin>, users: seq<User>, j: nat, approved: bool, password: string,
                               verify: (string, string) -> bool)
    requires UniqueKey(users, UserEmail) && j < |users| && !verify(password, users[j].passwordHash)
    requires !AdminAccepts(admins, users[j].email, password, verify)
    ensures Login(admins, users[j := users[j].(approved := approved)], users[j].email, password, verify)
            == Err(InvalidCredentials)
  {
    var updated := users[j := users[j].(approved := approved)];
    UniqueReplace(users, j, users[j].(approved := approved), UserEmail);
    var found := UserByEmail(updated, users[j].email);
    assert updated[j].email == users[j].email;
    var i :| 0 <= i < |updated| && updated[i] == found.value;
    UniqueKeyIndex(updated, UserEmail, i, j);
  }
}
