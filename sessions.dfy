/**
 * What the tokens `login` issues resolve to in each of the three identity
 * dependencies, assuming `decode_token` gives back the claims that were
 * signed.
 */
module Sessions {
  import opened Base
  import opened Models
  import opened Auth
  import opened Crud
  import AuthRouter
  import Deps
  import AdminRouter
  import UserRouter

  /** An admin token opens the admin endpoints for that admin, provided the email is not empty. */
  lemma AdminGrantResolves(admins: seq<Admin>, users: seq<User>, email: string, password: string,
                           verify: (string, string) -> bool)
    requires AuthRouter.AdminAccepts(admins, email, password, verify) && email != ""
    ensures var g := AuthRouter.Login(admins, users, email, password, verify);
            g.Ok? && AdminRouter.GetAdminFromToken(admins, Some(g.value.claims)) == Ok(AdminByEmail(admins, email).value)
  {
  }

  /** With unique admin emails, an admin token for a registered admin resolves to exactly that admin. */
  lemma AdminTokenNamesItsAdmin(admins: seq<Admin>, a: Admin)
    requires UniqueKey(admins, AdminEmail) && a in admins && a.email != ""
    ensures AdminRouter.GetAdminFromToken(admins, Some(AccessClaims(a.email, "admin"))) == Ok(a)
  {
    Deps.UniqueAdminEmailLookup(admins, a);
  }

  /** An admin whose email is empty still logs in, but the admin resolver refuses the token as having no subject. */
  lemma EmptyAdminEmailLocksOut(admins: seq<Admin>, users: seq<User>, password: string,
                                verify: (string, string) -> bool)
    requires AuthRouter.AdminAccepts(admins, "", password, verify)
    ensures var g := AuthRouter.Login(admins, users, "", password, verify);
            g.Ok? && g.value.role == "admin"
            && AdminRouter.GetAdminFromToken(admins, Some(g.value.claims)) == Err(AdminRouter.MissingSubject)
  {
  }

  /** A user token opens `/me` for that user and is refused by the admin resolver. */
  lemma UserGrantResolves(admins: seq<Admin>, users: seq<User>, email: string, password: string,
                          verify: (string, string) -> bool)
    requires AuthRouter.Login(admins, users, email, password, verify).Ok?
    requires AuthRouter.Login(admins, users, email, password, verify).value.role == "user"
    ensures var g := AuthRouter.Login(admins, users, email, password, verify).value;
            && UserRouter.GetUserFromToken(users, Some(g.claims)) == Ok(UserByEmail(users, email).value)
            && AdminRouter.GetAdminFromToken(admins, Some(g.claims)) == Err(AdminRouter.NotAuthorized)
            && Deps.GetCurrentUser(users, admins, Some(g.claims)) == Ok(AsUser(UserByEmail(users, email).value))
  {
    var g := AuthRouter.Login(admins, users, email, password, verify).value;
    assert Claim(g.claims, "role") == Some("user");
  }

  /** On the generic dependency an admin token resolves to the User row when a user shares the admin's email. */
  lemma AdminGrantOnCurrentUser(admins: seq<Admin>, users: seq<User>, email: string, password: string,
                                verify: (string, string) -> bool)
    requires AuthRouter.AdminAccepts(admins, email, password, verify)
    ensures var g := AuthRouter.Login(admins, users, email, password, verify).value;
            Deps.GetCurrentUser(users, admins, Some(g.claims))
            == if UserByEmail(users, email).Some? then Ok(AsUser(UserByEmail(users, email).value))
               else Ok(AsAdmin(AdminByEmail(admins, email).value))
  {
  }

  /**
   * An admin whose email is also a user's is seen as that user by the expense
   * endpoints, so the `approved`-attribute gate refuses its updates and deletes.
   */
  lemma SharedEmailAdminIsGated(admins: seq<Admin>, users: seq<User>, a: Admin, u: User)
    requires UniqueKey(users, UserEmail) && a in admins && u in users && u.email == a.email
    ensures var who := Deps.GetCurrentUser(users, admins, Some(AccessClaims(a.email, "admin")));
            who.Ok? && who.value.HasApprovedAttribute()
  {
    Deps.UserTableWins(users, admins, u, a);
  }

  /** A registered user with the right password gets 403 until an admin approves it, and a user token after. */
  lemma ApprovalUnlocksLogin(admins: seq<Admin>, users: seq<User>, i: nat, password: string,
                             verify: (string, string) -> bool)
    requires UniqueKey(users, UserEmail) && i < |users| && !users[i].approved
    requires verify(password, users[i].passwordHash)
    requires !AuthRouter.AdminAccepts(admins, users[i].email, password, verify)
    ensures AuthRouter.Login(admins, users, users[i].email, password, verify) == Err(AuthRouter.NotApproved)
    ensures AuthRouter.Login(admins, users[i := users[i].(approved := true)], users[i].email, password, verify)
            == Ok(AuthRouter.Grant(AccessClaims(users[i].email, "user"), "bearer", "user"))
  {
    AuthRouter.UnapprovedUserRefused(admins, users, users[i], password, verify);
    var approved := users[i := users[i].(approved := true)];
    UniqueReplace(users, i, users[i].(approved := true), UserEmail);
    Deps.UniqueEmailLookup(approved, approved[i]);
  }
}
