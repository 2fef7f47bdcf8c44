/**
 * AuthController.registerUser: sign-up with unique usernames and emails and
 * the role strings of the request resolved to application roles.
 *
 * The password encoder is the parameter `encode`; the bean-validation
 * constraints on the request are not part of this model.
 */
module AuthController {
  import opened Entities
  import opened Repositories

  /** The fields of a SignupRequest; a request without a role set has `roles == None`. */
  datatype SignupRequest = SignupRequest(username: string, email: string, roles: Option<set<string>>, password: string)

  /** The response body, sent as 400 Bad Request or as 200 OK (Success). */
  datatype MessageResponse = BadRequest(message: string) | Success(message: string)

  const UsernameTaken: string := "Error: Username is already taken."
  const EmailTaken: string := "Error: Email is already taken."
  const Registered: string := "User registered successfully!"

  /** The switch on one role string: "admin", "seller", and anything else. */
  function ResolveRole(role: string): (r: AppRole)
    ensures r == RoleAdmin <==> role == "admin"
    ensures r == RoleSeller <==> role == "seller"
    ensures r == RoleUser <==> role != "admin" && role != "seller"
  {
    match role
    case "admin" => RoleAdmin
    case "seller" => RoleSeller
    case _ => RoleUser
  }

  /** The roles a request asks for: just the user role without a role set, else the image of the set under ResolveRole. */
  function RolesFor(requested: Option<set<string>>): set<AppRole> {
    match requested
    case None => {RoleUser}
    case Some(names) => set name | name in names :: ResolveRole(name)
  }

  /** Without a role set the user gets exactly the user role. */
  lemma RolesForMissing()
    ensures RolesFor(None) == {RoleUser}
  {
  }

  /** An empty role set gives no roles at all. */
  lemma RolesForEmpty()
    ensures RolesFor(Some({})) == {}
  {
  }

  /** A role set yields the admin role exactly when it names "admin", and the seller role exactly when it names "seller". */
  lemma RolesForNamed(names: set<string>)
    ensures RoleAdmin in RolesFor(Some(names)) <==> "admin" in names
    ensures RoleSeller in RolesFor(Some(names)) <==> "seller" in names
  {
    if "admin" in names {
      assert ResolveRole("admin") == RoleAdmin;
    }
    if "seller" in names {
      assert ResolveRole("seller") == RoleSeller;
    }
  }

  /** A role set yields the user role exactly when it holds some string other than "admin" and "seller". */
  lemma RolesForUser(names: set<string>)
    ensures RoleUser in RolesFor(Some(names)) <==> exists name :: name in names && name != "admin" && name != "seller"
  {
    if name :| name in names && name != "admin" && name != "seller" {
      assert ResolveRole(name) == RoleUser;
    }
  }

  /**
   * The role loop: each requested role looked up in the role repository and
   * added to the user's set; a role the repository lacks is not found.
   */
  method ResolveRoles(requested: Option<set<string>>, available: set<AppRole>) returns (r: Result<set<AppRole>>)
    ensures r.Ok? <==> RolesFor(requested) <= available
    ensures r.Ok? ==> r.value == RolesFor(requested)
    ensures r.Err? ==> r.error == NotFound("Role", "roleName")
  {
    if requested.None? {
      if RoleUser !in available {
        return Err(NotFound("Role", "roleName"));
      }
      return Ok({RoleUser});
    }
    var names := requested.value;
    var todo := names;
    var roles: set<AppRole> := {};
    while todo != {}
      invariant todo <= names && roles <= available
      invariant roles == set name | name in names - todo :: ResolveRole(name)
      decreases todo
    {
      var name :| name in todo;
      var role := ResolveRole(name);
      if role !in available {
        assert role in RolesFor(requested);
        return Err(NotFound("Role", "roleName"));
      }
      roles := roles + {role};
      todo := todo - {name};
    }
    assert names - todo == names;
    r := Ok(roles);
  }

  predicate UsernameExists(users: map<Id, User>, username: string) {
    exists u :: u in users && users[u].username == username
  }

  predicate EmailExists(users: map<Id, User>, email: string) {
    exists u :: u in users && users[u].email == email
  }

  /**
   * registerUser: a taken username is refused first, then a taken email;
   * otherwise one user is saved with the encoded password and the resolved
   * roles.  Nothing is saved when a check fails or a role is missing.
   */
  method RegisterUser(st: Store, request: SignupRequest, encode: string -> string) returns (r: Result<MessageResponse>)
    requires st.Valid()
    modifies st`users, st`nextId
    ensures st.Valid()
    ensures old(st.Consistent()) ==> st.Consistent()
    ensures r != Ok(Success(Registered)) ==> unchanged(st)
    ensures UsernameExists(old(st.users), request.username) ==> r == Ok(BadRequest(UsernameTaken))
    ensures !UsernameExists(old(st.users), request.username) && EmailExists(old(st.users), request.email) ==>
              r == Ok(BadRequest(EmailTaken))
    ensures (!UsernameExists(old(st.users), request.username) && !EmailExists(old(st.users), request.email) &&
             !(RolesFor(request.roles) <= st.roles)) ==> r == Err(NotFound("Role", "roleName"))
    ensures r == Ok(Success(Registered)) <==>
              && !UsernameExists(old(st.users), request.username)
              && !EmailExists(old(st.users), request.email)
              && RolesFor(request.roles) <= st.roles
    ensures r == Ok(Success(Registered)) ==>
              && old(st.nextId) !in old(st.users)
              && st.users == old(st.users)[old(st.nextId) :=
                   User(request.username, request.email, encode(request.password), RolesFor(request.roles))]
  {
    if exists u :: u in st.users && st.users[u].username == request.username {
      return Ok(BadRequest(UsernameTaken));
    }
    if exists u :: u in st.users && st.users[u].email == request.email {
      return Ok(BadRequest(EmailTaken));
    }
    var user := User(request.username, request.email, encode(request.password), {});
    var roles := ResolveRoles(request.roles, st.roles);
    if roles.Err? {
      return Err(roles.error);
    }
    user := user.(roles := roles.value);
    var _ := st.SaveNewUser(user);
    r := Ok(Success(Registered));
  }
}
