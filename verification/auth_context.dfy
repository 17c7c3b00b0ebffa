/**
 * The signed-in user of the client (src/contexts/auth-context.tsx): four roles,
 * one mock identity per role, and a session that login and logout overwrite.
 */
module Auth {
  import opened Wrappers

  /** The client's roles: exactly four values. */
  datatype Role = Admin | Designer | Reviewer | Manager

  /** The role as the client spells it. */
  function RoleName(r: Role): string
  {
    match r
    case Admin => "Admin"
    case Designer => "Designer"
    case Reviewer => "Reviewer"
    case Manager => "Manager"
  }

  /** The role a name denotes, if it is one of the four spellings. */
  function RoleOf(name: string): (r: Option<Role>)
    ensures r.Some? ==> RoleName(r.value) == name
  {
    if name == "Admin" then Some(Admin)
    else if name == "Designer" then Some(Designer)
    else if name == "Reviewer" then Some(Reviewer)
    else if name == "Manager" then Some(Manager)
    else None
  }

  /** Every role is recovered from its name, so distinct roles have distinct names. */
  lemma RoleOfName(r: Role)
    ensures RoleOf(RoleName(r)) == Some(r)
  {
    match r
    case Admin =>
    case Designer =>
      assert RoleName(r)[0] != 'A';
    case Reviewer =>
      assert RoleName(r)[0] != 'A' && RoleName(r)[0] != 'D';
    case Manager =>
      assert RoleName(r)[0] != 'A' && RoleName(r)[0] != 'D' && RoleName(r)[0] != 'R';
  }

  /** The lower-case "designer" the server assigns names none of the client roles. */
  lemma LowerCaseDesignerIsNoRole()
    ensures RoleOf("designer") == None
  {
    assert "designer"[0] != 'A' && "designer"[0] != 'D' && "designer"[0] != 'R' && "designer"[0] != 'M';
  }

  datatype User = User(name: string, email: string, role: Role, avatar: string)

  /** `mockUsers[role]`: the one identity each role signs in as. */
  function MockUser(role: Role): (u: User)
    ensures u.role == role
    ensures u.name == RoleName(role) + " User"
  {
    match role
    case Admin => User("Admin User", "admin@example.com", Admin, "https://i.pravatar.cc/150?u=admin")
    case Designer => User("Designer User", "designer@example.com", Designer, "https://i.pravatar.cc/150?u=designer")
    case Reviewer => User("Reviewer User", "reviewer@example.com", Reviewer, "https://i.pravatar.cc/150?u=reviewer")
    case Manager => User("Manager User", "manager@example.com", Manager, "https://i.pravatar.cc/150?u=manager")
  }

  /** Distinct roles sign in as distinct identities. */
  lemma MockUsersDistinct(r1: Role, r2: Role)
    ensures MockUser(r1) == MockUser(r2) <==> r1 == r2
  {
  }

  /** The session: the signed-in user, or none. */
  class AuthContext {
    var user: Option<User>

    /** The session starts signed out. */
    constructor()
      ensures user == None
    {
      user := None;
    }

    /** `!!user`. */
    predicate IsAuthenticated()
      reads this
    {
      user.Some?
    }

    /**
     * The start-up restore: a non-empty stored value is parsed and, when it parses,
     * becomes the session (a stored `null` signs out); a value that fails to parse
     * leaves the session as it was.
     */
    method Restore(stored: Option<string>, parse: string -> Option<Option<User>>)
      modifies this
      ensures stored.None? || stored.value == "" || parse(stored.value).None? ==> user == old(user)
      ensures stored.Some? && stored.value != "" && parse(stored.value).Some? ==> user == parse(stored.value).value
    {
      if stored.Some? && stored.value != "" {
        var parsed := parse(stored.value);
        if parsed.Some? {
          user := parsed.value;
        }
      }
    }

    /** `login(role)`: the session becomes the role's mock identity, whatever it was. */
    method Login(role: Role)
      modifies this
      ensures user == Some(MockUser(role))
      ensures IsAuthenticated() && user.value.role == role
    {
      user := Some(MockUser(role));
    }

    /** `logout()`: the session ends. */
    method Logout()
      modifies this
      ensures user == None
      ensures !IsAuthenticated()
    {
      user := None;
    }
  }
}
