/**
 * The administrator session: a two-state machine (signed out, signed in as
 * a user name) driven by a login against one fixed pair of credentials and
 * by logout.
 */
module AdminAuth {
  import opened Wrappers

  datatype AdminCredentials = AdminCredentials(username: string, password: string)

  const AdminUsername: string := "kendi"
  const AdminPassword: string := "1234"

  /** Both the user name and the password equal the fixed administrator credentials. */
  predicate Accepted(c: AdminCredentials) {
    c.username == AdminUsername && c.password == AdminPassword
  }

  /** `AdminState`, held by the provider and replaced by `login` and `logout`. */
  class AdminSession {
    var isAuthenticated: bool
    var username: Option<string>

    /** Signed in exactly when a user name is recorded. */
    ghost predicate Valid()
      reads this
    {
      isAuthenticated <==> username.Some?
    }

    /** The provider starts signed out. */
    constructor()
      ensures Valid()
      ensures !isAuthenticated && username == None
    {
      isAuthenticated := false;
      username := None;
    }

    /**
     * `login`: with the administrator credentials the session becomes signed
     * in under that user name; with any others it fails with "Invalid
     * credentials" and the session is left as it was.
     */
    method Login(credentials: AdminCredentials) returns (outcome: Outcome)
      modifies this
      ensures outcome == Pass <==> Accepted(credentials)
      ensures Accepted(credentials) ==> isAuthenticated && username == Some(credentials.username) && Valid()
      ensures !Accepted(credentials) ==>
        outcome == Fail("Invalid credentials") &&
        isAuthenticated == old(isAuthenticated) && username == old(username)
      ensures old(Valid()) ==> Valid()
    {
      if credentials.username == AdminUsername && credentials.password == AdminPassword {
        isAuthenticated := true;
        username := Some(credentials.username);
        outcome := Pass;
      } else {
        outcome := Fail("Invalid credentials");
      }
    }

    /** `logout`: always signed out with no user name, so a second logout changes nothing. */
    method Logout()
      modifies this
      ensures !isAuthenticated && username == None && Valid()
    {
      isAuthenticated := false;
      username := None;
    }
  }

  /**
   * A fresh session is signed in exactly for the administrator's credentials,
   * and then holds the administrator's user name; after a logout, repeated
   * once, it is signed out with no user name.
   */
  method LoginThenLogout(credentials: AdminCredentials) returns (signedIn: bool, name: Option<string>, signedOut: bool)
    ensures signedIn <==> Accepted(credentials)
    ensures signedIn ==> name == Some(AdminUsername)
    ensures !signedIn ==> name == None
    ensures signedOut
  {
    var session := new AdminSession();
    var outcome := session.Login(credentials);
    signedIn := session.isAuthenticated;
    name := session.username;
    session.Logout();
    session.Logout();
    signedOut := !session.isAuthenticated && session.username == None;
  }
}
