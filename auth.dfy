/** lib/auth.ts: the simulated account service. The module-level `users`
    array, which `registerUser` pushes onto, and the `currentUser` browser key
    are the two fields of UserRegistry. The artificial delay is not modelled. */
module Auth {
  import opened Common
  import opened FormTypes

  /** A row of the in-memory user table; unlike `User` it holds the password. */
  datatype StoredUser = StoredUser(id: string, name: string, email: string, password: string)

  const DemoUser := StoredUser("1", "Demo User", "demo@example.com", "demo123")

  /** The record stored as the current user: id, name and email, never the password. */
  function PublicOf(u: StoredUser): User {
    User(u.id, u.name, u.email)
  }

  /** `users.some((u) => u.email === email)`. */
  predicate EmailRegistered(users: seq<StoredUser>, email: string) {
    exists i :: 0 <= i < |users| && users[i].email == email
  }

  predicate Matches(u: StoredUser, email: string, password: string) {
    u.email == email && u.password == password
  }

  /** `users.find((u) => u.email === email && u.password === password)`. */
  function FindCredentials(users: seq<StoredUser>, email: string, password: string): (r: Option<StoredUser>)
    ensures r.None? <==> forall i :: 0 <= i < |users| ==> !Matches(users[i], email, password)
    ensures r.Some? ==> exists k :: 0 <= k < |users| && users[k] == r.value && Matches(r.value, email, password) &&
                                    forall j :: 0 <= j < k ==> !Matches(users[j], email, password)
  {
    if |users| == 0 then None
    else if Matches(users[0], email, password) then Some(users[0])
    else
      var r := FindCredentials(users[1..], email, password);
      assert forall i :: 1 <= i < |users| ==> users[i] == users[1..][i - 1];
      if r.None? then r
      else
        var k :| 0 <= k < |users[1..]| && users[1..][k] == r.value && Matches(r.value, email, password) &&
                 forall j :: 0 <= j < k ==> !Matches(users[1..][j], email, password);
        assert users[k + 1] == r.value;
        r
  }

  /** With unique emails, signing in finds the one account with that email,
      provided the password is right. */
  lemma FindCredentialsUnique(users: seq<StoredUser>, k: nat, password: string)
    requires k < |users| && forall i, j :: 0 <= i < j < |users| ==> users[i].email != users[j].email
    ensures FindCredentials(users, users[k].email, password) ==
            if users[k].password == password then Some(users[k]) else None
  {
    var r := FindCredentials(users, users[k].email, password);
    if users[k].password == password {
      assert Matches(users[k], users[k].email, password);
    }
  }

  /** The demo shortcut in `authenticateUser` records the same user as the
      table lookup would, since the demo account is the table's first row. */
  lemma DemoShortcutAgreesWithTable(users: seq<StoredUser>)
    requires |users| > 0 && users[0] == DemoUser
    ensures FindCredentials(users, "demo@example.com", "demo123") == Some(DemoUser)
  {
  }

  /** An account registered with a new email can then sign in with its password. */
  lemma RegisteredUserCanSignIn(users: seq<StoredUser>, newUser: StoredUser)
    requires !EmailRegistered(users, newUser.email)
    ensures FindCredentials(users + [newUser], newUser.email, newUser.password) == Some(newUser)
  {
    var all := users + [newUser];
    assert forall i :: 0 <= i < |users| ==> all[i] == users[i];
    assert Matches(all[|users|], newUser.email, newUser.password);
  }

  class UserRegistry {
    var users: seq<StoredUser>
    var current: Option<User>

    /** The table starts with the demo account; its ids are "1", "2", ... in
        order, and no two accounts share an email. */
    ghost predicate Valid()
      reads this
    {
      |users| > 0 && users[0] == DemoUser &&
      (forall i :: 0 <= i < |users| ==> users[i].id == NatToString(i + 1)) &&
      (forall i, j :: 0 <= i < j < |users| ==> users[i].email != users[j].email)
    }

    /** A fresh page: the table holds only the demo account, and the browser
        key holds whatever current user was stored before. */
    constructor (stored: Option<User>)
      ensures Valid()
      ensures users == [DemoUser] && current == stored
    {
      users := [DemoUser];
      current := stored;
    }

    /** `registerUser(name, email, password)`. */
    method RegisterUser(name: string, email: string, password: string) returns (ok: bool)
      requires Valid()
      modifies this`users
      ensures Valid()
      ensures ok <==> !EmailRegistered(old(users), email)
      ensures !ok ==> users == old(users)
      ensures ok ==> users == old(users) + [StoredUser(NatToString(|old(users)| + 1), name, email, password)]
      ensures EmailRegistered(users, email)
    {
      if EmailRegistered(users, email) {
        return false;
      }
      var newUser := StoredUser(NatToString(|users| + 1), name, email, password);
      users := users + [newUser];
      assert users[|users| - 1].email == email;
      return true;
    }

    /** `authenticateUser(email, password)`. */
    method AuthenticateUser(email: string, password: string) returns (ok: bool)
      modifies this`current
      ensures email == DemoUser.email && password == DemoUser.password ==>
                ok && current == Some(PublicOf(DemoUser))
      ensures !(email == DemoUser.email && password == DemoUser.password) ==>
                (ok <==> exists i :: 0 <= i < |users| && Matches(users[i], email, password)) &&
                (ok ==> current == Some(PublicOf(FindCredentials(users, email, password).value))) &&
                (!ok ==> current == old(current))
    {
      if email == "demo@example.com" && password == "demo123" {
        current := Some(User("1", "Demo User", "demo@example.com"));
        return true;
      }
      var user := FindCredentials(users, email, password);
      if user.Some? {
        var k :| 0 <= k < |users| && users[k] == user.value && Matches(user.value, email, password);
        current := Some(PublicOf(user.value));
        assert Matches(users[k], email, password);
        return true;
      }
      return false;
    }

    /** `logoutUser()`: remove the current-user key. */
    method LogoutUser()
      modifies this`current
      ensures current.None? && !IsLoggedIn()
    {
      current := None;
    }

    /** `getCurrentUser()`. */
    function GetCurrentUser(): (r: Option<User>)
      reads this
      ensures r == current
    {
      current
    }

    /** `isLoggedIn()`: `!!getCurrentUser()`, true exactly when a current user
        is recorded. */
    function IsLoggedIn(): (r: bool)
      reads this
      ensures r <==> current.Some?
    {
      GetCurrentUser().Some?
    }

    /** `resetPassword(email)`: whether the email belongs to an account; no
        state changes. */
    method ResetPassword(email: string) returns (ok: bool)
      ensures ok <==> exists i :: 0 <= i < |users| && users[i].email == email
    {
      ok := EmailRegistered(users, email);
    }
  }
}
