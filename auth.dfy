/** `AuthContext.jsx`: login against a fixed list of credentials, with the
    logged-in user kept in `sessionStorage` under `currentUser` (without
    the password) and restored from there when the app starts. */
module Auth {
  import opened Common
  import opened Storage

  datatype UserEntry = UserEntry(username: string, password: string, name: string, role: string)

  /** `VALID_USERS` */
  const ValidUsers: seq<UserEntry> := [
    UserEntry("admin", "Mount2K2026", "Administrator", "admin"),
    UserEntry("m2kadmin", "189838", "M2K Admin", "admin")
  ]

  const SessionKey: string := "currentUser"

  const InvalidCredentials: string := "Invalid username or password"

  predicate Matches(u: UserEntry, username: string, password: string)
  {
    u.username == username && u.password == password
  }

  /** `users.find(...)`: the first entry whose username and password both
      match exactly, or none. */
  function FindUser(users: seq<UserEntry>, username: string, password: string): (r: Option<UserEntry>)
    ensures r.Some? <==> exists i :: 0 <= i < |users| && Matches(users[i], username, password)
    ensures r.Some? ==> exists i :: 0 <= i < |users| && users[i] == r.value
                                    && Matches(r.value, username, password)
                                    && forall j :: 0 <= j < i ==> !Matches(users[j], username, password)
  {
    if users == [] then None
    else if Matches(users[0], username, password) then Some(users[0])
    else
      var r := FindUser(users[1..], username, password);
      assert forall i :: 1 <= i < |users| ==> users[i] == users[1..][i - 1];
      r
  }

  /** The session object: username, name and role, never the password. */
  function SessionRecord(u: UserEntry): (m: map<string, string>)
    ensures m.Keys == {"username", "name", "role"} && "password" !in m
    ensures m["username"] == u.username && m["name"] == u.name && m["role"] == u.role
  {
    map["username" := u.username, "name" := u.name, "role" := u.role]
  }

  /** The two listed accounts log in with their own passwords, and neither
      listed username logs in with the other account's password. */
  lemma {:induction false} KnownAccounts()
    ensures FindUser(ValidUsers, "admin", "Mount2K2026") == Some(ValidUsers[0])
    ensures FindUser(ValidUsers, "m2kadmin", "189838") == Some(ValidUsers[1])
    ensures FindUser(ValidUsers, "admin", "189838") == None
    ensures FindUser(ValidUsers, "m2kadmin", "Mount2K2026") == None
  {
    assert Matches(ValidUsers[0], "admin", "Mount2K2026");
    assert !Matches(ValidUsers[0], "m2kadmin", "189838");
    assert Matches(ValidUsers[1], "m2kadmin", "189838");
    assert !Matches(ValidUsers[0], "admin", "189838");
    assert !Matches(ValidUsers[1], "admin", "189838");
    assert !Matches(ValidUsers[0], "m2kadmin", "Mount2K2026");
    assert !Matches(ValidUsers[1], "m2kadmin", "Mount2K2026");
  }

  datatype LoginResult = LoginResult(success: bool, error: Option<string>)

  class AuthProvider {
    var currentUser: Option<map<string, string>>
    var loading: bool
    const session: KeyValueStore

    constructor (session: KeyValueStore)
      ensures this.session == session && currentUser == None && loading
    {
      this.session := session;
      currentUser := None;
      loading := true;
    }

    /** The mount effect: a stored session object becomes the current user;
        a stored entry that is not JSON is removed; an empty one is ignored. */
    method Restore()
      modifies this, session
      ensures !loading
      ensures SessionKey in old(session.items) && old(session.items)[SessionKey].JsonObject? ==>
        currentUser == Some(old(session.items)[SessionKey].fields) && session.items == old(session.items)
      ensures SessionKey in old(session.items) && old(session.items)[SessionKey].NotJson?
              && old(session.items)[SessionKey].text != "" ==>
        currentUser == old(currentUser) && session.items == old(session.items) - {SessionKey}
      ensures SessionKey !in old(session.items) || old(session.items)[SessionKey] == NotJson("") ==>
        currentUser == old(currentUser) && session.items == old(session.items)
    {
      var stored := session.GetItem(SessionKey);
      if stored.Some? && Truthy(stored.value) {
        match stored.value {
          case JsonObject(fields) =>
            currentUser := Some(fields);
          case NotJson(_) =>
            session.RemoveItem(SessionKey);
        }
      }
      loading := false;
    }

    method Login(username: string, password: string) returns (r: LoginResult)
      modifies this, session
      ensures r.success <==> exists i :: 0 <= i < |ValidUsers| && Matches(ValidUsers[i], username, password)
      ensures r.success ==>
        var u := FindUser(ValidUsers, username, password).value;
        && r.error == None
        && currentUser == Some(SessionRecord(u))
        && session.items == old(session.items)[SessionKey := JsonObject(SessionRecord(u))]
      ensures !r.success ==>
        && r.error == Some(InvalidCredentials)
        && currentUser == old(currentUser)
        && session.items == old(session.items)
      ensures loading == old(loading)
    {
      var user := FindUser(ValidUsers, username, password);
      if user.Some? {
        var userSession := SessionRecord(user.value);
        session.SetItem(SessionKey, JsonObject(userSession));
        currentUser := Some(userSession);
        r := LoginResult(true, None);
      } else {
        r := LoginResult(false, Some(InvalidCredentials));
      }
    }

    method Logout()
      modifies this, session
      ensures currentUser == None
      ensures session.items == old(session.items) - {SessionKey}
      ensures loading == old(loading)
    {
      session.RemoveItem(SessionKey);
      currentUser := None;
    }
  }
}
