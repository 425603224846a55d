/** The mock authentication store: the signed-in user, the `suburban_user`
    session slot and the `suburban_users` list in browser storage, with login
    against two demo credentials, signup with an ordered validation cascade and
    duplicate detection, and logout.  Storage is a map from key to what
    `JSON.parse` makes of the stored text; generated ids are inputs; the
    simulated one-second delays are not modelled. */
module AuthContext {
  import opened Optional
  import Text

  /** A JSON value, as `JSON.parse` produces it. */
  datatype Json =
    | JNull
    | JBool(b: bool)
    | JNum(n: real)
    | JStr(s: string)
    | JArr(items: seq<Json>)
    | JObj(fields: map<string, Json>)

  /** What a storage key holds: the empty string (falsy, never parsed), text
      that `JSON.parse` rejects, or a parsed document. */
  datatype Stored = Blank | Unparseable | Doc(value: Json)

  type Storage = map<string, Stored>

  const SessionKey := "suburban_user"
  const UsersKey := "suburban_users"

  /** A user.  A user read back from storage is only checked for a string id
      and email, so its name and role are present only when stored as strings. */
  datatype User = User(id: string, email: string, name: Option<string>, role: Option<string>)

  datatype AuthResult = Success | Failure(error: string)

  /** JSON.stringify of a user with string name and role. */
  function Encode(u: User): (j: Json)
    ensures j.JObj? && "id" in j.fields && "email" in j.fields
  {
    var f := map["id" := JStr(u.id), "email" := JStr(u.email)];
    var f1 := if u.name.Some? then f["name" := JStr(u.name.value)] else f;
    JObj(if u.role.Some? then f1["role" := JStr(u.role.value)] else f1)
  }

  /** The stored-user check: a JSON object whose `id` and `email` are strings. */
  function DecodeUser(j: Json): (r: Option<User>)
    ensures r.Some? <==>
      j.JObj? && "id" in j.fields && j.fields["id"].JStr? && "email" in j.fields && j.fields["email"].JStr?
    ensures r.Some? ==> r.value.id == j.fields["id"].s && r.value.email == j.fields["email"].s
  {
    if j.JObj? && "id" in j.fields && j.fields["id"].JStr? && "email" in j.fields && j.fields["email"].JStr? then
      var name := if "name" in j.fields && j.fields["name"].JStr? then Some(j.fields["name"].s) else None;
      var role := if "role" in j.fields && j.fields["role"].JStr? then Some(j.fields["role"].s) else None;
      Some(User(j.fields["id"].s, j.fields["email"].s, name, role))
    else None
  }

  /** Reading back what was written gives the same user. */
  lemma DecodeEncode(u: User)
    ensures DecodeUser(Encode(u)) == Some(u)
  {
    var j := Encode(u);
    assert j.fields["id"] == JStr(u.id) && j.fields["email"] == JStr(u.email);
    if u.name.Some? {
      assert j.fields["name"] == JStr(u.name.value);
    } else {
      assert "name" !in j.fields;
    }
    if u.role.Some? {
      assert j.fields["role"] == JStr(u.role.value);
    } else {
      assert "role" !in j.fields;
    }
  }

  /** getStoredUser: the user in the session slot and the storage afterwards.
      A missing or empty slot gives no user and is left alone; a well-formed
      user is returned; anything else is removed. */
  function ReadStoredUser(st: Storage): (r: (Option<User>, Storage))
    ensures (SessionKey !in st || st[SessionKey].Blank?) ==> r == (None, st)
    ensures SessionKey in st && st[SessionKey].Doc? && DecodeUser(st[SessionKey].value).Some? ==>
      r == (DecodeUser(st[SessionKey].value), st)
    ensures (SessionKey in st && !st[SessionKey].Blank? &&
             !(st[SessionKey].Doc? && DecodeUser(st[SessionKey].value).Some?)) ==> r == (None, st - {SessionKey})
    ensures r.1 == st || r.1 == st - {SessionKey}
  {
    if SessionKey !in st then (None, st)
    else match st[SessionKey]
      case Blank => (None, st)
      case Unparseable => (None, st - {SessionKey})
      case Doc(v) =>
        var u := DecodeUser(v);
        if u.Some? then (u, st) else (None, st - {SessionKey})
  }

  datatype Credential = Credential(email: string, password: string, name: string, role: string)

  const Credentials: seq<Credential> := [
    Credential("admin@suburban.com", "admin123", "John Admin", "Administrator"),
    Credential("demo@suburban.com", "demo123", "Demo User", "Manager")
  ]

  predicate Matches(c: Credential, email: string, password: string)
  {
    Text.EqualsIgnoreCase(c.email, email) && c.password == password
  }

  /** validCredentials.find: the first credential whose email matches
      case-insensitively and whose password matches exactly. */
  function FindCredential(creds: seq<Credential>, email: string, password: string): (r: Option<Credential>)
    ensures r.Some? <==> exists i :: 0 <= i < |creds| && Matches(creds[i], email, password)
    ensures r.Some? ==>
      exists i :: 0 <= i < |creds| && creds[i] == r.value && Matches(r.value, email, password) &&
        forall j :: 0 <= j < i ==> !Matches(creds[j], email, password)
  {
    if creds == [] then None
    else if Matches(creds[0], email, password) then Some(creds[0])
    else
      var r := FindCredential(creds[1..], email, password);
      assert r.Some? ==>
        exists i :: 0 <= i < |creds| && creds[i] == r.value && Matches(r.value, email, password) &&
          forall j :: 0 <= j < i ==> !Matches(creds[j], email, password) by {
        if r.Some? {
          var i :| 0 <= i < |creds[1..]| && creds[1..][i] == r.value && Matches(r.value, email, password)
            && forall j :: 0 <= j < i ==> !Matches(creds[1..][j], email, password);
          assert creds[i + 1] == r.value;
          assert forall j :: 0 <= j < i + 1 ==> !Matches(creds[j], email, password) by {
            forall j | 0 <= j < i + 1 ensures !Matches(creds[j], email, password) {
              if j > 0 { assert creds[j] == creds[1..][j - 1]; }
            }
          }
        }
      }
      assert (exists i :: 0 <= i < |creds| && Matches(creds[i], email, password)) ==> r.Some? by {
        if i :| 0 <= i < |creds| && Matches(creds[i], email, password) {
          assert creds[1..][i - 1] == creds[i];
        }
      }
      r
  }

  /** The demo credentials: the admin's email in any letter case with its exact
      password signs in as the administrator. */
  lemma AdminLogin(email: string)
    requires Text.EqualsIgnoreCase(email, "admin@suburban.com")
    ensures FindCredential(Credentials, email, "admin123") == Some(Credentials[0])
  {
  }

  /** A wrong password matches neither credential. */
  lemma WrongPassword(email: string, password: string)
    requires password != "admin123" && password != "demo123"
    ensures FindCredential(Credentials, email, password) == None
  {
  }

  /** signup's validation cascade: the first failing check's message, if any.
      Lengths are JavaScript's, in UTF-16 code units. */
  function SignupError(name: string, email: string, password: string): (e: Option<string>)
    ensures Text.Utf16Length(name) < 2 ==> e == Some("Name must be at least 2 characters")
    ensures Text.Utf16Length(name) >= 2 && '@' !in email ==> e == Some("Please enter a valid email address")
    ensures Text.Utf16Length(name) >= 2 && '@' in email && Text.Utf16Length(password) < 6 ==> e == Some("Password must be at least 6 characters")
    ensures e.None? <==> Text.Utf16Length(name) >= 2 && '@' in email && Text.Utf16Length(password) >= 6
  {
    if Text.Utf16Length(name) < 2 then Some("Name must be at least 2 characters")
    else if '@' !in email then Some("Please enter a valid email address")
    else if Text.Utf16Length(password) < 6 then Some("Password must be at least 6 characters")
    else None
  }

  /** What `existingUsers.some(u => u.email.toLowerCase() === email.toLowerCase())`
      does: finds a match, finds none, or throws on an element without a string
      `email` before any match. */
  datatype Scan = Found | NotFound | Throws

  predicate HasEmail(u: Json) { u.JObj? && "email" in u.fields && u.fields["email"].JStr? }

  function ScanUsers(items: seq<Json>, email: string): (r: Scan)
    ensures r == NotFound <==> forall i :: 0 <= i < |items| ==>
      HasEmail(items[i]) && !Text.EqualsIgnoreCase(items[i].fields["email"].s, email)
    ensures r == Found ==>
      exists i :: 0 <= i < |items| && HasEmail(items[i]) && Text.EqualsIgnoreCase(items[i].fields["email"].s, email)
  {
    if items == [] then NotFound
    else if !HasEmail(items[0]) then Throws
    else if Text.EqualsIgnoreCase(items[0].fields["email"].s, email) then Found
    else
      var r := ScanUsers(items[1..], email);
      assert r == Found ==>
        exists i :: 0 <= i < |items| && HasEmail(items[i]) && Text.EqualsIgnoreCase(items[i].fields["email"].s, email) by {
        if r == Found {
          var i :| 0 <= i < |items[1..]| && HasEmail(items[1..][i])
            && Text.EqualsIgnoreCase(items[1..][i].fields["email"].s, email);
          assert items[i + 1] == items[1..][i];
        }
      }
      assert (forall i :: 0 <= i < |items| ==> HasEmail(items[i]) && !Text.EqualsIgnoreCase(items[i].fields["email"].s, email))
        <==> (forall i :: 0 <= i < |items[1..]| ==> HasEmail(items[1..][i]) && !Text.EqualsIgnoreCase(items[1..][i].fields["email"].s, email)) by {
        assert forall i :: 1 <= i < |items| ==> items[i] == items[1..][i - 1];
      }
      r
  }

  /** The user list signup starts from, or None when the email is taken:
      an absent or empty entry is the empty list; an unparseable entry, a
      non-array, or an array on which the scan throws is replaced by the empty
      list; an array without the email is kept as it is. */
  function ExistingUsers(st: Storage, email: string): (r: Option<seq<Json>>)
    ensures r.None? <==>
      (UsersKey in st && st[UsersKey].Doc? && st[UsersKey].value.JArr? &&
       ScanUsers(st[UsersKey].value.items, email) == Found)
    ensures r.Some? && r.value != [] ==>
      UsersKey in st && st[UsersKey] == Doc(JArr(r.value)) && ScanUsers(r.value, email) == NotFound
  {
    if UsersKey !in st then Some([])
    else match st[UsersKey]
      case Blank => Some([])
      case Unparseable => Some([])
      case Doc(v) =>
        if !v.JArr? then Some([])
        else match ScanUsers(v.items, email)
          case Found => None
          case NotFound => Some(v.items)
          case Throws => Some([])
  }

  /** The provider's state.  */
  class AuthStore {
    var user: Option<User>
    var isLoading: bool
    var storage: Storage

    predicate IsAuthenticated()
      reads this
    {
      user.Some?
    }

    constructor (st: Storage)
      ensures user == None && isLoading && storage == st
    {
      user, isLoading, storage := None, true, st;
    }

    /** getStoredUser, with its removal of a bad session entry. */
    method GetStoredUser() returns (u: Option<User>)
      modifies this
      ensures (u, storage) == ReadStoredUser(old(storage))
      ensures user == old(user) && isLoading == old(isLoading)
    {
      var r := ReadStoredUser(storage);
      u, storage := r.0, r.1;
    }

    /** The mount effect: restore a stored session and stop loading. */
    method Mount()
      modifies this
      ensures storage == ReadStoredUser(old(storage)).1 && !isLoading
      ensures user == if ReadStoredUser(old(storage)).0.Some? then ReadStoredUser(old(storage)).0 else old(user)
    {
      var stored := GetStoredUser();
      if stored.Some? {
        user := stored;
      }
      isLoading := false;
    }

    /** login: sign in as the matching demo credential, with the given fresh id. */
    method Login(email: string, password: string, newId: string) returns (res: AuthResult)
      modifies this
      ensures var m := FindCredential(Credentials, email, password);
        if m.Some? then
          res == Success &&
          user == Some(User(newId, m.value.email, Some(m.value.name), Some(m.value.role))) &&
          storage == old(storage)[SessionKey := Doc(Encode(user.value))]
        else
          res == Failure("Invalid email or password") && user == old(user) && storage == old(storage)
      ensures isLoading == old(isLoading)
    {
      var matched := FindCredential(Credentials, email, password);
      if matched.Some? {
        var userData := User(newId, matched.value.email, Some(matched.value.name), Some(matched.value.role));
        user := Some(userData);
        storage := storage[SessionKey := Doc(Encode(userData))];
        return Success;
      }
      return Failure("Invalid email or password");
    }

    /** signup: validate, reject a taken email, then sign in as a new "User" and
        append it to the user list. */
    method Signup(name: string, email: string, password: string, newId: string) returns (res: AuthResult)
      modifies this
      ensures SignupError(name, email, password).Some? ==>
        res == Failure(SignupError(name, email, password).value) && user == old(user) && storage == old(storage)
      ensures SignupError(name, email, password).None? && ExistingUsers(old(storage), email).None? ==>
        res == Failure("An account with this email already exists") && user == old(user) && storage == old(storage)
      ensures SignupError(name, email, password).None? && ExistingUsers(old(storage), email).Some? ==>
        var u := User(newId, email, Some(name), Some("User"));
        res == Success && user == Some(u) &&
        storage == old(storage)[SessionKey := Doc(Encode(u))]
                               [UsersKey := Doc(JArr(ExistingUsers(old(storage), email).value + [Encode(u)]))]
      ensures isLoading == old(isLoading)
    {
      var err := SignupError(name, email, password);
      if err.Some? {
        return Failure(err.value);
      }
      var existing := ExistingUsers(storage, email);
      if existing.None? {
        return Failure("An account with this email already exists");
      }
      var userData := User(newId, email, Some(name), Some("User"));
      user := Some(userData);
      storage := storage[SessionKey := Doc(Encode(userData))];
      var users := existing.value + [Encode(userData)];
      storage := storage[UsersKey := Doc(JArr(users))];
      return Success;
    }

    /** logout: forget the user and the session slot; the user list stays. */
    method Logout()
      modifies this
      ensures user == None && !IsAuthenticated()
      ensures storage == old(storage) - {SessionKey}
      ensures UsersKey in old(storage) ==> UsersKey in storage && storage[UsersKey] == old(storage)[UsersKey]
      ensures isLoading == old(isLoading)
    {
      user := None;
      storage := storage - {SessionKey};
    }
  }

  /** After a login or signup the stored session reads back as the new user. */
  lemma SessionRoundTrip(st: Storage, u: User)
    ensures ReadStoredUser(st[SessionKey := Doc(Encode(u))]) == (Some(u), st[SessionKey := Doc(Encode(u))])
  {
    DecodeEncode(u);
  }

  /** After a successful signup the new user's email is taken: the same signup
      again, in any letter case, is rejected as a duplicate. */
  lemma {:induction false} SignupThenDuplicate(st: Storage, name: string, email: string, newId: string, email2: string)
    requires ExistingUsers(st, email).Some?
    requires Text.EqualsIgnoreCase(email, email2)
    ensures var u := User(newId, email, Some(name), Some("User"));
      var st2 := st[SessionKey := Doc(Encode(u))][UsersKey := Doc(JArr(ExistingUsers(st, email).value + [Encode(u)]))];
      ExistingUsers(st2, email2).None?
  {
    var u := User(newId, email, Some(name), Some("User"));
    var old_ := ExistingUsers(st, email).value;
    var items := old_ + [Encode(u)];
    if old_ != [] {
      assert ScanUsers(old_, email) == NotFound;
      ScanNotFoundCaseInsensitive(old_, email, email2);
    }
    ScanAppendFound(old_, Encode(u), email2);
  }

  /** NotFound does not depend on the letter case of the email. */
  lemma ScanNotFoundCaseInsensitive(items: seq<Json>, e1: string, e2: string)
    requires Text.EqualsIgnoreCase(e1, e2) && ScanUsers(items, e1) == NotFound
    ensures ScanUsers(items, e2) == NotFound
  {
  }

  /** A list without the email, followed by a user with it, scans as Found. */
  lemma {:induction false} ScanAppendFound(items: seq<Json>, last: Json, email: string)
    requires items == [] || ScanUsers(items, email) == NotFound
    requires HasEmail(last) && Text.EqualsIgnoreCase(last.fields["email"].s, email)
    ensures ScanUsers(items + [last], email) == Found
  {
    if items != [] {
      assert (items + [last])[0] == items[0];
      assert (items + [last])[1..] == items[1..] + [last];
      if items[1..] != [] {
        assert ScanUsers(items[1..], email) == NotFound;
      }
      ScanAppendFound(items[1..], last, email);
    } else {
      assert items + [last] == [last];
    }
  }

  /** A successful signup appends exactly one entry and keeps the earlier ones. */
  lemma SignupAppends(st: Storage, email: string, u: User)
    requires ExistingUsers(st, email).Some?
    requires UsersKey in st && st[UsersKey].Doc? && st[UsersKey].value.JArr?
    requires ScanUsers(st[UsersKey].value.items, email) == NotFound
    ensures var items := ExistingUsers(st, email).value + [Encode(u)];
      |items| == |st[UsersKey].value.items| + 1 && items[..|items| - 1] == st[UsersKey].value.items
      && items[|items| - 1] == Encode(u)
  {
  }
}
