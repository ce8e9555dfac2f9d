/** The mock credential gateway of services/auth.ts: a fixed two-account
    directory, one shared password, and a single process-wide slot holding
    the identity last established. The simulated latency (`delay`) is
    nothing here, and `Date.now()` is the parameter `now`. */
module Auth {
  import opened Wrappers
  import opened Types
  import Decimal

  const TouristEmail: string := "tourist@monastery.com"
  const AdminEmail: string := "admin@monastery.com"
  const DemoPassword: string := "123456"
  const InvalidCredentials: string := "Invalid credentials"
  const TokenPrefix: string := "mock_token_"

  /** The preference bundle the gateway writes for a new account; the
      tourist fixture carries the same values. */
  const DefaultPreferences: UserPreferences :=
    UserPreferences("en", true, false, AudioGuideSettings(true, 0.8, "female_calm", Medium))

  const TouristAccount: User := User(
    "1", TouristEmail, "Elena Rodriguez", Tourist,
    Some("https://images.unsplash.com/photo-1494790108755-2616b612b913?w=150&h=150&fit=crop&crop=face"),
    Some(DefaultPreferences))

  const AdminAccount: User := User(
    "2", AdminEmail, "Brother Marcus", Admin,
    Some("https://images.unsplash.com/photo-1472099645785-5658abf4ff4e?w=150&h=150&fit=crop&crop=face"),
    None)

  /** The mock directory, keyed by email (its own entries only). */
  const Directory: map<string, User> := map[TouristEmail := TouristAccount, AdminEmail := AdminAccount]

  /** Credential check of `login`: the directory entry for `email` when that
      entry exists and the password is the shared demo password, and the
      error "Invalid credentials" otherwise. */
  function Authenticate(email: string, password: string): (r: Result<User>)
    ensures r.Success? <==> (email == TouristEmail || email == AdminEmail) && password == DemoPassword
    ensures r.Success? ==> r.value.email == email
    ensures r.Success? && email == TouristEmail ==>
              r.value.id == "1" && r.value.name == "Elena Rodriguez" && r.value.role == Tourist
    ensures r.Success? && email == AdminEmail ==>
              r.value.id == "2" && r.value.name == "Brother Marcus" && r.value.role == Admin
              && r.value.preferences.None?
    ensures r.Failure? ==> r.error == InvalidCredentials
  {
    if email in Directory && password == DemoPassword then Success(Directory[email])
    else Failure(InvalidCredentials)
  }

  /** The identity `signup` manufactures at clock reading `now`: always a
      tourist, with no avatar and the default preference bundle. */
  function SignupUser(now: nat, name: string, email: string): (u: User)
    ensures u.name == name && u.email == email
    ensures u.role == Tourist && u.avatar.None? && u.preferences == Some(DefaultPreferences)
    ensures Decimal.IsNumeral(u.id) && Decimal.Parse(u.id) == now
    ensures u.id == Decimal.Render(now)
    ensures |u.id| > 1 ==> u.id[0] != '0'
  {
    Decimal.ParseRender(now);
    User(Decimal.Render(now), email, name, Tourist, None, Some(DefaultPreferences))
  }

  /** Accounts created at different clock readings get different ids. */
  lemma SignupIdsDistinct(now1: nat, now2: nat, name1: string, email1: string, name2: string, email2: string)
    requires now1 != now2
    ensures SignupUser(now1, name1, email1).id != SignupUser(now2, name2, email2).id
  {
    Decimal.RenderInjective(now1, now2);
  }

  /** What `refreshToken` resolves with for a given slot at clock `now`. */
  function Token(slot: Option<User>, now: nat): (t: Option<string>)
    ensures t.None? <==> slot.None?
    ensures t.Some? ==> |t.value| > |TokenPrefix| && t.value[..|TokenPrefix|] == TokenPrefix
    ensures t.Some? ==> Decimal.IsNumeral(t.value[|TokenPrefix|..]) && Decimal.Parse(t.value[|TokenPrefix|..]) == now
    ensures t.Some? ==> t.value == TokenPrefix + Decimal.Render(now)
  {
    if slot.Some? then
      var stamp := Decimal.Render(now);
      Decimal.ParseRender(now);
      assert (TokenPrefix + stamp)[|TokenPrefix|..] == stamp;
      Some(TokenPrefix + stamp)
    else None
  }

  /** The gateway object; `currentUser` is the process-wide slot. */
  class AuthService {
    var currentUser: Option<User>

    constructor ()
      ensures currentUser == None
    {
      currentUser := None;
    }

    /** The slot is written only after the credential check, so a rejected
        login leaves it as it was. */
    method Login(email: string, password: string) returns (r: Result<User>)
      modifies this
      ensures r == Authenticate(email, password)
      ensures currentUser == if r.Success? then Some(r.value) else old(currentUser)
    {
      if !(email in Directory) || password != DemoPassword {
        return Failure(InvalidCredentials);
      }
      var user := Directory[email];
      currentUser := Some(user);
      r := Success(user);
    }

    /** Never fails; the password is not looked at. */
    method Signup(name: string, email: string, password: string, now: nat) returns (u: User)
      modifies this
      ensures u == SignupUser(now, name, email)
      ensures currentUser == Some(u)
    {
      u := User(Decimal.Render(now), email, name, Tourist, None, Some(DefaultPreferences));
      currentUser := Some(u);
    }

    method Logout()
      modifies this
      ensures currentUser == None
    {
      currentUser := None;
    }

    method GetCurrentUser() returns (u: Option<User>)
      ensures u == currentUser
    {
      u := currentUser;
    }

    method RefreshToken(now: nat) returns (t: Option<string>)
      ensures t == Token(currentUser, now)
    {
      if currentUser.Some? {
        t := Some(TokenPrefix + Decimal.Render(now));
      } else {
        t := None;
      }
    }
  }

  // The directory lookup as the source writes it. The directory is a plain
  // object, and indexing it by the email also finds the members every object
  // inherits from Object.prototype, each of which is truthy.

  /** Property names an object literal inherits from Object.prototype. */
  const InheritedKeys: set<string> := {
    "constructor", "hasOwnProperty", "isPrototypeOf", "propertyIsEnumerable",
    "toLocaleString", "toString", "valueOf", "__proto__",
    "__defineGetter__", "__defineSetter__", "__lookupGetter__", "__lookupSetter__"
  }

  /** What indexing the directory object by an email yields: an own entry,
      an inherited member, or `undefined`. */
  datatype Lookup = OwnEntry(user: User) | InheritedMember(key: string) | Undefined

  function LookupAsWritten(email: string): (l: Lookup)
    ensures l.OwnEntry? <==> email in Directory
    ensures l.InheritedMember? <==> email !in Directory && email in InheritedKeys
    ensures l.InheritedMember? ==> l.key == email
  {
    if email in Directory then OwnEntry(Directory[email])
    else if email in InheritedKeys then InheritedMember(email)
    else Undefined
  }

  /** The source's guard applied to that lookup: reject when nothing was
      found or when the password is not the demo password. */
  function AuthenticateAsWritten(email: string, password: string): (r: Result<Lookup>)
    ensures r.Success? <==> LookupAsWritten(email) != Undefined && password == DemoPassword
    ensures r.Failure? ==> r.error == InvalidCredentials
  {
    var found := LookupAsWritten(email);
    if found.Undefined? || password != DemoPassword then Failure(InvalidCredentials)
    else Success(found)
  }

  /** An email that names no account passes the guard as written, while the
      corrected check rejects it. */
  lemma InheritedKeyPassesGuard()
    ensures AuthenticateAsWritten("constructor", DemoPassword) == Success(InheritedMember("constructor"))
    ensures Authenticate("constructor", DemoPassword) == Failure(InvalidCredentials)
  {
    assert "constructor" != TouristEmail && "constructor" != AdminEmail;
  }

  /** The same holds for every inherited name: none of them is a directory
      email, and each passes the guard as written with the demo password. */
  lemma EveryInheritedKeyPassesGuard(k: string)
    requires k in InheritedKeys
    ensures AuthenticateAsWritten(k, DemoPassword) == Success(InheritedMember(k))
    ensures Authenticate(k, DemoPassword) == Failure(InvalidCredentials)
  {
    assert k != TouristEmail && k != AdminEmail;
  }

  /** Away from the inherited names the two checks agree. */
  lemma AsWrittenAgreesOffPrototype(email: string, password: string)
    requires email !in InheritedKeys
    ensures AuthenticateAsWritten(email, password).Success? == Authenticate(email, password).Success?
    ensures Authenticate(email, password).Success? ==>
              AuthenticateAsWritten(email, password) == Success(OwnEntry(Authenticate(email, password).value))
  {
  }
}
