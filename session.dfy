/**
 * `localStorage` as a map from key to text, the keys each role uses, the
 * JSON text the login writes under `userData`/`adminData`, and the session
 * guards the dashboards run before a request.
 */
module Session {
  import opened Wrappers

  /** The store behind `localStorage`. */
  type Storage = map<string, string>

  const EmployeeTokenKey := "employeeToken"
  const UserDataKey := "userData"
  const AdminTokenKey := "adminToken"
  const AdminDataKey := "adminData"
  /** The unscoped key the admin dashboard reads its bearer token from. */
  const TokenKey := "token"

  const UserLoginPath := "/user/login"
  const AdminLoginPath := "/admin/login"

  /** The user object the login endpoint returns; the dashboards read only its `name`. */
  datatype User = User(name: string)

  /** `localStorage.getItem(key)`: `None` stands for `null`. */
  function GetItem(store: Storage, key: string): Option<string>
  {
    if key in store then Some(store[key]) else None
  }

  /** JavaScript truthiness of `getItem`'s result: neither `null` nor the empty string. */
  predicate Truthy(v: Option<string>)
  {
    v.Some? && v.value != ""
  }

  /** The header a handler sends: `Bearer ${token}`, which spells a missing token `null`. */
  function BearerHeader(token: Option<string>): string
  {
    "Bearer " + (if token.Some? then token.value else "null")
  }

  // ---- the JSON text of a user object ----

  function EscapeChar(c: char): string
  {
    if c == '"' || c == '\\' then ['\\', c] else [c]
  }

  /** Backslash-escape quotes and backslashes, as in a JSON string literal. */
  function Escape(s: string): string
    decreases |s|
  {
    if s == [] then "" else EscapeChar(s[0]) + Escape(s[1..])
  }

  /** Read back the inside of a JSON string literal; `None` for a stray quote or backslash. */
  function Unescape(s: string): Option<string>
    decreases |s|
  {
    if s == [] then Some("")
    else if s[0] == '\\' then
      if |s| >= 2 && (s[1] == '"' || s[1] == '\\') then
        match Unescape(s[2..])
        case Some(rest) => Some([s[1]] + rest)
        case None => None
      else None
    else if s[0] == '"' then None
    else
      match Unescape(s[1..])
      case Some(rest) => Some([s[0]] + rest)
      case None => None
  }

  lemma {:induction false} UnescapeEscape(s: string)
    ensures Unescape(Escape(s)) == Some(s)
    decreases |s|
  {
    if s != [] {
      UnescapeEscape(s[1..]);
      var e := Escape(s);
      assert e == EscapeChar(s[0]) + Escape(s[1..]);
      if s[0] == '"' || s[0] == '\\' {
        assert e[2..] == Escape(s[1..]);
      } else {
        assert e[1..] == Escape(s[1..]);
      }
      assert [s[0]] + s[1..] == s;
    }
  }

  /** Text that reads back as a string is exactly the escaped form of that string. */
  lemma {:induction false} EscapeUnescape(s: string)
    requires Unescape(s).Some?
    ensures Escape(Unescape(s).value) == s
    decreases |s|
  {
    if s != [] {
      var t := Unescape(s).value;
      if s[0] == '\\' {
        EscapeUnescape(s[2..]);
        assert t == [s[1]] + Unescape(s[2..]).value;
        assert t[1..] == Unescape(s[2..]).value;
        assert s == [s[0], s[1]] + s[2..];
      } else {
        EscapeUnescape(s[1..]);
        assert t == [s[0]] + Unescape(s[1..]).value;
        assert t[1..] == Unescape(s[1..]).value;
        assert s == [s[0]] + s[1..];
      }
    }
  }

  const UserPrefix := "{\"name\":\""
  const UserSuffix := "\"}"

  /** `JSON.stringify(user)`. */
  function EncodeUser(u: User): string
  {
    UserPrefix + Escape(u.name) + UserSuffix
  }

  /** `JSON.parse(text)` for a stored user object; `None` for text that is not one. */
  function DecodeUser(text: string): (r: Option<User>)
    ensures r.Some? ==> EncodeUser(r.value) == text
  {
    var p, q := |UserPrefix|, |UserSuffix|;
    if |text| >= p + q && text[..p] == UserPrefix && text[|text| - q..] == UserSuffix then
      var inner := text[p..|text| - q];
      match Unescape(inner)
      case Some(name) =>
        EscapeUnescape(inner);
        assert text == UserPrefix + inner + UserSuffix;
        Some(User(name))
      case None => None
    else None
  }

  /** The text the login stores for a user parses back to that user. */
  lemma DecodeEncodeUser(u: User)
    ensures DecodeUser(EncodeUser(u)) == Some(u)
  {
    var text := EncodeUser(u);
    var p, q := |UserPrefix|, |UserSuffix|;
    assert text[..p] == UserPrefix;
    assert text[|text| - q..] == UserSuffix;
    assert text[p..|text| - q] == Escape(u.name);
    UnescapeEscape(u.name);
  }

  // ---- session guards ----

  /** What the employee dashboard needs before it sends a request. */
  datatype EmployeeSession = EmployeeSession(token: string, user: User)

  /**
   * The employee guard: it reads `employeeToken` and parses `userData`, and
   * lets the handler go on only when both are truthy.
   */
  function ResolveEmployeeSession(store: Storage): (r: Option<EmployeeSession>)
    ensures r.Some? <==> Truthy(GetItem(store, EmployeeTokenKey))
                          && UserDataKey in store && DecodeUser(store[UserDataKey]).Some?
    ensures r.Some? ==> r.value.token == store[EmployeeTokenKey]
                        && Some(r.value.user) == DecodeUser(store[UserDataKey])
  {
    var token := GetItem(store, EmployeeTokenKey);
    var user := if UserDataKey in store then DecodeUser(store[UserDataKey]) else None;
    if Truthy(token) && user.Some? then Some(EmployeeSession(token.value, user.value)) else None
  }

  /** The admin guard: it reads `token` and lets the handler go on only when that is truthy. */
  function ResolveAdminToken(store: Storage): (r: Option<string>)
    ensures r.Some? <==> TokenKey in store && store[TokenKey] != ""
    ensures r.Some? ==> r.value == store[TokenKey]
  {
    var token := GetItem(store, TokenKey);
    if Truthy(token) then token else None
  }
}
