/**
 * The login page (`Login`): two credential forms and the two submit
 * handlers, which write the role's token and user object to `localStorage`
 * on success and nothing on failure.
 */
module LoginPage {
  import opened Wrappers
  import opened Records
  import opened Session

  const EmployeeLoginEndpoint := "/api/employee/login"
  const AdminLoginEndpoint := "/api/admin/login"
  const UserDashboardPath := "/user/dashboard"
  const AdminDashboardPath := "/admin/dashboard"

  /** The fallback the employee handler throws when the server gives no `error`. */
  const EmployeeFallback := "Login failed"
  /** The toast text the admin handler shows when the thrown error has an empty message. */
  const AdminFallback := "Admin login failed. Please try again."

  /** `localStorage.setItem(key, undefined)` and `JSON.stringify(undefined)` both store this text. */
  const Undefined := "undefined"

  /** The body of a successful login: `{ token, user }`. */
  datatype LoginData = LoginData(token: string, user: User)

  /**
   * How a submit ends: navigation to the role's dashboard, or a toast whose
   * text is `Some` when it is fixed by the response and `None` when it is the
   * platform's own message (a network error, a body that is not JSON).
   */
  datatype LoginResult = LoggedIn(dashboard: string) | LoginFailed(message: Option<string>)

  /** `data.token` as stored: a reply whose JSON is not `{ token, user }` has none. */
  function StoredToken(body: Body<LoginData>): string
  {
    if body.Value? then body.value.token else Undefined
  }

  /** `JSON.stringify(data.user)` as stored. */
  function StoredUser(body: Body<LoginData>): string
  {
    if body.Value? then EncodeUser(body.value.user) else Undefined
  }

  /** Both handlers write exactly when the reply is ok and its body is JSON. */
  predicate Accepted(resp: Response<LoginData>)
  {
    resp.Ok() && !resp.body.NotJson?
  }

  /** The store after `handleEmployeeSubmit`. */
  function EmployeeLoginStore(store: Storage, resp: Response<LoginData>): (r: Storage)
    ensures !Accepted(resp) ==> r == store
    ensures Accepted(resp) ==>
      GetItem(r, EmployeeTokenKey) == Some(StoredToken(resp.body))
      && GetItem(r, UserDataKey) == Some(StoredUser(resp.body))
    ensures forall k :: k != EmployeeTokenKey && k != UserDataKey ==> GetItem(r, k) == GetItem(store, k)
  {
    if Accepted(resp) then store[EmployeeTokenKey := StoredToken(resp.body)][UserDataKey := StoredUser(resp.body)]
    else store
  }

  /** The store after `handleAdminSubmit`. */
  function AdminLoginStore(store: Storage, resp: Response<LoginData>): (r: Storage)
    ensures !Accepted(resp) ==> r == store
    ensures Accepted(resp) ==>
      GetItem(r, AdminTokenKey) == Some(StoredToken(resp.body))
      && GetItem(r, AdminDataKey) == Some(StoredUser(resp.body))
    ensures forall k :: k != AdminTokenKey && k != AdminDataKey ==> GetItem(r, k) == GetItem(store, k)
  {
    if Accepted(resp) then store[AdminTokenKey := StoredToken(resp.body)][AdminDataKey := StoredUser(resp.body)]
    else store
  }

  /**
   * The employee handler's outcome. A non-ok reply is read as JSON and its
   * `error` thrown, or `'Login failed'` when it has none.
   */
  function EmployeeLoginResult(resp: Response<LoginData>): (r: LoginResult)
    ensures r.LoggedIn? <==> Accepted(resp)
    ensures r.LoggedIn? ==> r.dashboard == UserDashboardPath
    ensures resp.NetworkError? || resp.body.NotJson? ==> r == LoginFailed(None)
    ensures resp.Reply? && !resp.Ok() && resp.body.ErrorJson? && resp.body.error != "" ==>
      r == LoginFailed(Some(resp.body.error))
    ensures resp.Reply? && !resp.Ok() && (resp.body.Value? || resp.body == ErrorJson("")) ==>
      r == LoginFailed(Some(EmployeeFallback))
  {
    if Accepted(resp) then LoggedIn(UserDashboardPath)
    else if resp.NetworkError? || resp.body.NotJson? then LoginFailed(None)
    else if resp.body.ErrorJson? && resp.body.error != "" then LoginFailed(Some(resp.body.error))
    else LoginFailed(Some(EmployeeFallback))
  }

  /**
   * The admin handler's outcome. The body is read as JSON before `ok` is
   * looked at; a non-ok reply throws its `error`, and an empty message is
   * shown as the admin fallback text.
   */
  function AdminLoginResult(resp: Response<LoginData>): (r: LoginResult)
    ensures r.LoggedIn? <==> Accepted(resp)
    ensures r.LoggedIn? ==> r.dashboard == AdminDashboardPath
    ensures resp.NetworkError? || resp.body.NotJson? ==> r == LoginFailed(None)
    ensures resp.Reply? && !resp.Ok() && resp.body.ErrorJson? && resp.body.error != "" ==>
      r == LoginFailed(Some(resp.body.error))
    ensures resp.Reply? && !resp.Ok() && (resp.body.Value? || resp.body == ErrorJson("")) ==>
      r == LoginFailed(Some(AdminFallback))
  {
    if Accepted(resp) then LoggedIn(AdminDashboardPath)
    else if resp.NetworkError? || resp.body.NotJson? then LoginFailed(None)
    else if resp.body.ErrorJson? && resp.body.error != "" then LoginFailed(Some(resp.body.error))
    else LoginFailed(Some(AdminFallback))
  }

  class Login {
    /** `employeeCredentials`: the form object, keyed by input name. */
    var employeeCredentials: map<string, string>
    /** `adminCredentials`: the form object, keyed by input name. */
    var adminCredentials: map<string, string>
    var storage: Storage

    constructor(store: Storage)
      ensures employeeCredentials == map["login" := "", "password" := ""]
      ensures adminCredentials == map["username" := "", "password" := ""]
      ensures storage == store
    {
      employeeCredentials := map["login" := "", "password" := ""];
      adminCredentials := map["username" := "", "password" := ""];
      storage := store;
    }

    /** `handleEmployeeInputChange`: the named field of the employee form takes the new value; the others stay. */
    method EmployeeInputChange(name: string, value: string)
      modifies this`employeeCredentials
      ensures employeeCredentials == old(employeeCredentials)[name := value]
    {
      employeeCredentials := employeeCredentials[name := value];
    }

    /** `handleAdminInputChange`: the named field of the admin form takes the new value; the others stay. */
    method AdminInputChange(name: string, value: string)
      modifies this`adminCredentials
      ensures adminCredentials == old(adminCredentials)[name := value]
    {
      adminCredentials := adminCredentials[name := value];
    }

    /** `handleEmployeeSubmit` */
    method EmployeeSubmit(resp: Response<LoginData>) returns (req: Request, result: LoginResult)
      modifies this`storage
      ensures req == Request(Post, EmployeeLoginEndpoint, None, CredentialsJson(employeeCredentials))
      ensures storage == EmployeeLoginStore(old(storage), resp)
      ensures result == EmployeeLoginResult(resp)
    {
      req := Request(Post, EmployeeLoginEndpoint, None, CredentialsJson(employeeCredentials));
      if resp.Ok() && !resp.body.NotJson? {
        storage := storage[EmployeeTokenKey := StoredToken(resp.body)];
        storage := storage[UserDataKey := StoredUser(resp.body)];
      }
      result := EmployeeLoginResult(resp);
    }

    /** `handleAdminSubmit` */
    method AdminSubmit(resp: Response<LoginData>) returns (req: Request, result: LoginResult)
      modifies this`storage
      ensures req == Request(Post, AdminLoginEndpoint, None, CredentialsJson(adminCredentials))
      ensures storage == AdminLoginStore(old(storage), resp)
      ensures result == AdminLoginResult(resp)
    {
      req := Request(Post, AdminLoginEndpoint, None, CredentialsJson(adminCredentials));
      if resp.Ok() && !resp.body.NotJson? {
        storage := storage[AdminTokenKey := StoredToken(resp.body)];
        storage := storage[AdminDataKey := StoredUser(resp.body)];
      }
      result := AdminLoginResult(resp);
    }
  }

  // ---- the two halves of the session model together ----

  /**
   * A successful employee login with a non-empty token opens the employee
   * dashboard: its guard then finds exactly that token and that user.
   */
  lemma EmployeeLoginOpensDashboard(store: Storage, token: string, user: User, status: int)
    requires 200 <= status <= 299 && token != ""
    ensures ResolveEmployeeSession(EmployeeLoginStore(store, Reply(status, Value(LoginData(token, user)))))
            == Some(EmployeeSession(token, user))
  {
    DecodeEncodeUser(user);
  }

  /**
   * The admin login never writes the `token` key the admin dashboard reads,
   * so it cannot open that dashboard by itself: the guard decides as before.
   */
  lemma AdminLoginLeavesDashboardTokenAlone(store: Storage, resp: Response<LoginData>)
    ensures GetItem(AdminLoginStore(store, resp), TokenKey) == GetItem(store, TokenKey)
    ensures ResolveAdminToken(AdminLoginStore(store, resp)) == ResolveAdminToken(store)
  {
    assert TokenKey != AdminTokenKey && TokenKey != AdminDataKey;
  }

  /** The two logins write disjoint keys: neither disturbs the other role's session. */
  lemma LoginsKeepRolesApart(store: Storage, resp: Response<LoginData>)
    ensures ResolveEmployeeSession(AdminLoginStore(store, resp)) == ResolveEmployeeSession(store)
    ensures ResolveAdminToken(EmployeeLoginStore(store, resp)) == ResolveAdminToken(store)
  {
    var a := AdminLoginStore(store, resp);
    assert GetItem(a, EmployeeTokenKey) == GetItem(store, EmployeeTokenKey);
    assert GetItem(a, UserDataKey) == GetItem(store, UserDataKey);
    assert GetItem(EmployeeLoginStore(store, resp), TokenKey) == GetItem(store, TokenKey);
  }
  /**
   * An ok reply whose JSON is not `{ token, user }` stores the text
   * `undefined` under both keys; the employee guard then still refuses the
   * session, since that text is not a user object.
   */
  lemma UndefinedLoginStaysClosed(store: Storage, status: int, error: string)
    requires 200 <= status <= 299
    ensures EmployeeLoginResult(Reply(status, ErrorJson(error))) == LoggedIn(UserDashboardPath)
    ensures ResolveEmployeeSession(EmployeeLoginStore(store, Reply(status, ErrorJson(error)))) == None
  {
    assert |Undefined| < |UserPrefix| + |UserSuffix|;
  }
}
