/** The login and signup pages (auth.js): where a role lands after signing
    in, what a login writes to the browser's storage, the signup password
    check, and the redirect of an already signed-in visitor. */
module Auth {
  import opened Base
  import opened DashboardRoles

  const UserPage: string := "/user.html"
  const DashboardPrefix: string := "/dashboard.html?view="
  const SignupDonePage: string := "/login.html?from=signup"
  const MismatchMessage: string := "كلمتا المرور غير متطابقتين."

  /** `redirectToDashboard(role)`: the page a role is sent to. */
  function RedirectToDashboard(role: string): (url: string)
    ensures IsManagingRole(role) ==> url == DashboardPrefix + role
    ensures !IsManagingRole(role) ==> url == UserPage
  {
    match role
    case "player" => UserPage
    case "employee" => DashboardPrefix + role
    case "owner" => DashboardPrefix + role
    case "admin" => DashboardPrefix + role
    case _ => UserPage
  }

  /** The dashboard address names the role it was built for: reading the
      `view` parameter back gives the role, so two roles that share a landing
      page both lack a dashboard or are the same role. */
  lemma RedirectNamesRole(r1: string, r2: string)
    ensures IsManagingRole(r1) ==>
      RedirectToDashboard(r1)[..|DashboardPrefix|] == DashboardPrefix
      && RedirectToDashboard(r1)[|DashboardPrefix|..] == r1
    ensures RedirectToDashboard(r1) == RedirectToDashboard(r2) ==>
      r1 == r2 || (!IsManagingRole(r1) && !IsManagingRole(r2))
  {
    if IsManagingRole(r1) {
      assert RedirectToDashboard(r1)[|DashboardPrefix|..] == r1;
    }
    if IsManagingRole(r2) {
      assert RedirectToDashboard(r2)[|DashboardPrefix|..] == r2;
    }
  }

  /** The backend requests these pages make. */
  datatype AuthRequest =
    | LoginRequest(email: string, password: string)
    | SignupRequest(name: string, email: string, password: string)

  /** The path each request is posted to. */
  function RequestPath(r: AuthRequest): string
  {
    match r
    case LoginRequest(_, _) => "/auth/login"
    case SignupRequest(_, _, _) => "/auth/signup"
  }

  /** A successful login reply. */
  datatype LoginReply = LoginReply(token: string, role: string)

  /** What a handler ends with: a navigation, or an error alert. */
  datatype Outcome = Navigate(url: string) | ShowAlert(message: string)

  /** `getItem` followed by a truthiness test: present and not empty. */
  predicate IsSet(items: map<string, string>, key: string)
  {
    key in items && items[key] != ""
  }

  /** The page-load check: an already signed-in visitor (both `token` and
      `role` set) is sent to the landing page of the stored role. */
  function OnLoadRedirect(items: map<string, string>): (r: Option<string>)
    ensures r.Some? <==> IsSet(items, "token") && IsSet(items, "role")
    ensures r.Some? ==> r.value == RedirectToDashboard(items["role"])
  {
    if IsSet(items, "token") && IsSet(items, "role") then Some(RedirectToDashboard(items["role"]))
    else None
  }

  /** The browser's `localStorage`. */
  class LocalStorage {
    var items: map<string, string>

    constructor (initial: map<string, string>)
      ensures items == initial
    {
      items := initial;
    }

    method SetItem(key: string, value: string)
      modifies this
      ensures items == old(items)[key := value]
    {
      items := items[key := value];
    }

    method RemoveItem(key: string)
      modifies this
      ensures items == old(items) - {key}
    {
      items := items - {key};
    }
  }

  /** The storage keys a login writes. */
  const LoginKeys: set<string> := {"token", "role", "rememberedEmail"}

  /** `handleLogin`: posts the credentials; on success stores the token and
      role, stores or forgets the email as "remember me" says, and redirects by
      the returned role; on failure alerts with the error and writes nothing. */
  method HandleLogin(storage: LocalStorage, email: string, password: string, rememberMe: bool,
                     reply: Result<LoginReply, string>)
    returns (request: AuthRequest, outcome: Outcome)
    modifies storage
    ensures request == LoginRequest(email, password) && RequestPath(request) == "/auth/login"
    ensures reply.Err? ==> outcome == ShowAlert(reply.error) && storage.items == old(storage.items)
    ensures reply.Ok? ==> outcome == Navigate(RedirectToDashboard(reply.value.role))
    ensures reply.Ok? ==>
      "token" in storage.items && storage.items["token"] == reply.value.token
      && "role" in storage.items && storage.items["role"] == reply.value.role
    ensures reply.Ok? && rememberMe ==>
      "rememberedEmail" in storage.items && storage.items["rememberedEmail"] == email
    ensures reply.Ok? && !rememberMe ==> "rememberedEmail" !in storage.items
    ensures storage.items - LoginKeys == old(storage.items) - LoginKeys
    ensures reply.Ok? && reply.value.token != "" && reply.value.role != "" ==>
      OnLoadRedirect(storage.items) == Some(outcome.url)
  {
    request := LoginRequest(email, password);
    match reply {
      case Err(message) =>
        outcome := ShowAlert(message);
      case Ok(data) =>
        storage.SetItem("token", data.token);
        storage.SetItem("role", data.role);
        if rememberMe {
          storage.SetItem("rememberedEmail", email);
        } else {
          storage.RemoveItem("rememberedEmail");
        }
        outcome := Navigate(RedirectToDashboard(data.role));
    }
  }

  /** `handleSignup`: mismatched passwords only alert; otherwise the account
      is requested and a success leads to the login page, a failure to an
      alert with the error. */
  method HandleSignup(name: string, email: string, password: string, confirmPassword: string,
                      reply: Result<(), string>)
    returns (request: Option<AuthRequest>, outcome: Outcome)
    ensures password != confirmPassword ==> request == None && outcome == ShowAlert(MismatchMessage)
    ensures password == confirmPassword ==> request == Some(SignupRequest(name, email, password))
    ensures request.Some? ==> RequestPath(request.value) == "/auth/signup"
    ensures password == confirmPassword && reply.Ok? ==> outcome == Navigate(SignupDonePage)
    ensures password == confirmPassword && reply.Err? ==> outcome == ShowAlert(reply.error)
    ensures request.None? ==> outcome.ShowAlert?
  {
    if password != confirmPassword {
      return None, ShowAlert(MismatchMessage);
    }
    request := Some(SignupRequest(name, email, password));
    match reply {
      case Ok(_) =>
        outcome := Navigate(SignupDonePage);
      case Err(message) =>
        outcome := ShowAlert(message);
    }
  }
}
