/// `Frontend/src/main.js`: the single page's shared state (the token held in
/// memory and in `localStorage`, the module on screen, the account being
/// edited), hash routing between modules, the login and logout flow, the
/// handling of expired sessions, and the account dialog's helpers.
module AppShell {
  import opened Text
  import opened HandlerCommon
  import Auth
  import AccountHandler
  import AccountsView

  // ---------------------------------------------------------------------
  // Modules and routing

  /// The ids of the menu entries, group by group.
  const MenuIds: seq<string> := [
    "add-zone", "dns-records", "del-dns", "proxy-toggle", "del-zone", "export-zones",
    "ssl-settings", "copy-rules", "del-rules",
    "cache-settings", "optimization", "bulk-settings"]

  /// A module the router may show: a menu entry or the account list.
  predicate Routable(id: string) {
    id in MenuIds || id == "accounts"
  }

  /// The modules `renderModuleContent` has a view for, in the order it
  /// tests them; any other id falls to the placeholder.
  const RenderedIds: seq<string> := [
    "accounts", "add-zone", "dns-records", "del-dns", "proxy-toggle", "del-zone", "export-zones",
    "ssl-settings", "copy-rules", "del-rules", "cache-settings", "optimization", "bulk-settings"]

  /// Every module the router can reach has its own view: the placeholder,
  /// which reads the menu entry of the current id, is never shown.
  lemma RoutableIsRendered(id: string)
    ensures Routable(id) <==> id in RenderedIds
  {
  }

  /// `location.hash.slice(2)`: the hash without its leading `#/`.
  function HashRoute(hash: string): (r: string)
    ensures |hash| <= 2 ==> r == ""
    ensures |hash| > 2 ==> hash == hash[..2] + r
  {
    if |hash| <= 2 then "" else hash[2..]
  }

  /// The hash `setModule` writes.
  function HashOf(id: string): (r: string)
    ensures HashRoute(r) == id
  {
    "#/" + id
  }

  // ---------------------------------------------------------------------
  // Login messages

  /// The JSON body of a refused login: `error`, and `remaining_attempts`
  /// and `locked_minutes` when present.
  datatype RefusalBody = RefusalBody(error: Option<string>, remainingAttempts: Option<int>, lockedMinutes: Option<int>)

  /// How `fetch('/api/login')` ended: it threw, or the server granted a
  /// token, or it refused with a body.
  datatype LoginReply = LoginThrew | LoginGranted(token: string) | LoginRefused(body: RefusalBody)

  /// The reply the browser sees for each answer of the server's `Login`;
  /// `token` is the signed token string.
  function ReplyOf(response: Auth.LoginResponse, token: string): (r: LoginReply)
    ensures r.LoginGranted? <==> response.Granted?
  {
    match response
    case MissingCredentials(e) => LoginRefused(RefusalBody(Some(e), None, None))
    case TooManyAttempts(e, m) => LoginRefused(RefusalBody(Some(e), None, Some(m)))
    case WrongCredentials(e, k) => LoginRefused(RefusalBody(Some(e), k, None))
    case Granted(_, _) => LoginGranted(token)
  }

  const DefaultLoginError := "登录失败"

  function LockMessage(minutes: int): string {
    "账户已锁定，请 " + IntToString(minutes) + " 分钟后再试"
  }

  function RemainingSuffix(attempts: int): string {
    "\n剩余尝试次数: " + IntToString(attempts)
  }

  /// The alert for a refused login: the lock text replaces everything when
  /// `locked_minutes` is present; otherwise the server's error (or the
  /// default for a missing or empty one), followed by the attempts left
  /// when they are given.
  function LoginErrorMessage(body: RefusalBody): (r: string)
    ensures body.lockedMinutes.Some? ==> r == LockMessage(body.lockedMinutes.value)
    ensures body.lockedMinutes.None? && body.remainingAttempts.None? ==>
      r == (if body.error.Some? && body.error.value != "" then body.error.value else DefaultLoginError)
    ensures body.lockedMinutes.None? && body.remainingAttempts.Some? ==>
      r == (if body.error.Some? && body.error.value != "" then body.error.value else DefaultLoginError)
           + RemainingSuffix(body.remainingAttempts.value)
  {
    var base := if body.error.Some? && body.error.value != "" then body.error.value else DefaultLoginError;
    var message := if body.remainingAttempts.Some? then base + RemainingSuffix(body.remainingAttempts.value) else base;
    if body.lockedMinutes.Some? then LockMessage(body.lockedMinutes.value) else message
  }

  /// What a user is told for each refusal of the server's `Login`: the
  /// lock text with the minutes left, the wrong-credentials error with the
  /// attempts left, the bare error once the account has just been locked,
  /// and the bare error for missing credentials.
  lemma LoginRefusalMessages(attempts: map<string, Auth.LoginAttempt>, admin: Auth.Admin, username: string,
                             password: string, ip: string, now: int, token: string)
    ensures var response := Auth.LoginStep(attempts, admin, username, password, ip, now).1;
      match ReplyOf(response, token)
      case LoginRefused(body) =>
        (response.TooManyAttempts? ==> LoginErrorMessage(body) == LockMessage(response.lockedMinutes))
        && (response.WrongCredentials? && response.remainingAttempts.Some? ==>
              LoginErrorMessage(body) == "用户名或密码错误" + RemainingSuffix(response.remainingAttempts.value))
        && (response.WrongCredentials? && response.remainingAttempts.None? ==>
              LoginErrorMessage(body) == "登录失败次数过多，账户已锁定15分钟")
        && (response.MissingCredentials? ==> LoginErrorMessage(body) == "用户名和密码不能为空")
      case _ => response.Granted?
  {
  }

  /// The login form sends the username trimmed and the password as typed,
  /// so a username of spaces is refused by the server as missing.
  lemma BlankUsernameIsMissing(attempts: map<string, Auth.LoginAttempt>, admin: Auth.Admin, username: string,
                               password: string, ip: string, now: int, token: string)
    requires IsBlank(username)
    ensures var response := Auth.LoginStep(attempts, admin, Trim(username), password, ip, now).1;
      ReplyOf(response, token) == LoginRefused(RefusalBody(Some("用户名和密码不能为空"), None, None))
  {
    TrimFacts(username);
  }

  // ---------------------------------------------------------------------
  // The account dialog

  /// The key as the list shows it: `****` and its last four characters.
  function MaskedKey(key: string): (r: string)
    ensures StartsWith(r, "****")
    ensures |r| == 4 + (if |key| < 4 then |key| else 4)
    ensures EndsWith(key, r[4..])
  {
    "****" + (if |key| <= 4 then key else key[|key| - 4..])
  }

  /// `toggleKey`: a masked text shows the whole key, anything else the
  /// masked key; an id not in the list changes nothing (`None`).
  function ToggleKey(all: seq<Account>, id: string, shown: string): (r: Option<string>)
    ensures r.None? <==> FindAccount(all, id).None?
    ensures r.Some? && StartsWith(shown, "****") ==> r.value == FindAccount(all, id).value.key
    ensures r.Some? && !StartsWith(shown, "****") ==> r.value == MaskedKey(FindAccount(all, id).value.key)
  {
    match FindAccount(all, id)
    case None => None
    case Some(acc) => Some(if StartsWith(shown, "****") then acc.key else MaskedKey(acc.key))
  }

  /// Toggling twice restores what was shown, for a key that does not
  /// itself begin with `****`.
  lemma ToggleTwice(all: seq<Account>, id: string)
    requires FindAccount(all, id).Some?
    requires !StartsWith(FindAccount(all, id).value.key, "****")
    ensures var key := FindAccount(all, id).value.key;
      ToggleKey(all, id, ToggleKey(all, id, MaskedKey(key)).value) == Some(MaskedKey(key))
      && ToggleKey(all, id, ToggleKey(all, id, key).value) == Some(key)
  {
  }

  /// `saveAccount`: nothing is sent unless name, e-mail and key are all
  /// filled in; the body carries the id being edited, `null` (an empty id
  /// on the server) when adding.
  function SaveRequest(editingId: Option<string>, name: string, email: string, key: string): (r: Option<Account>)
    ensures r.Some? <==> name != "" && email != "" && key != ""
    ensures r.Some? ==> r.value.name == name && r.value.email == email && r.value.key == key
    ensures r.Some? && editingId.None? ==> r.value.id == ""
  {
    if name == "" || email == "" || key == "" then None
    else Some(Account(if editingId.Some? then editingId.value else "", email, key, name))
  }

  /// An account saved while adding is appended by the server under a
  /// fresh id, whatever the list holds.
  lemma AddedAccountIsAppended(accounts: seq<Account>, name: string, email: string, key: string, freshId: string)
    requires name != "" && email != "" && key != ""
    ensures var request := SaveRequest(None, name, email, key).value;
      AccountHandler.Upsert(accounts, request, freshId)
        == Some((accounts + [Account(freshId, email, key, name)], Account(freshId, email, key, name)))
  {
  }

  /// `testAccount`: nothing is sent unless e-mail and key are filled in.
  function TestRequest(email: string, key: string): (r: Option<(string, string)>)
    ensures r.Some? <==> email != "" && key != ""
    ensures r.Some? ==> r.value == (email, key)
  {
    if email == "" || key == "" then None else Some((email, key))
  }

  /// The dialog's verdict on a test: the request threw (`None`), or the
  /// server's `TestAccount` result.
  function TestVerdict(answer: Option<AccountHandler.TestResult>): (r: string)
    ensures answer.None? ==> r == "❌ 请求服务器错误"
    ensures answer.Some? && answer.value.success ==> r == "✅ 连接测试成功"
    ensures answer.Some? && !answer.value.success && answer.value.message.Some? ==>
      r == "❌ 失败: " + answer.value.message.value
  {
    match answer
    case None => "❌ 请求服务器错误"
    case Some(result) =>
      if result.success then "✅ 连接测试成功"
      else "❌ 失败: " + (if result.message.Some? then result.message.value else "undefined")
  }

  /// A failed server test always carries its reason, so the dialog never
  /// shows `undefined`.
  lemma FailedTestShowsReason(reply: Option<AccountHandler.ProbeReply>)
    requires !AccountHandler.TestAccount(reply).success
    ensures TestVerdict(Some(AccountHandler.TestAccount(reply)))
         == "❌ 失败: " + AccountHandler.TestAccount(reply).message.value
  {
  }

  /// `testExistingAccount`: an id in the list gets the server's verdict
  /// recorded; an unknown id, or a request that threw, changes nothing.  A
  /// reply without `success` stores `undefined`, which the badge and the
  /// status filters treat exactly like an absent entry, so it is modelled
  /// as removing the id's entry.
  function SingleTest(statuses: map<string, bool>, all: seq<Account>, id: string, probe: AccountsView.Probe)
    : (r: map<string, bool>)
    ensures FindAccount(all, id).None? || probe.Threw? ==> r == statuses
    ensures FindAccount(all, id).Some? && probe.Replied? ==> r == statuses[id := probe.success]
    ensures FindAccount(all, id).Some? && probe.NoVerdict? ==>
      id !in r && forall other :: other in statuses && other != id ==> other in r && r[other] == statuses[other]
  {
    if FindAccount(all, id).None? then statuses
    else match probe
      case Threw => statuses
      case Replied(ok) => statuses[id := ok]
      case NoVerdict => statuses - {id}
  }

  /// A single test and a batch test of the same account agree when the
  /// server answers with a verdict.  When the request throws, the batch
  /// marks the account invalid while the single test leaves its status as it
  /// was; when the answer has no `success`, the batch marks it invalid while
  /// the single test shows it as untested.
  lemma SingleAndBatchTests(statuses: map<string, bool>, all: seq<Account>, id: string,
                            probe: string -> AccountsView.Probe)
    requires FindAccount(all, id).Some?
    ensures probe(id).Replied? ==>
      SingleTest(statuses, all, id, probe(id)) == AccountsView.Recorded(statuses, {id}, probe)
    ensures probe(id).Threw? ==>
      SingleTest(statuses, all, id, probe(id)) == statuses
      && AccountsView.Recorded(statuses, {id}, probe)[id] == false
    ensures probe(id).NoVerdict? ==>
      AccountsView.StatusBadge(SingleTest(statuses, all, id, probe(id)), id) == AccountsView.UntestedBadge
      && AccountsView.StatusBadge(AccountsView.Recorded(statuses, {id}, probe), id) == AccountsView.InvalidBadge
  {
    if probe(id).Replied? {
      var a := SingleTest(statuses, all, id, probe(id));
      var b := AccountsView.Recorded(statuses, {id}, probe);
      assert a.Keys == b.Keys;
    }
  }

  // ---------------------------------------------------------------------
  // The shared state

  /// What `render` puts on the page.
  datatype Screen = LoginScreen | DashboardScreen(shownModule: string)

  /// A usable token: `null` (absent) and the empty string are both falsy.
  predicate HasToken(t: Option<string>) {
    t.Some? && t.value != ""
  }

  /// The alert `handleAuthError` shows on a 401.
  const SessionExpiredAlert := "登录已过期，请重新登录"

  /// `state` together with the `token` entry of `localStorage` and the
  /// location hash.
  class AppState {
    var token: Option<string>
    var stored: Option<string>
    var currentModule: string
    var editingId: Option<string>
    var hash: string

    ghost predicate Valid()
      reads this
    {
      Routable(currentModule)
    }

    /// The page's start: the token is read from storage and the account
    /// list is the module, until the load handler reads the hash.
    constructor(storedToken: Option<string>, initialHash: string)
      ensures token == storedToken && stored == storedToken
      ensures currentModule == "accounts" && editingId.None? && hash == initialHash
      ensures Valid()
    {
      token := storedToken;
      stored := storedToken;
      currentModule := "accounts";
      editingId := None;
      hash := initialHash;
    }

    /// `render`: the login form exactly when there is neither a token in
    /// memory nor one in storage.
    function Screen(): (r: Screen)
      reads this
      ensures r == LoginScreen <==> !HasToken(token) && !HasToken(stored)
      ensures r.DashboardScreen? ==> r.shownModule == currentModule
    {
      if !HasToken(token) && !HasToken(stored) then LoginScreen else DashboardScreen(currentModule)
    }

    /// The `load` handler: a routable hash picks the module.
    method Load()
      requires Valid()
      modifies this
      ensures Valid()
      ensures var route := HashRoute(old(hash));
        currentModule == (if route != "" && Routable(route) then route else old(currentModule))
      ensures token == old(token) && stored == old(stored) && editingId == old(editingId) && hash == old(hash)
    {
      var route := HashRoute(hash);
      if route != "" && Routable(route) {
        currentModule := route;
      }
    }

    /// The `hashchange` handler for a new hash: only a routable module
    /// other than the current one is switched to.
    method HashChanged(newHash: string)
      requires Valid()
      modifies this
      ensures Valid()
      ensures hash == newHash
      ensures var route := HashRoute(newHash);
        currentModule == (if route != "" && route != old(currentModule) && Routable(route) then route
                          else old(currentModule))
      ensures token == old(token) && stored == old(stored) && editingId == old(editingId)
    {
      hash := newHash;
      var route := HashRoute(newHash);
      if route != "" && route != currentModule {
        if route in MenuIds || route == "accounts" {
          currentModule := route;
        }
      }
    }

    /// `setModule`: show a module and write its hash.
    method SetModule(id: string)
      modifies this
      ensures currentModule == id && hash == HashOf(id)
      ensures token == old(token) && stored == old(stored) && editingId == old(editingId)
      ensures old(Valid()) && Routable(id) ==> Valid()
    {
      currentModule := id;
      hash := HashOf(id);
    }

    /// The `hashchange` that follows `setModule` names the module already
    /// on screen, so it changes nothing.
    method SetModuleThenHashChange(id: string)
      requires Valid() && Routable(id)
      modifies this
      ensures currentModule == id && hash == HashOf(id) && Valid()
      ensures token == old(token) && stored == old(stored) && editingId == old(editingId)
    {
      SetModule(id);
      HashChanged(HashOf(id));
    }

    /// `handleAuthError`: a 401 drops the token from storage and memory,
    /// alerts that the session expired, and so sends the page back to the
    /// login form.
    method HandleAuthError(status: int) returns (handled: bool, alert: Option<string>)
      modifies this
      ensures handled <==> status == 401
      ensures handled ==> token.None? && stored.None? && Screen() == LoginScreen
      ensures alert == if handled then Some(SessionExpiredAlert) else None
      ensures !handled ==> token == old(token) && stored == old(stored)
      ensures currentModule == old(currentModule) && editingId == old(editingId) && hash == old(hash)
    {
      if status == 401 {
        stored := None;
        token := None;
        return true, Some(SessionExpiredAlert);
      }
      return false, None;
    }

    /// `logout`.
    method Logout()
      modifies this
      ensures token.None? && stored.None? && Screen() == LoginScreen
      ensures currentModule == old(currentModule) && editingId == old(editingId) && hash == old(hash)
    {
      stored := None;
      token := None;
    }

    /// `handleLogin` once the reply is in: a granted token is stored in
    /// both places and the account list is shown; otherwise the state
    /// stays and the alert says why.
    method HandleLogin(reply: LoginReply) returns (alert: Option<string>)
      requires Valid()
      modifies this
      ensures Valid()
      ensures reply.LoginGranted? ==>
        token == Some(reply.token) && stored == Some(reply.token) && currentModule == "accounts" && alert.None?
      ensures reply.LoginGranted? && reply.token != "" ==> Screen() == DashboardScreen("accounts")
      ensures !reply.LoginGranted? ==>
        token == old(token) && stored == old(stored) && currentModule == old(currentModule)
      ensures reply.LoginRefused? ==> alert == Some(LoginErrorMessage(reply.body))
      ensures reply.LoginThrew? ==> alert == Some("网络错误，请检查服务器连接")
      ensures editingId == old(editingId) && hash == old(hash)
    {
      match reply
      case LoginGranted(t) =>
        stored := Some(t);
        token := Some(t);
        currentModule := "accounts";
        alert := None;
      case LoginRefused(body) =>
        alert := Some(LoginErrorMessage(body));
      case LoginThrew =>
        alert := Some("网络错误，请检查服务器连接");
    }

    /// `resetModal`: the dialog is for a new account.
    method ResetModal()
      modifies this
      ensures editingId.None?
      ensures token == old(token) && stored == old(stored) && currentModule == old(currentModule) && hash == old(hash)
    {
      editingId := None;
    }
  }
}
