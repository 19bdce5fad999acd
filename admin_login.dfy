/**
 * The admin login page and the browser session it starts: the submitted
 * user name is looked up in the admins table; a found row stores a demo
 * token and the name in local storage and sends the browser to the
 * dashboard, anything else shows the failure message and stores nothing.
 * The password field is never read.
 */
module AdminLogin {
  import opened Js
  import opened Browser
  import opened AuthApi

  const TokenKey: string := "adminToken"
  const UsernameKey: string := "adminUsername"
  const DemoToken: string := "demo-token"
  const DashboardPath: string := "/admin/dashboard"

  /** The browser's session as the dashboard's gate sees it: a truthy `adminToken` lets it in. */
  datatype Session = Anonymous | Authenticated(username: Option<string>)

  function SessionOf(items: map<string, string>): (s: Session)
    ensures s.Authenticated? <==> TokenKey in items && items[TokenKey] != ""
    ensures s.Authenticated? ==> s.username == (if UsernameKey in items then Some(items[UsernameKey]) else None)
  {
    if TokenKey in items && StringTruthy(Some(items[TokenKey])) then
      Authenticated(if UsernameKey in items then Some(items[UsernameKey]) else None)
    else Anonymous
  }

  /** The two writes of a successful login. */
  function SignedIn(items: map<string, string>, username: string): (r: map<string, string>)
    ensures r.Keys == items.Keys + {TokenKey, UsernameKey}
    ensures r[TokenKey] == DemoToken && r[UsernameKey] == username
    ensures forall k :: k in items && k != TokenKey && k != UsernameKey ==> r[k] == items[k]
  {
    items[TokenKey := DemoToken][UsernameKey := username]
  }

  /** The removals of the dashboard's logout. */
  function SignedOut(items: map<string, string>): (r: map<string, string>)
    ensures r.Keys == items.Keys - {TokenKey, UsernameKey}
    ensures forall k :: k in r ==> r[k] == items[k]
  {
    items - {TokenKey, UsernameKey}
  }

  /** Logging in authenticates as the submitted name, from any session. */
  lemma SignInAuthenticates(items: map<string, string>, username: string)
    ensures SessionOf(SignedIn(items, username)) == Authenticated(Some(username))
  {
  }

  /** Logging out ends any session, and a later login starts a fresh one. */
  lemma SignOutEndsSession(items: map<string, string>, username: string)
    ensures SessionOf(SignedOut(items)) == Anonymous
    ensures SessionOf(SignedIn(SignedOut(items), username)) == Authenticated(Some(username))
    ensures SignedOut(SignedIn(items, username)) == SignedOut(items)
  {
    assert SignedOut(SignedIn(items, username)) == SignedOut(items);
  }

  /**
   * Whether the attempt succeeds: the lookup must return a row, and the
   * row's name must equal the submitted one, which the lookup already ensures.
   */
  function LoginSucceeds(admins: seq<AdminRow>, username: string, failed: bool): bool
  {
    var row := AdminLookup(admins, username, failed);
    row.Some? && row.value.username == username
  }

  /** The second check is redundant: every row the lookup finds succeeds. */
  lemma FoundRowSucceeds(admins: seq<AdminRow>, username: string, failed: bool)
    ensures LoginSucceeds(admins, username, failed) <==> AdminLookup(admins, username, failed).Some?
  {
  }

  /** The toast shown after an attempt; its text follows the language. */
  datatype Toast = Toast(title: string, description: string, destructive: bool)

  function ResultToast(success: bool, language: string): (t: Toast)
    ensures t.destructive <==> !success
    ensures success && language == "ar" ==> t.title == "تم تسجيل الدخول بنجاح"
    ensures success && language != "ar" ==> t.title == "Login successful"
    ensures !success && language == "ar" ==> t.title == "فشل تسجيل الدخول"
    ensures !success && language != "ar" ==> t.title == "Login failed"
  {
    if success then
      if language == "ar" then Toast("تم تسجيل الدخول بنجاح", "جاري التحويل إلى لوحة التحكم...", false)
      else Toast("Login successful", "Redirecting to admin dashboard...", false)
    else
      if language == "ar" then Toast("فشل تسجيل الدخول", "اسم المستخدم أو كلمة المرور غير صحيحة", true)
      else Toast("Login failed", "Invalid username or password", true)
  }

  class AdminLoginPage {
    var username: string
    var password: string
    var isLoading: bool

    constructor ()
      ensures username == "" && password == "" && !isLoading
    {
      username, password, isLoading := "", "", false;
    }

    /**
     * `handleSubmit` against the admins table (`failed`: the lookup reports an
     * error). Returns the toast shown and the route pushed, if any.
     */
    method HandleSubmit(storage: LocalStorage, admins: seq<AdminRow>, failed: bool, language: string)
      returns (toast: Toast, redirect: Option<string>)
      modifies this`isLoading, storage
      ensures !isLoading
      ensures LoginSucceeds(admins, username, failed) ==>
        storage.items == SignedIn(old(storage.items), username) && redirect == Some(DashboardPath)
      ensures !LoginSucceeds(admins, username, failed) ==>
        storage.items == old(storage.items) && redirect == None
      ensures toast == ResultToast(LoginSucceeds(admins, username, failed), language)
    {
      isLoading := true;
      var row := AdminLookup(admins, username, failed);
      if row.Some? && row.value.username == username {
        storage.SetItem(TokenKey, DemoToken);
        storage.SetItem(UsernameKey, username);
        toast := ResultToast(true, language);
        redirect := Some(DashboardPath);
      } else {
        toast := ResultToast(false, language);
        redirect := None;
      }
      isLoading := false;
    }
  }
}
