/** The shared header script (`script.js`): its own short account display, which of
    the two headers a page shows, where the feature buttons lead, and the account
    switch button. */
module Header {
  import opened Common
  import opened Browser
  import opened Api
  import PageInit

  /** `formatAccountDisplay` of `script.js`: the first three characters as the name and
      the first character, upper-cased when it is an ASCII letter, as the avatar. */
  function ShortDisplay(account: Option<string>): (d: AccountDisplay)
    ensures !Truthy(account) ==> d == AccountDisplay("U", "用户名")
    ensures Truthy(account) && |account.value| >= 3 ==> d.name == account.value[..3]
    ensures Truthy(account) && |account.value| < 3 ==> d.name == account.value
    ensures Truthy(account) ==>
      |d.avatar| == 1
      && (IsAsciiLetter(account.value[0]) ==> d.avatar == [ToUpperAscii(account.value[0])] && 'A' <= d.avatar[0] <= 'Z')
      && (!IsAsciiLetter(account.value[0]) ==> d.avatar[0] == account.value[0])
  {
    if !Truthy(account) then AccountDisplay("U", "用户名")
    else
      var a := account.value;
      var name := if |a| >= 3 then a[..3] else a;
      var first := a[0];
      AccountDisplay(if IsAsciiLetter(first) then [ToUpperAscii(first)] else [first], name)
  }

  /** `script.js` and `page-init.js` both declare the global `formatAccountDisplay`, and
      whichever loads last serves both callers. The two versions agree on the avatar of
      every plain name, but on the name only when it has at most three characters, and
      they disagree on the placeholder for a missing account: which names a page shows
      depends on the script order. */
  lemma {:induction false} DisplaysAgreeOnlyOnShortNames(account: string)
    requires account != "" && !PageInit.IsElevenDigits(account) && '@' !in account
    ensures ShortDisplay(Some(account)).avatar == PageInit.FormatAccountDisplay(account).avatar
    ensures ShortDisplay(Some(account)).name == PageInit.FormatAccountDisplay(account).name <==> |account| <= 3
    ensures ShortDisplay(None) != PageInit.FormatAccountDisplay("")
  {
    var short := ShortDisplay(Some(account)).name;
    var long := PageInit.FormatAccountDisplay(account).name;
    if 3 < |account| <= 8 {
      assert |short| == 3 && |long| == |account|;
    } else if |account| > 8 {
      assert |short| == 3 && |long| == 9;
    }
    assert "用户名" != "用户" by {
      assert |"用户名"| == 3;
    }
  }

  /** The test `updateHeaderDisplay` and the button handlers make on the path: it names
      `index.html`, is the root, or ends in a directory slash. */
  predicate IsIndexPage(path: string)
  {
    Contains(path, "index.html") || path == "/" || EndsWith(path, "/")
  }

  /** The header shown on a page. */
  datatype HeaderView = LoggedOutHeader | LoggedInHeader(display: AccountDisplay)

  /** `updateHeaderDisplay`: the index page keeps the logged-out header whatever the
      store says; every other page shows the logged-in header exactly when an account
      is stored. */
  function HeaderFor(path: string, account: Option<string>): (h: HeaderView)
    ensures IsIndexPage(path) ==> h == LoggedOutHeader
    ensures !IsIndexPage(path) ==> (h.LoggedInHeader? <==> Truthy(account))
    ensures h.LoggedInHeader? ==> h.display == ShortDisplay(account) && h.display.name <= account.value
  {
    if IsIndexPage(path) then LoggedOutHeader
    else if Truthy(account) then LoggedInHeader(ShortDisplay(account))
    else LoggedOutHeader
  }

  /** The page body buttons that lead to an order page. */
  datatype FeatureButton = HeroTryNow | EssayDetails | ArticleDetails | ReduceDetails

  function FeaturePage(b: FeatureButton): string
  {
    match b
    case HeroTryNow => "task-center.html"
    case EssayDetails => "task-center.html"
    case ArticleDetails => "task-article.html"
    case ReduceDetails => "task-paragraph.html"
  }

  /** Where a feature button leads: its order page when logged in, the login page
      otherwise. */
  function FeatureClick(b: FeatureButton, account: Option<string>): (target: string)
    ensures target == "login.html" <==> !Truthy(account)
    ensures Truthy(account) ==> target == FeaturePage(b)
  {
    if Truthy(account) then FeaturePage(b) else "login.html"
  }

  /** Where the header's "my tasks" button leads: only a logged-out visitor on the index
      page is sent to log in. */
  function MyTasksClick(path: string, account: Option<string>): (target: string)
    ensures target == "login.html" <==> IsIndexPage(path) && !Truthy(account)
    ensures target != "login.html" ==> target == "my-task.html"
  {
    if IsIndexPage(path) && !Truthy(account) then "login.html" else "my-task.html"
  }

  /** Where a "task centre" logo leads: the logged-out header of the index page goes to
      the login page, every other logo to the essay page. */
  function LogoClick(path: string, inLoggedOutHeader: bool): (target: string)
    ensures target == "login.html" <==> IsIndexPage(path) && inLoggedOutHeader
    ensures target != "login.html" ==> target == "task-center.html"
  {
    if IsIndexPage(path) && inLoggedOutHeader then "login.html" else "task-center.html"
  }

  /** The "switch" button: the identity keys are removed and the login page opened,
      exactly as a redirect to the login page does. */
  method SwitchAccount(store: Store)
    modifies store
    ensures store.View() == Redirected(old(store.View()))
    ensures store.myTasks == old(store.myTasks)
  {
    store.userInfo := None;
    store.userId := None;
    store.account := None;
    store.location := Some("login.html");
  }

  /** After a switch every feature button asks for a login again and every page shows
      the logged-out header. */
  lemma SwitchLogsOut(s: Session, b: FeatureButton, path: string)
    ensures FeatureClick(b, Redirected(s).account) == "login.html"
    ensures HeaderFor(path, Redirected(s).account) == LoggedOutHeader
  {
  }
}
