/** The API gateway of `api.js`: `apiRequest` turns whatever `fetch` produced into the
    uniform `{success, code, message, data}` envelope; next to it the status labels and
    the local session helpers `isLoggedIn`, `redirectToLogin` and `requireLogin`. */
module Api {
  import opened Common
  import ErrorCodes
  import opened Browser

  /** A parsed JSON response body `{code, message, msg, data}`; an absent field is None.
      `data` is None also when the backend sent a falsy value. */
  datatype Body<T> = Body(code: Option<int>, message: Option<string>, msg: Option<string>, data: Option<T>)

  /** What `response.json()` produced: a body that is not JSON (the callers catch the
      parse error and read it as `{}`), the JSON literal `null`, or any other JSON value
      with the fields it has (a number, a string or an array has none). */
  datatype Json<T> = NotJson | JsonNull | Object(body: Body<T>)

  /** What `fetch` followed by `response.json()` produced: an exception with its message
      text, or a response with its status and its body. */
  datatype Transport<T> = Threw(error: string) | Responded(status: int, json: Json<T>)

  /** The envelope every caller receives. `code` is None where the source copies an
      absent `data.code`. */
  datatype ApiResult<T> = ApiResult(success: bool, code: Option<int>, message: string, data: Option<T>)

  const SuccessCode: int := 200
  const SuccessMessage: string := "操作成功"
  const NetworkDown: string := "网络错误，请检查网络连接"
  const NetworkBlocked: string := "网络请求失败，请检查网络连接或联系管理员"

  /** `response.ok`. */
  predicate IsOk(status: int)
  {
    200 <= status <= 299
  }

  /** The body `{}` that a non-JSON response is read as. */
  function EmptyBody<T>(): Body<T>
  {
    Body(None, None, None, None)
  }

  /** The fields a reader sees; `null` has none (reading one throws, which the callers
      handle before they look at fields). */
  function BodyOf<T>(json: Json<T>): Body<T>
  {
    if json.Object? then json.body else EmptyBody()
  }

  /** `null` is read like a thrown request: property access on it throws a `TypeError`
      whose text mentions neither CORS nor a failed fetch. */
  predicate NullBody<T>(t: Transport<T>)
  {
    t.Responded? && t.json.JsonNull?
  }

  /** `data.message || ERROR_CODE_MAP[data.code] || fallback`: the backend's own message
      first, then the table, then the fallback. */
  function FailureMessage<T>(b: Body<T>, fallback: string): (m: string)
    requires fallback != ""
    ensures m != ""
    ensures Truthy(b.message) ==> m == b.message.value
    ensures !Truthy(b.message) && ErrorCodes.Lookup(b.code).Some? ==> m == ErrorCodes.Lookup(b.code).value
    ensures !Truthy(b.message) && ErrorCodes.Lookup(b.code).None? ==> m == fallback
  {
    if Truthy(b.message) then b.message.value
    else OrElse(ErrorCodes.Lookup(b.code), fallback)
  }

  /** `apiRequest`: classifies one transport outcome. */
  function ApiRequest<T>(t: Transport<T>): (r: ApiResult<T>)
    // success needs both layers: an ok HTTP status and the business code 200
    ensures r.success <==> t.Responded? && IsOk(t.status) && BodyOf(t.json).code == Some(SuccessCode)
    // a failure always carries a message a caller can show
    ensures !r.success ==> r.message != ""
    // an exception never escapes: it becomes code -1 without data
    ensures t.Threw? ==> !r.success && r.code == Some(-1) && r.data.None?
    ensures t.Threw? ==>
      (r.message == NetworkBlocked <==> Contains(t.error, "CORS") || Contains(t.error, "Failed to fetch"))
    ensures t.Threw? && r.message != NetworkBlocked ==> r.message == NetworkDown
    // a `null` body throws on its first field read, whatever the status, and is caught
    ensures NullBody(t) ==> r == ApiResult(false, Some(-1), NetworkDown, None)
    // an HTTP error drops the data; its code is the body's non-zero code, else the status
    ensures t.Responded? && !IsOk(t.status) ==> !r.success && r.data.None?
    ensures t.Responded? && !IsOk(t.status) && !NullBody(t) ==>
      r.code == Some(var c := BodyOf(t.json).code; if c.Some? && c.value != 0 then c.value else t.status)
    ensures t.Responded? && !IsOk(t.status) && !NullBody(t) ==>
      r.message == FailureMessage(BodyOf(t.json), "请求失败 (" + IntToString(t.status) + ")")
    // with an ok status the envelope copies the business code and the data
    ensures t.Responded? && IsOk(t.status) && !NullBody(t) ==>
      r.code == BodyOf(t.json).code && r.data == BodyOf(t.json).data
    ensures t.Responded? && IsOk(t.status) && !NullBody(t) && !r.success ==>
      r.message == FailureMessage(BodyOf(t.json), "操作失败")
    ensures r.success ==> r.message == OrElse(BodyOf(t.json).message, SuccessMessage)
  {
    match t
    case Threw(e) =>
      var hint := if Contains(e, "CORS") || Contains(e, "Failed to fetch") then NetworkBlocked else NetworkDown;
      ApiResult(false, Some(-1), hint, None)
    case Responded(status, json) =>
      var b := BodyOf(json);
      if json.JsonNull? then ApiResult(false, Some(-1), NetworkDown, None)
      else if !IsOk(status) then
        var code := if b.code.Some? && b.code.value != 0 then b.code.value else status;
        ApiResult(false, Some(code), FailureMessage(b, "请求失败 (" + IntToString(status) + ")"), None)
      else if b.code != Some(SuccessCode) then
        ApiResult(false, b.code, FailureMessage(b, "操作失败"), b.data)
      else
        ApiResult(true, b.code, OrElse(b.message, SuccessMessage), b.data)
  }

  /** A response whose body is not JSON is classified exactly like one whose body is
      `{}`; with an ok status that is a business failure. */
  lemma NonJsonIsEmptyObject<T>(status: int)
    ensures ApiRequest(Transport<T>.Responded(status, NotJson)) == ApiRequest(Responded(status, Object(EmptyBody())))
    ensures IsOk(status) ==> ApiRequest(Transport<T>.Responded(status, NotJson)) == ApiResult(false, None, "操作失败", None)
  {
  }

  /** `getOrderStatusDesc`. */
  function OrderStatusDesc(status: int): (d: string)
    ensures d == "未知" <==> !(0 <= status <= 4)
    ensures status == 2 ==> d == "已完成"
    ensures status == 4 ==> d == "失败"
  {
    match status
    case 0 => "待处理"
    case 1 => "处理中"
    case 2 => "已完成"
    case 3 => "已取消"
    case 4 => "失败"
    case _ => "未知"
  }

  /** `getPaymentStatusDesc`. */
  function PaymentStatusDesc(status: int): (d: string)
    ensures d == "未知" <==> !(0 <= status <= 4)
    ensures status == 1 ==> d == "已支付"
    ensures 2 <= status <= 4 ==> d in {"已取消", "已过期", "支付失败"}
  {
    match status
    case 0 => "待支付"
    case 1 => "已支付"
    case 2 => "已取消"
    case 3 => "已过期"
    case 4 => "支付失败"
    case _ => "未知"
  }

  /** `getTaskStatusDesc`; the task list page keeps an identical table
      (`getTaskStatusText`). */
  function TaskStatusDesc(status: int): (d: string)
    ensures d == "未知" <==> !(0 <= status <= 3)
    ensures status == 2 ==> d == "已完成"
    ensures status == 3 ==> d == "失败"
  {
    match status
    case 0 => "待处理"
    case 1 => "处理中"
    case 2 => "已完成"
    case 3 => "失败"
    case _ => "未知"
  }

  /** `isLoggedIn`: the stored `account` is a non-empty string. */
  predicate IsLoggedIn(store: Store)
    reads store
  {
    Truthy(store.account)
  }

  /** The session after `redirectToLogin`: the three identity keys removed, nothing
      else touched, and the login page as the new location. */
  function Redirected(s: Session): (t: Session)
    ensures t.account.None? && t.userId.None? && t.userInfo.None?
    ensures t.loginWarning == s.loginWarning
    ensures t.location == Some("login.html")
  {
    s.(account := None, userId := None, userInfo := None, location := Some("login.html"))
  }

  /** The session after `showLoginExpired`: redirected if the notice was confirmed, as it
      was otherwise. */
  function ExpiredNotice(s: Session, confirmed: bool): (t: Session)
    ensures confirmed ==> t == Redirected(s)
    ensures !confirmed ==> t == s
  {
    if confirmed then Redirected(s) else s
  }

  /** After a redirect nobody is logged in, whatever the session was. */
  lemma RedirectLogsOut(s: Session)
    ensures !Truthy(Redirected(s).account)
    ensures Redirected(Redirected(s)) == Redirected(s)
  {
  }

  /** `redirectToLogin`: forget the identity keys and go to the login page. */
  method RedirectToLogin(store: Store)
    modifies store
    ensures store.View() == Redirected(old(store.View()))
    ensures !IsLoggedIn(store)
    ensures store.myTasks == old(store.myTasks)
  {
    store.userInfo := None;
    store.userId := None;
    store.account := None;
    store.location := Some("login.html");
  }

  /** `showLoginExpired`: a "login expired" notice whose confirmation redirects to the
      login page; `confirmed` says whether that confirmation happened (with no notice
      widget the plain alert always leads to the redirect). */
  method ShowLoginExpired(store: Store, confirmed: bool)
    modifies store
    ensures store.View() == ExpiredNotice(old(store.View()), confirmed)
    ensures store.myTasks == old(store.myTasks)
  {
    if confirmed {
      RedirectToLogin(store);
    }
  }

  /** `requireLogin`: the local check alone, without asking the server. */
  method RequireLogin(store: Store, confirmed: bool) returns (ok: bool)
    modifies store
    ensures ok == old(IsLoggedIn(store))
    ensures ok ==> store.View() == old(store.View())
    ensures !ok ==> store.View() == ExpiredNotice(old(store.View()), confirmed)
    ensures store.myTasks == old(store.myTasks)
  {
    ok := IsLoggedIn(store);
    if !ok {
      ShowLoginExpired(store, confirmed);
    }
  }
}
