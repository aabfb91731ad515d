/** The login page (`login.js`): the response handler `handleApiResponse` with its strict
    mode, the account and code format checks, the send-code button with its 60-second
    countdown, and the session write after a successful login. */
module Login {
  import opened Common
  import ErrorCodes
  import opened Browser
  import opened Api

  // ---------------------------------------------------------------------------
  // handleApiResponse

  /** What `handleApiResponse` returns: `{isSuccess: true, message, data}` or
      `{isSuccess: false, message, code, data}`. */
  datatype Handled<T> =
    | Accepted(message: string, data: Option<T>)
    | Rejected(message: string, code: Option<int>, data: Option<T>)

  /** The code as a template literal prints it (`undefined` when absent). */
  function CodeText(code: Option<int>): (s: string)
    ensures s != ""
  {
    if code.Some? then IntToString(code.value) else "undefined"
  }

  /** `ERROR_CODE_MAP[code] || message || '操作失败 (错误码: code)'`: the table first,
      then the backend's message, then a message naming the code. */
  function RejectionMessage<T>(b: Body<T>): (m: string)
    ensures m != ""
    ensures ErrorCodes.Lookup(b.code).Some? ==> m == ErrorCodes.Lookup(b.code).value
    ensures ErrorCodes.Lookup(b.code).None? && Truthy(b.message) ==> m == b.message.value
    ensures ErrorCodes.Lookup(b.code).None? && !Truthy(b.message) ==> m == "操作失败 (错误码: " + CodeText(b.code) + ")"
  {
    if ErrorCodes.Lookup(b.code).Some? then ErrorCodes.Lookup(b.code).value
    else OrElse(b.message, "操作失败 (错误码: " + CodeText(b.code) + ")")
  }

  /** `handleApiResponse(responseData, {strict})`. */
  function HandleApiResponse<T>(b: Body<T>, strict: bool): (h: Handled<T>)
    ensures h.Accepted? <==> b.code == Some(SuccessCode) && (strict ==> b.message == Some(SuccessMessage))
    ensures h.Accepted? ==> h.message == OrElse(b.message, SuccessMessage) && h.data == b.data
    ensures h.Accepted? && strict ==> h.message == SuccessMessage
    ensures h.Rejected? ==> h.code == b.code && h.data == b.data && h.message == RejectionMessage(b)
  {
    var ok := if strict then b.code == Some(SuccessCode) && b.message == Some(SuccessMessage)
              else b.code == Some(SuccessCode);
    if ok then Accepted(OrElse(b.message, SuccessMessage), b.data)
    else Rejected(RejectionMessage(b), b.code, b.data)
  }

  /** Strict success implies lenient success, with the same result. */
  lemma StrictImpliesLenient<T>(b: Body<T>)
    ensures HandleApiResponse(b, true).Accepted? ==> HandleApiResponse(b, true) == HandleApiResponse(b, false)
    ensures HandleApiResponse(b, false).Rejected? ==> HandleApiResponse(b, true) == HandleApiResponse(b, false)
  {
  }

  /** The gateway and the login handler pick failure messages in opposite orders: when a
      business failure carries both a known code and a different message of its own, the
      gateway shows the backend's message and the login page shows the table's. */
  lemma OppositeMessagePrecedence<T>(b: Body<T>, status: int)
    requires IsOk(status) && b.code.Some? && b.code != Some(SuccessCode)
    requires ErrorCodes.Lookup(b.code).Some? && Truthy(b.message)
    ensures ApiRequest(Responded(status, Object(b))).message == b.message.value
    ensures HandleApiResponse(b, false).message == ErrorCodes.Lookup(b.code).value
    ensures b.message.value != ErrorCodes.Lookup(b.code).value ==>
      ApiRequest(Responded(status, Object(b))).message != HandleApiResponse(b, false).message
  {
  }

  // ---------------------------------------------------------------------------
  // Format checks

  /** `/^1[3-9]\d{9}$/`. */
  predicate IsPhone(s: string)
  {
    |s| == 11 && s[0] == '1' && '3' <= s[1] <= '9' && AllDigits(s[2..])
  }

  /** `/^\d{4,6}$/`. */
  predicate IsVerificationCode(s: string)
  {
    4 <= |s| <= 6 && AllDigits(s)
  }

  /** `[^\s@]`. */
  predicate IsAddressChar(c: char)
  {
    !IsJsSpace(c) && c != '@'
  }

  predicate AllAddressChars(s: string)
  {
    forall i | 0 <= i < |s| :: IsAddressChar(s[i])
  }

  /** The regular expression `/^[^\s@]+@[^\s@]+\.[^\s@]+$/` read literally: the input
      splits as `local@host.tail` at an `@` and a later `.`, with all three parts
      non-empty and free of whitespace and `@`. */
  predicate MatchesEmailPattern(s: string)
  {
    exists at, dot | 0 < at < dot < |s| - 1 :: EmailSplit(s, at, dot)
  }

  predicate EmailSplit(s: string, at: int, dot: int)
    requires 0 < at < dot < |s| - 1
  {
    s[at] == '@' && s[dot] == '.' && at + 1 < dot
    && AllAddressChars(s[..at]) && AllAddressChars(s[at + 1..dot]) && AllAddressChars(s[dot + 1..])
  }

  /** The number of `@` characters. */
  function AtCount(s: string): (n: nat)
    ensures n <= |s|
    ensures n == 0 <==> '@' !in s
  {
    if s == "" then 0 else (if s[0] == '@' then 1 else 0) + AtCount(s[1..])
  }

  /** The index of the first `@`. */
  function AtIndex(s: string): (i: nat)
    requires '@' in s
    ensures i < |s| && s[i] == '@' && '@' !in s[..i]
  {
    if s[0] == '@' then 0 else 1 + AtIndex(s[1..])
  }

  /** The email check stated directly: exactly one `@`, no whitespace, a non-empty
      local part, and a `.` in the domain that is neither its first nor its last
      character. */
  predicate IsEmail(s: string)
  {
    && AtCount(s) == 1
    && (forall i | 0 <= i < |s| :: !IsJsSpace(s[i]))
    && AtIndex(s) > 0
    && var domain := s[AtIndex(s) + 1..];
       |domain| >= 3 && '.' in domain[1..|domain| - 1]
  }

  lemma {:induction false} AtCountSplit(a: string, b: string)
    ensures AtCount(a + b) == AtCount(a) + AtCount(b)
  {
    if a != "" {
      assert (a + b)[0] == a[0];
      assert (a + b)[1..] == a[1..] + b;
      AtCountSplit(a[1..], b);
    } else {
      assert a + b == b;
    }
  }

  lemma {:induction false} NoAtMeansZero(s: string)
    ensures AtCount(s) == 0 <==> forall i | 0 <= i < |s| :: s[i] != '@'
  {
    if AtCount(s) == 0 {
      forall i | 0 <= i < |s| ensures s[i] != '@' {
        assert s[i] in s;
      }
    }
  }

  /** A string with a single `@` has it at `AtIndex` and nowhere else. */
  lemma {:induction false} OnlyOneAt(s: string)
    requires AtCount(s) == 1
    ensures forall i | 0 <= i < |s| && i != AtIndex(s) :: s[i] != '@'
  {
    if s[0] == '@' {
      NoAtMeansZero(s[1..]);
      forall i | 0 < i < |s|
        ensures s[i] != '@'
      {
        assert s[1..][i - 1] == s[i];
      }
    } else {
      OnlyOneAt(s[1..]);
      forall i | 0 < i < |s| && i != AtIndex(s)
        ensures s[i] != '@'
      {
        assert s[1..][i - 1] == s[i];
      }
    }
  }

  /** A slice of address characters is all address characters. */
  lemma AddressSlice(s: string, lo: nat, hi: nat)
    requires lo <= hi <= |s|
    requires forall i | lo <= i < hi :: IsAddressChar(s[i])
    ensures AllAddressChars(s[lo..hi])
  {
    forall i | 0 <= i < hi - lo
      ensures IsAddressChar(s[lo..hi][i])
    {
      assert s[lo..hi][i] == s[lo + i];
    }
  }

  /** Every string the direct check accepts matches the regular expression. */
  lemma EmailCheckIsSound(s: string)
    requires IsEmail(s)
    ensures MatchesEmailPattern(s)
  {
    var at := AtIndex(s);
    var domain := s[at + 1..];
    var k :| 0 <= k < |domain[1..|domain| - 1]| && domain[1..|domain| - 1][k] == '.';
    var dot := at + 2 + k;
    assert domain[1..|domain| - 1][k] == domain[1 + k] == s[dot];
    OnlyOneAt(s);
    assert forall i | 0 <= i < |s| && i != at :: IsAddressChar(s[i]);
    AddressSlice(s, 0, at);
    AddressSlice(s, at + 1, dot);
    AddressSlice(s, dot + 1, |s|);
    assert s[dot + 1..|s|] == s[dot + 1..];
    assert EmailSplit(s, at, dot);
  }

  /** A string with an `@` at `at` and nowhere else has one `@`, and it is at `at`. */
  lemma {:induction false} UniqueAt(s: string, at: nat)
    requires at < |s| && s[at] == '@'
    requires forall i | 0 <= i < |s| && i != at :: s[i] != '@'
    ensures AtCount(s) == 1 && AtIndex(s) == at
  {
    if at == 0 {
      NoAtMeansZero(s[1..]);
    } else {
      UniqueAt(s[1..], at - 1);
    }
  }

  /** Every string the regular expression matches passes the direct check. */
  lemma EmailPatternIsChecked(s: string)
    requires MatchesEmailPattern(s)
    ensures IsEmail(s)
  {
    var at, dot :| 0 < at < dot < |s| - 1 && EmailSplit(s, at, dot);
    var local, host, tail := s[..at], s[at + 1..dot], s[dot + 1..];
    forall i | 0 <= i < |s| && i != at
      ensures IsAddressChar(s[i])
    {
      if i < at {
        assert local[i] == s[i];
      } else if i < dot {
        assert host[i - at - 1] == s[i];
      } else if dot < i {
        assert tail[i - dot - 1] == s[i];
      }
    }
    UniqueAt(s, at);
    var domain := s[at + 1..];
    assert domain[1..|domain| - 1][dot - at - 2] == '.';
  }

  /** The direct check accepts exactly the strings the regular expression matches. */
  lemma EmailCheckMatchesPattern(s: string)
    ensures IsEmail(s) <==> MatchesEmailPattern(s)
  {
    if IsEmail(s) {
      EmailCheckIsSound(s);
    }
    if MatchesEmailPattern(s) {
      EmailPatternIsChecked(s);
    }
  }

  // ---------------------------------------------------------------------------
  // Form checks

  /** The two login methods (`way` 1 and 2 of the send-code request). */
  datatype Way = Phone | Email

  /** The account check that both the send-code button and the phone form run. */
  predicate AccountWellFormed(way: Way, account: string)
  {
    if way == Phone then IsPhone(account) else IsEmail(account)
  }

  /** `sendVerificationCode` up to the request: an empty account, then a malformed one,
      then a page opened from a file, each stop it; otherwise the trimmed account is
      sent. */
  function SendCodeCheck(way: Way, raw: string, fileProtocol: bool): (r: Result<string, string>)
    ensures r.Ok? <==> Trim(raw) != "" && AccountWellFormed(way, Trim(raw)) && !fileProtocol
    ensures r.Ok? ==> r.value == Trim(raw)
    ensures Trim(raw) == "" ==> r == Err(if way == Phone then "请先输入手机号" else "请先输入邮箱")
    ensures Trim(raw) != "" && !AccountWellFormed(way, Trim(raw)) ==>
      r == Err(if way == Phone then "请输入正确的手机号" else "请输入正确的邮箱")
    ensures Trim(raw) != "" && AccountWellFormed(way, Trim(raw)) && fileProtocol ==> r == Err(FileProtocolMessage)
  {
    var account := Trim(raw);
    if account == "" then Err(if way == Phone then "请先输入手机号" else "请先输入邮箱")
    else if way == Phone && !IsPhone(account) then Err("请输入正确的手机号")
    else if way == Email && !IsEmail(account) then Err("请输入正确的邮箱")
    else if fileProtocol then Err(FileProtocolMessage)
    else Ok(account)
  }

  const FileProtocolMessage: string :=
    "检测到您通过文件协议访问页面，这会导致跨域问题。\n\n请使用HTTP服务器访问页面，例如：\n1. 使用VS Code的Live Server插件\n2. 或运行: python -m http.server 8000\n3. 然后访问: http://localhost:8000/login.html"

  /** The submit handlers of the two login forms before the request: account present,
      account well formed, code present, code of 4 to 6 digits, in that order. */
  function LoginFormCheck(way: Way, rawAccount: string, rawCode: string): (r: Result<(string, string), string>)
    ensures r.Ok? <==> Trim(rawAccount) != "" && AccountWellFormed(way, Trim(rawAccount))
                       && Trim(rawCode) != "" && IsVerificationCode(Trim(rawCode))
    ensures r.Ok? ==> r.value == (Trim(rawAccount), Trim(rawCode))
    ensures Trim(rawAccount) == "" ==> r == Err(if way == Phone then "请输入手机号" else "请输入邮箱")
    ensures Trim(rawAccount) != "" && !AccountWellFormed(way, Trim(rawAccount)) ==>
      r == Err(if way == Phone then "请输入正确的手机号" else "请输入正确的邮箱地址")
    ensures Trim(rawAccount) != "" && AccountWellFormed(way, Trim(rawAccount)) && Trim(rawCode) == "" ==>
      r == Err("请输入验证码")
    ensures Trim(rawAccount) != "" && AccountWellFormed(way, Trim(rawAccount))
            && Trim(rawCode) != "" && !IsVerificationCode(Trim(rawCode)) ==>
      r == Err("验证码格式不正确")
  {
    var account := Trim(rawAccount);
    var code := Trim(rawCode);
    if account == "" then Err(if way == Phone then "请输入手机号" else "请输入邮箱")
    else if !AccountWellFormed(way, account) then Err(if way == Phone then "请输入正确的手机号" else "请输入正确的邮箱地址")
    else if code == "" then Err("请输入验证码")
    else if !IsVerificationCode(code) then Err("验证码格式不正确")
    else Ok((account, code))
  }

  // ---------------------------------------------------------------------------
  // The send-code button

  const IdleCaption: string := "立即发送"
  const CountdownStart: nat := 60

  function CountdownCaption(n: int): string
  {
    IntToString(n) + "秒后重试"
  }

  /** The send-code button and the interval timer behind its countdown. */
  class SendButton {
    var disabled: bool
    var caption: string
    var countdown: int
    var ticking: bool

    /** While the timer runs the button is disabled and the count is positive. */
    predicate Valid()
      reads this
    {
      ticking ==> disabled && countdown > 0
    }

    constructor ()
      ensures Valid() && !disabled && caption == IdleCaption && !ticking
    {
      disabled, caption, countdown, ticking := false, IdleCaption, 0, false;
    }

    /** The end of a send-code request: an accepted code starts the countdown on the
        disabled button, every failure gives the button back. */
    method Settle(sent: bool)
      requires disabled && !ticking
      modifies this
      ensures Valid()
      ensures sent ==> disabled && ticking && countdown == CountdownStart && caption == CountdownCaption(CountdownStart)
      ensures !sent ==> !disabled && !ticking && caption == IdleCaption
    {
      if sent {
        countdown := CountdownStart;
        caption := CountdownCaption(CountdownStart);
        ticking := true;
      } else {
        disabled := false;
        caption := IdleCaption;
      }
    }

    /** The request part of `sendVerificationCode`: the button shows it is sending
        while the request runs, then settles on the reply. */
    method Request<T>(reply: Transport<T>) returns (r: SendOutcome)
      requires Valid() && !disabled
      modifies this
      ensures r == SendReplyOutcome(reply)
      ensures Valid()
      ensures r.SendFailed? ==> !disabled && !ticking && caption == IdleCaption
      ensures r.CodeSent? ==> disabled && ticking && countdown == CountdownStart && caption == CountdownCaption(CountdownStart)
    {
      disabled := true;
      caption := "发送中...";
      r := SendReplyOutcome(reply);
      Settle(r.CodeSent?);
    }

    /** One firing of the one-second interval: count down, and at zero stop the timer
        and give the button back. */
    method Tick()
      requires Valid() && ticking
      modifies this
      ensures Valid()
      ensures countdown == old(countdown) - 1
      ensures ticking <==> countdown > 0
      ensures ticking ==> disabled && caption == CountdownCaption(countdown)
      ensures !ticking ==> !disabled && caption == IdleCaption
    {
      countdown := countdown - 1;
      if countdown > 0 {
        caption := CountdownCaption(countdown);
      } else {
        ticking := false;
        disabled := false;
        caption := IdleCaption;
      }
    }

    /** The interval firing until it clears itself: the button comes back after exactly
        as many ticks as the countdown showed, and stays disabled before that. */
    method RunCountdown() returns (ticks: nat)
      requires Valid() && ticking
      modifies this
      ensures Valid() && !ticking && !disabled && caption == IdleCaption
      ensures ticks == old(countdown) && countdown == 0
    {
      ticks := 0;
      while ticking
        invariant Valid()
        invariant ticking ==> countdown == old(countdown) - ticks
        invariant !ticking ==> countdown == 0 && ticks == old(countdown) && !disabled && caption == IdleCaption
        decreases if ticking then countdown else 0
      {
        Tick();
        ticks := ticks + 1;
      }
    }
  }

  const SendForbiddenMessage: string :=
    "请求被拒绝 (403)。\n\n可能的原因：\n1. 服务器未配置CORS跨域\n2. 需要联系后端开发人员配置允许跨域\n3. 或者使用代理服务器"
  const SendCorsMessage: string :=
    "跨域请求失败！\n\n解决方案：\n1. 确保通过HTTP服务器访问页面（不是直接打开文件）\n2. 联系后端开发人员配置CORS：\n   Access-Control-Allow-Origin: *\n   Access-Control-Allow-Methods: POST, OPTIONS\n   Access-Control-Allow-Headers: Content-Type"
  const LoginCorsMessage: string :=
    "跨域请求失败！\n\n解决方案：\n1. 确保通过HTTP服务器访问页面（不是直接打开文件）\n2. 联系后端开发人员配置CORS"

  /** The acknowledgement of the send-code request. */
  datatype SendOutcome =
    | InputRejected(message: string)   // no request, the button untouched
    | SendFailed(message: string)      // the request failed, the button given back
    | CodeSent                         // the countdown started

  /** The message for a failed send-code request that answered with an HTTP error. */
  function SendHttpErrorMessage<T>(status: int, json: Json<T>): (m: string)
    ensures m != ""
  {
    match json
    case Object(b) =>
      if b.code.Some? then HandleApiResponse(b, false).message
      else OrElse(b.message, OrElse(b.msg, "服务器错误 (" + IntToString(status) + ")"))
    case _ =>
      // a parse error, or the field read on `null` throwing, lands in the same catch
      if status == 403 then SendForbiddenMessage
      else "请求失败 (状态码: " + IntToString(status) + ")"
  }

  /** The message for a request that threw. */
  function SendThrewMessage(error: string): (m: string)
    ensures m != ""
  {
    if error == "" then "网络错误，请检查网络连接后重试"
    else if Contains(error, "CORS") || Contains(error, "Failed to fetch") then SendCorsMessage
    else "请求失败: " + error
  }

  /** The text of the `TypeError` that destructuring `null` in `handleApiResponse`
      throws, as the V8 engine words it. */
  const NullDestructureError: string := "Cannot destructure property 'code' of 'responseData' as it is null."

  /** How the send-code request ended, by the branch of `sendVerificationCode` that
      reads `reply`: a throw, an HTTP error, a business failure, or an accepted code. */
  function SendReplyOutcome<T>(reply: Transport<T>): (r: SendOutcome)
    ensures !r.InputRejected?
    ensures r.CodeSent? <==> reply.Responded? && IsOk(reply.status) && HandleApiResponse(BodyOf(reply.json), false).Accepted?
    ensures reply.Threw? ==> r == SendFailed(SendThrewMessage(reply.error))
    ensures reply.Responded? && !IsOk(reply.status) ==> r == SendFailed(SendHttpErrorMessage(reply.status, reply.json))
    // a 2xx `null` body makes `handleApiResponse` throw into the outer catch
    ensures NullBody(reply) && IsOk(reply.status) ==> r == SendFailed(SendThrewMessage(NullDestructureError))
    ensures reply.Responded? && IsOk(reply.status) && !NullBody(reply)
            && HandleApiResponse(BodyOf(reply.json), false).Rejected? ==>
      r == SendFailed(HandleApiResponse(BodyOf(reply.json), false).message)
  {
    match reply
    case Threw(e) => SendFailed(SendThrewMessage(e))
    case Responded(status, json) =>
      if !IsOk(status) then SendFailed(SendHttpErrorMessage(status, json))
      else if json.JsonNull? then SendFailed(SendThrewMessage(NullDestructureError))
      else
        var handled := HandleApiResponse(BodyOf(json), false);
        if handled.Rejected? then SendFailed(handled.message) else CodeSent
  }

  /** `sendVerificationCode`, run by a click on the enabled button (a disabled button
      receives no clicks): checks the input, then issues one request whose outcome is
      `reply`; `requests` counts the requests issued. */
  method SendVerificationCode<T>(btn: SendButton, way: Way, raw: string, fileProtocol: bool, reply: Transport<T>)
    returns (r: SendOutcome, requests: nat)
    requires btn.Valid() && !btn.disabled
    modifies btn
    ensures btn.Valid()
    ensures requests == (if SendCodeCheck(way, raw, fileProtocol).Ok? then 1 else 0)
    ensures r.InputRejected? <==> requests == 0
    ensures r.InputRejected? ==>
      r.message == SendCodeCheck(way, raw, fileProtocol).error
      && btn.disabled == old(btn.disabled) && btn.caption == old(btn.caption)
      && btn.countdown == old(btn.countdown) && btn.ticking == old(btn.ticking)
    ensures requests == 1 ==> r == SendReplyOutcome(reply)
    ensures r.SendFailed? ==> !btn.disabled && !btn.ticking && btn.caption == IdleCaption
    ensures r.CodeSent? ==>
      btn.disabled && btn.ticking && btn.countdown == CountdownStart && btn.caption == CountdownCaption(CountdownStart)
  {
    var check := SendCodeCheck(way, raw, fileProtocol);
    if check.Err? {
      return InputRejected(check.error), 0;
    }
    requests := 1;
    r := btn.Request(reply);
  }

  // ---------------------------------------------------------------------------
  // Login submit

  datatype LoginOutcome =
    | LoginInputRejected(message: string)
    | LoginFailed(message: string)
    | LoggedIn

  /** `localStorage.setItem(key, value)` stores `String(value)`: an absent field is
      stored as the text `undefined`. */
  function StoredText(o: Option<string>): string
  {
    if o.Some? then o.value else "undefined"
  }

  /** The message for a login request that answered with an HTTP error. */
  function LoginHttpErrorMessage<T>(status: int, json: Json<T>): (m: string)
    ensures m != ""
  {
    match json
    case Object(b) => OrElse(b.message, OrElse(b.msg, "登录失败 (" + IntToString(status) + ")"))
    case _ =>
      if status == 401 then "验证码错误或已过期，请重新获取"
      else if status == 403 then "请求被拒绝，可能是CORS配置问题"
      else "登录失败 (状态码: " + IntToString(status) + ")"
  }

  function LoginThrewMessage(error: string): (m: string)
    ensures m != ""
  {
    if error == "" then "网络错误，请检查网络连接后重试"
    else if Contains(error, "CORS") || Contains(error, "Failed to fetch") then LoginCorsMessage
    else "请求失败: " + error
  }

  /** Whether a login reply is a strict success. */
  predicate StrictSuccess<T>(reply: Transport<T>)
  {
    reply.Responded? && IsOk(reply.status)
    && BodyOf(reply.json).code == Some(SuccessCode) && BodyOf(reply.json).message == Some(SuccessMessage)
  }

  /** The success branch of the login handler: the returned user, if any, is written
      to the store, and the task centre is opened. */
  method SaveLogin(store: Store, data: Option<UserRecord>)
    modifies store
    ensures data.Some? ==>
      store.userInfo == data && store.userId == Some(StoredText(data.value.userId))
      && store.account == Some(StoredText(data.value.account))
    ensures data.None? ==>
      store.account == old(store.account) && store.userId == old(store.userId) && store.userInfo == old(store.userInfo)
    ensures store.location == Some("task-center.html")
    ensures store.myTasks == old(store.myTasks) && store.loginWarning == old(store.loginWarning)
  {
    if data.Some? {
      var d := data.value;
      store.userInfo := Some(d);
      store.userId := Some(StoredText(d.userId));
      store.account := Some(StoredText(d.account));
    }
    store.location := Some("task-center.html");
  }

  /** The submit handler of either login form: the form check, one login request whose
      outcome is `reply`, and on strict success the session write and the move to the
      task centre. */
  method SubmitLogin(store: Store, way: Way, rawAccount: string, rawCode: string, reply: Transport<UserRecord>)
    returns (r: LoginOutcome, requests: nat)
    modifies store
    ensures requests == (if LoginFormCheck(way, rawAccount, rawCode).Ok? then 1 else 0)
    ensures r.LoginInputRejected? <==> requests == 0
    ensures r.LoggedIn? <==> requests == 1 && StrictSuccess(reply)
    // a 2xx `null` body makes `handleApiResponse` throw into the outer catch
    ensures requests == 1 && NullBody(reply) && IsOk(reply.status) ==>
      r == LoginFailed(LoginThrewMessage(NullDestructureError))
    // the identity keys change only on a strict success that carries data
    ensures !(r.LoggedIn? && BodyOf(reply.json).data.Some?) ==>
      store.account == old(store.account) && store.userId == old(store.userId) && store.userInfo == old(store.userInfo)
    ensures r.LoggedIn? && BodyOf(reply.json).data.Some? ==>
      var d := BodyOf(reply.json).data.value;
      store.userInfo == Some(d) && store.userId == Some(StoredText(d.userId))
      && store.account == Some(StoredText(d.account))
    ensures r.LoggedIn? ==> store.location == Some("task-center.html")
    ensures !r.LoggedIn? ==> store.location == old(store.location)
    ensures store.myTasks == old(store.myTasks) && store.loginWarning == old(store.loginWarning)
  {
    var check := LoginFormCheck(way, rawAccount, rawCode);
    if check.Err? {
      return LoginInputRejected(check.error), 0;
    }
    requests := 1;
    match reply {
      case Threw(e) =>
        r := LoginFailed(LoginThrewMessage(e));
      case Responded(status, json) =>
        if !IsOk(status) {
          r := LoginFailed(LoginHttpErrorMessage(status, json));
        } else if json.JsonNull? {
          r := LoginFailed(LoginThrewMessage(NullDestructureError));
        } else {
          var handled := HandleApiResponse(BodyOf(json), true);
          if handled.Accepted? {
            SaveLogin(store, handled.data);
            r := LoggedIn;
          } else {
            r := LoginFailed(handled.message);
          }
        }
    }
  }
}
