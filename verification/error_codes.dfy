/** The numeric business-error table shared by the API gateway and the login page. The
    two scripts carry the same 51 entries, so the table is defined once here. */
module ErrorCodes {
  import opened Common

  /** `ERROR_CODE_MAP[code]`: the message for a known code, nothing otherwise. */
  function Describe(code: int): (m: Option<string>)
    ensures m.Some? ==> m.value != ""
    ensures code == 200 || code == -1 ==> m.None?
    ensures code == NotLoggedIn ==> m == Some("未登录或登录已过期")
  {
    match code
    case 10000 => Some("系统异常，请稍后重试")
    case 10001 => Some("参数错误")
    case 10002 => Some("请求方式错误")
    case 10003 => Some("未登录或登录已过期")
    case 10004 => Some("无权限访问")
    case 10005 => Some("请求资源不存在")
    case 10006 => Some("请求过于频繁，请稍后再试")
    case 11001 => Some("用户不存在")
    case 11002 => Some("用户已存在")
    case 11003 => Some("用户名已存在")
    case 11004 => Some("手机号已被注册")
    case 11005 => Some("邮箱已被注册")
    case 11006 => Some("密码错误")
    case 11007 => Some("原密码错误")
    case 11008 => Some("账号已被禁用")
    case 11009 => Some("账号已被锁定")
    case 11010 => Some("账号无法发送验证码")
    case 12001 => Some("验证码发送失败")
    case 12002 => Some("验证码错误")
    case 12003 => Some("验证码已过期")
    case 12004 => Some("验证码发送过于频繁")
    case 12005 => Some("验证码格式错误")
    case 13001 => Some("Token无效")
    case 13002 => Some("Token已过期")
    case 13003 => Some("Token解析失败")
    case 13004 => Some("RefreshToken无效")
    case 21001 => Some("预定不存在")
    case 21002 => Some("预定已满")
    case 21003 => Some("预定功能未开放")
    case 21004 => Some("超过预定数量限制")
    case 21005 => Some("预定时间不可用")
    case 21006 => Some("预定已取消")
    case 31001 => Some("积分不足")
    case 31002 => Some("超过积分限额")
    case 31003 => Some("积分兑换功能未开放")
    case 31004 => Some("积分记录不存在")
    case 41001 => Some("订单不存在")
    case 41002 => Some("订单状态错误")
    case 41003 => Some("订单已取消")
    case 41004 => Some("订单已支付")
    case 41005 => Some("订单已超时")
    case 41006 => Some("订单创建失败")
    case 51001 => Some("支付记录不存在")
    case 51002 => Some("支付失败")
    case 51003 => Some("支付功能未开放")
    case 51004 => Some("支付方式不可用")
    case 51005 => Some("支付金额错误")
    case 51006 => Some("退款失败")
    case 61001 => Some("管理员权限不足")
    case 61002 => Some("配置不存在")
    case 61003 => Some("配置更新失败")
    case _ => None
  }

  /** The lookup with an absent code (`ERROR_CODE_MAP[undefined]`) finding nothing. */
  function Lookup(code: Option<int>): (m: Option<string>)
    ensures code.None? ==> m.None?
    ensures code.Some? ==> m == Describe(code.value)
    ensures m.Some? ==> m.value != ""
  {
    if code.Some? then Describe(code.value) else None
  }

  /** The business code meaning "not logged in or session expired". */
  const NotLoggedIn: int := 10003
}
