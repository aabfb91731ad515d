/** The recharge page (`task-payment.js`): the amount check, the payment button locked
    while a recharge is created and polled, the confirm dialog, and the cancel path. */
module TaskPayment {
  import opened Common
  import opened Browser
  import opened Api
  import Poller

  /** What `parseFloat` made of the amount input. */
  datatype Amount = NaN | PlusInfinity | MinusInfinity | Finite(v: real)

  const MinAmount: real := 1.0
  const MaxAmount: real := 10000.0
  const MaxPolls: nat := 120

  const InvalidAmount: string := "请输入有效的充值金额"
  const BelowMinimum: string := "充值金额最少为1元"
  const AboveMaximum: string := "单次充值金额不能超过10000元"

  /** The amount check of `handlePayment`, in its order: falsy or not positive, then
      below one yuan, then above ten thousand. */
  function CheckAmount(a: Amount): (r: Result<real, string>)
    ensures r.Ok? <==> a.Finite? && MinAmount <= a.v <= MaxAmount
    ensures r.Ok? ==> r.value == a.v
    ensures r == Err(InvalidAmount) <==> a.NaN? || a.MinusInfinity? || (a.Finite? && a.v <= 0.0)
    ensures r == Err(BelowMinimum) <==> a.Finite? && 0.0 < a.v < MinAmount
    ensures r == Err(AboveMaximum) <==> a.PlusInfinity? || (a.Finite? && a.v > MaxAmount)
  {
    match a
    case NaN => Err(InvalidAmount)
    case MinusInfinity => Err(InvalidAmount)
    case PlusInfinity => Err(AboveMaximum)
    case Finite(v) =>
      if v <= 0.0 then Err(InvalidAmount)
      else if v < MinAmount then Err(BelowMinimum)
      else if v > MaxAmount then Err(AboveMaximum)
      else Ok(v)
  }

  /** The payment button; `locked` is its `pointer-events: none` state. */
  class PayButton {
    var locked: bool

    constructor ()
      ensures !locked
    {
      locked := false;
    }
  }

  /** The recharge order `createRecharge` returns. */
  datatype PaymentOrder = PaymentOrder(paymentNo: string, payUrl: Option<string>)

  /** How a click on the payment button ended. */
  datatype PaymentOutcome =
    | NotAllowed                     // `requireLogin` refused
    | Invalid(message: string)       // the amount check failed; no request
    | CreateFailed(message: string)  // `success: false`, its message shown
    | CreateError                    // showing the order threw: a success without data
    | Polling(order: PaymentOrder)   // the dialog is up and the status poller started

  const CreateErrorMessage: string := "创建支付订单时发生错误，请重试"

  /** `handlePayment`: the local login check, the amount check, then `createRecharge`
      (whose envelope is `recharge`) with the button locked; only a created order keeps
      it locked, for the poller. */
  method HandlePayment(store: Store, btn: PayButton, amount: Amount, confirmed: bool,
                       recharge: ApiResult<PaymentOrder>)
    returns (r: PaymentOutcome)
    modifies store, btn
    ensures r.NotAllowed? <==> !old(IsLoggedIn(store))
    ensures r.NotAllowed? ==> store.View() == ExpiredNotice(old(store.View()), confirmed)
    ensures !r.NotAllowed? ==> store.View() == old(store.View())
    ensures r.Invalid? <==> old(IsLoggedIn(store)) && CheckAmount(amount).Err?
    ensures r.Invalid? ==> r.message == CheckAmount(amount).error
    ensures r.CreateFailed? <==> old(IsLoggedIn(store)) && CheckAmount(amount).Ok? && !recharge.success
    ensures r.CreateFailed? ==> r.message == recharge.message
    ensures r.Polling? <==> old(IsLoggedIn(store)) && CheckAmount(amount).Ok? && recharge.success && recharge.data.Some?
    ensures r.Polling? ==> r.order == recharge.data.value && btn.locked
    // no request leaves the button as it was; a failed request gives it back
    ensures r.NotAllowed? || r.Invalid? ==> btn.locked == old(btn.locked)
    ensures r.CreateFailed? || r.CreateError? ==> !btn.locked
    ensures store.myTasks == old(store.myTasks)
  {
    var ok := RequireLogin(store, confirmed);
    if !ok {
      return NotAllowed;
    }
    var checked := CheckAmount(amount);
    if checked.Err? {
      return Invalid(checked.error);
    }
    btn.locked := true;
    if !recharge.success {
      btn.locked := false;
      return CreateFailed(recharge.message);
    }
    if recharge.data.None? {
      btn.locked := false;
      return CreateError;
    }
    r := Polling(recharge.data.value);
  }

  /** What confirming the payment dialog does. */
  datatype DialogAction = OpenPayPage(url: string) | InvalidLink

  /** The confirm branch of `showPaymentInfo`: open the pay URL when there is one. */
  function ConfirmPayment(o: PaymentOrder): (d: DialogAction)
    ensures d.OpenPayPage? <==> Truthy(o.payUrl)
    ensures d.OpenPayPage? ==> Some(d.url) == o.payUrl
  {
    if Truthy(o.payUrl) then OpenPayPage(o.payUrl.value) else InvalidLink
  }

  /** `cancelPaymentOrder`: whatever `cancelPayment` answers, the button is given back;
      the "cancelled" notice is shown only on success. */
  method CancelPaymentOrder(btn: PayButton, result: ApiResult<bool>) returns (notice: bool)
    modifies btn
    ensures notice == result.success
    ensures !btn.locked
  {
    notice := result.success;
    btn.locked := false;
  }

  // ---------------------------------------------------------------------------
  // The status poller

  /** The state `getPaymentStatus` reports. */
  datatype PaymentState = PaymentState(status: int)

  /** How a terminal status ends the polling: paid, or cancelled, expired or failed
      with the notice shown. */
  datatype PaymentEnd = Paid | Ended(notice: string)

  /** How the poller reads one answer of `getPaymentStatus`. */
  function PaymentStep(r: ApiResult<PaymentState>): (s: Poller.Step<PaymentEnd>)
    ensures !r.success ==> s == Poller.Continue(Poller.QueryFailed)
    ensures r.success && r.data.None? ==> s == Poller.Continue(Poller.QueryError)
    ensures s == Poller.Stop(Paid) <==> r.success && r.data.Some? && r.data.value.status == 1
    ensures s.Stop? <==> r.success && r.data.Some? && 1 <= r.data.value.status <= 4
    ensures s.Stop? && s.outcome.Ended? ==>
      s.outcome.notice == "支付" + PaymentStatusDesc(r.data.value.status) && PaymentStatusDesc(r.data.value.status) != "已支付"
  {
    if !r.success then Poller.Continue(Poller.QueryFailed)
    else if r.data.None? then Poller.Continue(Poller.QueryError)
    else if r.data.value.status == 1 then Poller.Stop(Paid)
    else if r.data.value.status == 2 || r.data.value.status == 3 || r.data.value.status == 4 then
      Poller.Stop(Ended("支付" + PaymentStatusDesc(r.data.value.status)))
    else Poller.Continue(Poller.NotReady)
  }

  /** The notice shown when the polling ends. */
  function ExitNotice(e: Poller.Exit<PaymentEnd>): (m: string)
    ensures e == Poller.Finished(Paid) ==> m == "支付成功！"
    ensures e.Finished? && e.outcome.Ended? ==> m == e.outcome.notice
    ensures e == Poller.Exhausted(Poller.QueryFailed) ==> m == "支付状态查询超时，请手动刷新页面查看"
    ensures e == Poller.Exhausted(Poller.NotReady) ==> m == "支付超时，如已完成支付，请稍后刷新页面查看"
    ensures e == Poller.Exhausted(Poller.QueryError) ==> m == "支付状态查询失败"
    // giving up never claims the payment went through
    ensures e.Exhausted? ==> m != "支付成功！"
  {
    if e.Finished? then
      (if e.outcome.Paid? then "支付成功！" else e.outcome.notice)
    else if e.last == Poller.QueryFailed then "支付状态查询超时，请手动刷新页面查看"
    else if e.last == Poller.NotReady then "支付超时，如已完成支付，请稍后刷新页面查看"
    else "支付状态查询失败"
  }

  /** `pollPaymentStatus`: probes until a terminal status or the 120th probe;
      `answer(k)` is the answer to probe `k + 1`. Returns how it ended and when each
      probe was issued (milliseconds after the start). */
  method PollPaymentStatus(btn: PayButton, answer: nat -> ApiResult<PaymentState>)
    returns (t: Poller.Trace<PaymentEnd>, issuedAt: seq<nat>)
    modifies btn
    ensures t == Poller.Poll(answer, PaymentStep, MaxPolls, 0)
    ensures |issuedAt| == t.probes && Poller.OnSchedule(issuedAt)
    // every exit gives the button back
    ensures !btn.locked
  {
    var pollCount: nat := 0;
    issuedAt := [];
    ghost var whole := Poller.Poll(answer, PaymentStep, MaxPolls, 0);
    while true
      invariant pollCount < MaxPolls && Poller.Poll(answer, PaymentStep, MaxPolls, pollCount) == whole
      invariant |issuedAt| == pollCount && Poller.OnSchedule(issuedAt)
      decreases MaxPolls - pollCount
    {
      Poller.Advance(answer, PaymentStep, MaxPolls, pollCount, whole);
      var step := PaymentStep(answer(pollCount));
      pollCount := pollCount + 1;
      var at: nat := pollCount * Poller.PollInterval;
      Poller.OnScheduleExtend(issuedAt, at);
      issuedAt := issuedAt + [at];
      if step.Stop? || pollCount == MaxPolls {
        // a terminal status, or the last probe: the button is given back
        btn.locked := false;
        return Poller.EndAt(step, pollCount), issuedAt;
      }
    }
  }

  /** A payment reported paid at probe `k`, after nothing but pending or unreadable
      answers, ends the polling there as paid. */
  lemma {:induction false} PaidAtFirstTerminalProbe(answer: nat -> ApiResult<PaymentState>, k: nat)
    requires k < MaxPolls
    requires answer(k).success && answer(k).data == Some(PaymentState(1))
    requires forall j | 0 <= j < k :: !answer(j).success || answer(j).data.None? || !(1 <= answer(j).data.value.status <= 4)
    ensures Poller.Poll(answer, PaymentStep, MaxPolls, 0) == Poller.Trace(Poller.Finished(Paid), k + 1)
  {
    forall j | 0 <= j < k
      ensures PaymentStep(answer(j)).Continue?
    {
    }
    Poller.FirstStopDecides(answer, PaymentStep, MaxPolls, 0, k);
  }

  /** If no probe ever sees a terminal status, the polling gives up after ten minutes of
      probes, with the notice for the last probe's kind of answer. */
  lemma {:induction false} PendingPaymentTimesOut(answer: nat -> ApiResult<PaymentState>)
    requires forall j | 0 <= j < MaxPolls :: answer(j).success && answer(j).data.Some? && answer(j).data.value.status == 0
    ensures var t := Poller.Poll(answer, PaymentStep, MaxPolls, 0);
      t.probes == MaxPolls && ExitNotice(t.exit) == "支付超时，如已完成支付，请稍后刷新页面查看"
      && t.probes * Poller.PollInterval == 600000
  {
    forall j | 0 <= j < MaxPolls
      ensures PaymentStep(answer(j)).Continue?
    {
    }
    Poller.NoStopRunsOut(answer, PaymentStep, MaxPolls, 0);
  }
}
