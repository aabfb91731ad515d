/** The paragraph rewriting page (`task-paragraph.js`): the length check on the
    paragraph, the order it builds, the submit handler, and the status poller that
    holds the submit button until the task ends or the probes run out. */
module TaskParagraph {
  import opened Common
  import opened Browser
  import opened Api
  import PageInit
  import MyTask
  import Poller
  import opened Orders

  const MinLength: nat := 10
  const MaxLength: nat := 2000
  const MaxPolls: nat := 60

  /** The order for a trimmed paragraph. */
  function ParagraphRequest(content: string): OrderRequest
  {
    OrderRequest("段落降重", "未指定", 0, "不需要", "不需要文献", ["论文"], "对段落进行降重处理", "",
                 None, Some(content), None, ParagraphOrder)
  }

  /** `getFormData`: the trimmed paragraph must be present and 10 to 2000 characters
      long. */
  function GetFormData(raw: string): (r: Result<OrderRequest, string>)
    ensures r.Ok? <==> MinLength <= |Trim(raw)| <= MaxLength
    ensures r.Ok? ==>
      r.value.paragraphContent == Some(Trim(raw)) && r.value.orderType == ParagraphOrder
      && r.value.files.None? && r.value.paperUrl.None?
    ensures Trim(raw) == "" ==> r == Err("请输入待降重的段落内容")
    ensures Trim(raw) != "" && |Trim(raw)| < MinLength ==> r == Err("段落内容太短，建议至少10个字符")
    ensures |Trim(raw)| > MaxLength ==> r == Err("段落内容过长，建议不超过2000个字符")
  {
    var content := Trim(raw);
    if content == "" then Err("请输入待降重的段落内容")
    else if |content| < MinLength then Err("段落内容太短，建议至少10个字符")
    else if |content| > MaxLength then Err("段落内容过长，建议不超过2000个字符")
    else Ok(ParagraphRequest(content))
  }

  /** Surrounding whitespace never decides the check. */
  lemma {:induction false} FormIgnoresSurroundingSpace(raw: string, pad: string)
    requires forall i | 0 <= i < |pad| :: IsJsSpace(pad[i])
    ensures GetFormData(pad + raw + pad) == GetFormData(raw)
  {
    TrimPadded(raw, pad);
  }

  lemma {:induction false} TrimPadded(raw: string, pad: string)
    requires forall i | 0 <= i < |pad| :: IsJsSpace(pad[i])
    ensures Trim(pad + raw + pad) == Trim(raw)
  {
    TrimStartPadded(raw + pad, pad);
    assert pad + raw + pad == pad + (raw + pad);
    TrimEndPadded(TrimStart(raw), pad);
    TrimStartAppend(raw, pad);
  }

  lemma {:induction false} TrimStartPadded(s: string, pad: string)
    requires forall i | 0 <= i < |pad| :: IsJsSpace(pad[i])
    ensures TrimStart(pad + s) == TrimStart(s)
  {
    if pad != "" {
      assert (pad + s)[0] == pad[0];
      assert (pad + s)[1..] == pad[1..] + s;
      TrimStartPadded(s, pad[1..]);
    } else {
      assert pad + s == s;
    }
  }

  lemma {:induction false} TrimEndPadded(s: string, pad: string)
    requires forall i | 0 <= i < |pad| :: IsJsSpace(pad[i])
    ensures TrimEnd(s + pad) == TrimEnd(s)
  {
    if pad != "" {
      var init := pad[..|pad| - 1];
      assert (s + pad)[|s + pad| - 1] == pad[|pad| - 1];
      assert (s + pad)[..|s + pad| - 1] == s + init;
      TrimEndPadded(s, init);
    } else {
      assert s + pad == s;
    }
  }

  /** Leading whitespace is removed before the tail is looked at. */
  lemma {:induction false} TrimStartAppend(s: string, pad: string)
    requires forall i | 0 <= i < |pad| :: IsJsSpace(pad[i])
    ensures TrimEnd(TrimStart(s + pad)) == TrimEnd(TrimStart(s) + pad)
    ensures TrimEnd(TrimStart(s) + pad) == Trim(s)
  {
    TrimStartAppendEq(s, pad);
    TrimEndPadded(TrimStart(s), pad);
  }

  lemma {:induction false} TrimStartAppendEq(s: string, pad: string)
    requires forall i | 0 <= i < |pad| :: IsJsSpace(pad[i])
    ensures TrimEnd(TrimStart(s + pad)) == TrimEnd(TrimStart(s) + pad)
  {
    if s == "" {
      assert s + pad == pad;
      TrimStartPadded("", pad);
      assert pad == pad + "";
      TrimEndPadded("", pad);
      assert TrimStart("") + pad == pad;
      TrimEndPadded("", pad);
      assert "" + pad == pad;
    } else if IsJsSpace(s[0]) {
      assert (s + pad)[0] == s[0];
      assert (s + pad)[1..] == s[1..] + pad;
      TrimStartAppendEq(s[1..], pad);
    } else {
      assert (s + pad)[0] == s[0];
    }
  }

  // ---------------------------------------------------------------------------
  // The status poller

  /** How a terminal status ends the polling: done (with a note in the result box when
      the task has a file link), or failed with a message. */
  datatype ParagraphEnd = Completed(resultNote: bool) | TaskFailed(message: string)

  /** How the poller reads one answer of `getTaskByOrderNo`. */
  function ParagraphStep(r: ApiResult<MyTask.TaskData>): (s: Poller.Step<ParagraphEnd>)
    ensures !r.success ==> s == Poller.Continue(Poller.QueryFailed)
    ensures r.success && r.data.None? ==> s == Poller.Continue(Poller.QueryError)
    ensures s.Stop? <==> r.success && r.data.Some? && r.data.value.status in {2, 3}
    ensures s == Poller.Stop(Completed(true)) || s == Poller.Stop(Completed(false)) ==> r.data.value.status == 2
    ensures s.Stop? && s.outcome.TaskFailed? ==> s.outcome.message == OrElse(r.data.value.errorMsg, "降重处理失败")
  {
    if !r.success then Poller.Continue(Poller.QueryFailed)
    else if r.data.None? then Poller.Continue(Poller.QueryError)
    else if r.data.value.status == 2 then Poller.Stop(Completed(Truthy(r.data.value.fileUrl)))
    else if r.data.value.status == 3 then Poller.Stop(TaskFailed(OrElse(r.data.value.errorMsg, "降重处理失败")))
    else Poller.Continue(Poller.NotReady)
  }

  /** The caption while the task is still running after `n` probes. */
  function ProgressCaption(n: nat): string
  {
    "处理中 (" + NatToString(n) + "/60)..."
  }

  /** The notice shown when the polling ends. */
  function ExitNotice(e: Poller.Exit<ParagraphEnd>): (m: string)
    ensures m != ""
    ensures e.Finished? && e.outcome.Completed? ==> m == "降重处理已完成！"
    ensures e.Finished? && e.outcome.TaskFailed? ==>
      m == (if e.outcome.message == "" then "降重处理失败" else e.outcome.message)
    ensures e == Poller.Exhausted(Poller.QueryFailed) ==> m == "任务状态查询超时，请稍后在\"我的任务\"中查看"
    ensures e == Poller.Exhausted(Poller.NotReady) ==> m == "处理时间较长，请稍后在\"我的任务\"中查看"
    ensures e == Poller.Exhausted(Poller.QueryError) ==> m == "任务状态查询失败，请稍后在\"我的任务\"中查看"
    // every way of giving up sends the user to the task list
    ensures e.Exhausted? ==> EndsWith(m, "请稍后在\"我的任务\"中查看")
  {
    if e.Finished? then
      (if e.outcome.Completed? then "降重处理已完成！"
       else if e.outcome.message == "" then "降重处理失败" else e.outcome.message)
    else if e.last == Poller.QueryFailed then "任务状态查询超时，请稍后在\"我的任务\"中查看"
    else if e.last == Poller.NotReady then "处理时间较长，请稍后在\"我的任务\"中查看"
    else "任务状态查询失败，请稍后在\"我的任务\"中查看"
  }

  /** Probe `n` as the button shows it, with `whole` the polling from the start: a
      terminal status or the last probe ends the polling, as `Poller.EndAt` says, and
      gives the button back; a running task shows the progress; and a failed query, or
      a success whose data cannot be read, is retried silently. */
  method ShowProbe(btn: SubmitButton, answer: nat -> ApiResult<MyTask.TaskData>, n: nat,
                   ghost whole: Poller.Trace<ParagraphEnd>)
    returns (finished: bool)
    requires 1 <= n <= MaxPolls && Poller.Poll(answer, ParagraphStep, MaxPolls, n - 1) == whole
    modifies btn
    ensures finished <==> ParagraphStep(answer(n - 1)).Stop? || n == MaxPolls
    ensures finished ==> whole == Poller.EndAt(ParagraphStep(answer(n - 1)), n)
    ensures !finished ==> Poller.Poll(answer, ParagraphStep, MaxPolls, n) == whole
    ensures finished ==> !btn.disabled && btn.caption == IdleCaption
    ensures !finished ==> btn.disabled == old(btn.disabled)
    ensures !finished && ParagraphStep(answer(n - 1)) == Poller.Continue(Poller.NotReady) ==>
      btn.caption == ProgressCaption(n)
    ensures !finished && ParagraphStep(answer(n - 1)) != Poller.Continue(Poller.NotReady) ==>
      btn.caption == old(btn.caption)
  {
    Poller.Advance(answer, ParagraphStep, MaxPolls, n - 1, whole);
    var step := ParagraphStep(answer(n - 1));
    finished := step.Stop? || n >= MaxPolls;
    if finished {
      btn.disabled := false;
      btn.caption := IdleCaption;
    } else if step.reason == Poller.NotReady {
      btn.caption := ProgressCaption(n);
    }
  }

  /** `pollTaskStatus`: probes until a terminal status or the 60th probe; `answer(k)`
      is the answer to probe `k + 1`. Returns how it ended and when each probe was
      issued (milliseconds after the start); what the button shows after each probe is
      `ShowProbe`'s contract. */
  method PollTaskStatus(btn: SubmitButton, answer: nat -> ApiResult<MyTask.TaskData>)
    returns (t: Poller.Trace<ParagraphEnd>, issuedAt: seq<nat>)
    modifies btn
    ensures t == Poller.Poll(answer, ParagraphStep, MaxPolls, 0)
    ensures |issuedAt| == t.probes && Poller.OnSchedule(issuedAt)
    // every exit gives the button back
    ensures !btn.disabled && btn.caption == IdleCaption
  {
    var pollCount: nat := 0;
    issuedAt := [];
    ghost var whole := Poller.Poll(answer, ParagraphStep, MaxPolls, 0);
    while true
      invariant pollCount < MaxPolls && Poller.Poll(answer, ParagraphStep, MaxPolls, pollCount) == whole
      invariant |issuedAt| == pollCount && Poller.OnSchedule(issuedAt)
      decreases MaxPolls - pollCount
    {
      pollCount := pollCount + 1;
      var at: nat := pollCount * Poller.PollInterval;
      Poller.OnScheduleExtend(issuedAt, at);
      issuedAt := issuedAt + [at];
      var finished := ShowProbe(btn, answer, pollCount, whole);
      if finished {
        return Poller.EndAt(ParagraphStep(answer(pollCount - 1)), pollCount), issuedAt;
      }
    }
  }

  /** A task reported finished at probe `k`, after nothing but running or unreadable
      answers, ends the polling there, completed or failed as the status says. */
  lemma {:induction false} TaskEndsAtFirstTerminalProbe(answer: nat -> ApiResult<MyTask.TaskData>, k: nat)
    requires k < MaxPolls
    requires answer(k).success && answer(k).data.Some? && answer(k).data.value.status in {2, 3}
    requires forall j | 0 <= j < k :: !answer(j).success || answer(j).data.None? || answer(j).data.value.status !in {2, 3}
    ensures var t := Poller.Poll(answer, ParagraphStep, MaxPolls, 0);
      t.probes == k + 1 && t.exit.Finished?
      && (t.exit.outcome.Completed? <==> answer(k).data.value.status == 2)
  {
    forall j | 0 <= j < k
      ensures ParagraphStep(answer(j)).Continue?
    {
    }
    Poller.FirstStopDecides(answer, ParagraphStep, MaxPolls, 0, k);
  }

  /** A task that is still running at every probe stops being watched after five
      minutes of probes, with the "taking long" notice. */
  lemma {:induction false} RunningTaskTimesOut(answer: nat -> ApiResult<MyTask.TaskData>)
    requires forall j | 0 <= j < MaxPolls :: answer(j).success && answer(j).data.Some? && answer(j).data.value.status in {0, 1}
    ensures var t := Poller.Poll(answer, ParagraphStep, MaxPolls, 0);
      t.probes == MaxPolls && ExitNotice(t.exit) == "处理时间较长，请稍后在\"我的任务\"中查看"
      && t.probes * Poller.PollInterval == 300000
  {
    forall j | 0 <= j < MaxPolls
      ensures ParagraphStep(answer(j)) == Poller.Continue(Poller.NotReady)
    {
    }
    Poller.NoStopRunsOut(answer, ParagraphStep, MaxPolls, 0);
  }

  // ---------------------------------------------------------------------------
  // The submit handler

  /** `handleSubmit`: the server-verified login check, the form check, then the order;
      a created order leaves the button locked under `处理中...` for the poller. */
  method HandleSubmit(store: Store, btn: SubmitButton, raw: string, probe: ApiResult<PageInit.Profile>,
                      confirmed: bool, created: ApiResult<OrderData>, now: int)
    returns (r: SubmitResult)
    modifies store, btn
    ensures var v := PageInit.Ensured(old(store.View()), probe, confirmed);
      (r.NotAllowed? <==> !v.ok) && store.View() == v.session
    ensures r.Invalid? <==> PageInit.Ensured(old(store.View()), probe, confirmed).ok && GetFormData(raw).Err?
    ensures r.Invalid? ==> r.message == GetFormData(raw).error
    ensures r.Submitted? ==> GetFormData(raw).Ok? && r.sent == GetFormData(raw).value
    ensures r.Submitted? ==> r.outcome.Created? == (created.success && created.data.Some?)
    // the button is touched only once a request is made
    ensures !r.Submitted? ==>
      store.myTasks == old(store.myTasks) && btn.disabled == old(btn.disabled) && btn.caption == old(btn.caption)
    ensures r.Submitted? && r.outcome.Created? ==>
      created.data.Some? && btn.disabled && btn.caption == "处理中..."
      && store.myTasks == MyTask.AddedToCache(old(store.myTasks), CacheEntry(ParagraphOrder, created.data.value, now))
    ensures r.Submitted? && !r.outcome.Created? ==> !btn.disabled && btn.caption == IdleCaption
  {
    var ok, _ := PageInit.EnsureLoggedIn(store, probe, confirmed);
    if !ok {
      return NotAllowed;
    }
    var form := GetFormData(raw);
    r := SubmitForm(store, btn, form, ParagraphOrder, "处理中...", created, now, false);
  }
}
