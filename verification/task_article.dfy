/** The article rewriting page (`task-article.js`): the file check that builds the
    order, and the submit handler. */
module TaskArticle {
  import opened Common
  import opened Browser
  import opened Api
  import MyTask
  import opened Orders

  /** The largest accepted file, 20 MiB. */
  const MaxFileSize: int := 20 * 1024 * 1024

  /** The position of the first file over the limit, if any. */
  function FirstOversized(files: seq<FileInfo>): (r: Option<nat>)
    ensures r.Some? ==>
      r.value < |files| && files[r.value].size > MaxFileSize
      && forall j | 0 <= j < r.value :: files[j].size <= MaxFileSize
    ensures r.None? <==> forall j | 0 <= j < |files| :: files[j].size <= MaxFileSize
  {
    if files == [] then None
    else if files[0].size > MaxFileSize then Some(0)
    else
      var rest := FirstOversized(files[1..]);
      assert forall j | 1 <= j < |files| :: files[1..][j - 1] == files[j];
      if rest.None? then None else Some(rest.value + 1)
  }

  /** The complaint about an oversized file. */
  function TooLargeMessage(name: string): string
  {
    "文件 \"" + name + "\" 超过20MB限制"
  }

  /** The order for an accepted upload: only the first file's name is sent, in the
      title. */
  function ArticleRequest(first: FileInfo): OrderRequest
  {
    OrderRequest("文章降重 - " + first.name, "未指定", 0, "不需要", "不需要文献", ["论文"],
                 "对上传的文章进行降重处理", "", None, None, Some(""), ArticleOrder)
  }

  /** The order `getFormData` builds, or its complaint: at least one file, and none over
      20 MiB (the first such file is named). */
  function ArticleForm(files: seq<FileInfo>): (r: Result<OrderRequest, string>)
    ensures r.Ok? <==> files != [] && forall j | 0 <= j < |files| :: files[j].size <= MaxFileSize
    ensures files == [] ==> r == Err("请上传待降重的文档")
    // the complaint names the first oversized file
    ensures files != [] && r.Err? ==>
      FirstOversized(files).Some? && r.error == TooLargeMessage(files[FirstOversized(files).value].name)
    ensures r.Ok? ==>
      r.value.title == "文章降重 - " + files[0].name && r.value.orderType == ArticleOrder
      && r.value.files.None? && r.value.paperUrl == Some("")
  {
    if files == [] then Err("请上传待降重的文档")
    else
      var bad := FirstOversized(files);
      if bad.Some? then Err(TooLargeMessage(files[bad.value].name))
      else Ok(ArticleRequest(files[0]))
  }

  /** `getFormData`, with its loop over the chosen files. */
  method GetFormData(files: seq<FileInfo>) returns (r: Result<OrderRequest, string>)
    ensures r == ArticleForm(files)
  {
    if |files| == 0 {
      return Err("请上传待降重的文档");
    }
    var i := 0;
    while i < |files|
      invariant 0 <= i <= |files|
      invariant forall j | 0 <= j < i :: files[j].size <= MaxFileSize
    {
      if files[i].size > MaxFileSize {
        return Err(TooLargeMessage(files[i].name));
      }
      i := i + 1;
    }
    r := Ok(ArticleRequest(files[0]));
  }

  /** `handleSubmit`: the local login check, the file check, then the order;
      `toTasks` says whether the success notice was confirmed, which opens the task
      list. */
  method HandleSubmit(store: Store, btn: SubmitButton, files: seq<FileInfo>, confirmed: bool,
                      created: ApiResult<OrderData>, now: int, toTasks: bool)
    returns (r: SubmitResult)
    modifies store, btn
    ensures r.NotAllowed? <==> !old(IsLoggedIn(store))
    ensures r.NotAllowed? ==> store.View() == ExpiredNotice(old(store.View()), confirmed)
    ensures !r.NotAllowed? ==>
      store.View() == (if r.Submitted? && r.outcome.Created? && toTasks
                       then old(store.View()).(location := Some("my-task.html")) else old(store.View()))
    ensures r.Invalid? <==> old(IsLoggedIn(store)) && ArticleForm(files).Err?
    ensures r.Invalid? ==> r.message == ArticleForm(files).error
    ensures r.Submitted? ==> ArticleForm(files).Ok? && r.sent == ArticleForm(files).value
    // the button and the cache are touched only once a request is made
    ensures !r.Submitted? ==>
      store.myTasks == old(store.myTasks) && btn.disabled == old(btn.disabled) && btn.caption == old(btn.caption)
    ensures r.Submitted? ==> r.outcome.Created? == (created.success && created.data.Some?)
    ensures r.Submitted? && r.outcome.Created? ==>
      created.data.Some? && btn.disabled && btn.caption == "提交中..."
      && store.myTasks == MyTask.AddedToCache(old(store.myTasks), CacheEntry(ArticleOrder, created.data.value, now))
    ensures r.Submitted? && !r.outcome.Created? ==> !btn.disabled && btn.caption == IdleCaption
  {
    var ok := RequireLogin(store, confirmed);
    if !ok {
      return NotAllowed;
    }
    var form := GetFormData(files);
    r := SubmitForm(store, btn, form, ArticleOrder, "提交中...", created, now, toTasks);
  }
}
