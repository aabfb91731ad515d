/** What the three order pages (`task-center.js`, `task-article.js`,
    `task-paragraph.js`) share: the order request they build, the submit button they
    lock while `createOrder` runs, and the entry they add to the task cache when the
    order is created. */
module Orders {
  import opened Common
  import opened Browser
  import opened Api
  import MyTask

  /** One entry of `files`: the name and size of a chosen file, with no upload URL. */
  datatype FileRecord = FileRecord(fileName: string, fileSize: int, fileUrl: string)

  /** A file chosen in a file input. */
  datatype FileInfo = FileInfo(name: string, size: int)

  /** The body of `createOrder`; the page-specific fields are None where a page does not
      send them. */
  datatype OrderRequest = OrderRequest(
    title: string,
    field: string,
    targetWords: int,
    dataStatus: string,
    citationFormat: string,
    deliveryTypes: seq<string>,
    writingRequirements: string,
    specialRequirements: string,
    files: Option<seq<FileRecord>>,
    paragraphContent: Option<string>,
    paperUrl: Option<string>,
    orderType: int)

  /** The fields of a created order the pages read. */
  datatype OrderData = OrderData(orderNo: string, title: Option<string>, status: Option<int>, createTime: Option<int>)

  const EssayOrder: int := 1
  const ArticleOrder: int := 2
  const ParagraphOrder: int := 3
  const InitialProgress: int := 10
  const IdleCaption: string := "提交任务"

  /** The task a page adds to the cache for a created order; `now` is the creation
      time the page falls back to. */
  function CacheEntry(orderType: int, o: OrderData, now: int): (t: Task)
    ensures t.orderNo == o.orderNo && t.orderType == orderType && t.title == o.title
    ensures t.progress == InitialProgress && t.fileUrl.None? && t.errorMsg.None?
    // `status || 0` and `createTime || now`
    ensures t.status == (if o.status.Some? then o.status.value else 0)
    ensures t.createTime == (if o.createTime.Some? && o.createTime.value != 0 then o.createTime.value else now)
  {
    Task(o.orderNo, orderType,
         o.title,
         if o.status.Some? then o.status.value else 0,
         InitialProgress,
         if o.createTime.Some? && o.createTime.value != 0 then o.createTime.value else now,
         None, None)
  }

  /** A new order appears in the task list once, under its number, as a task that is
      about to start. */
  lemma NewOrderIsListed(c: TaskCache, orderType: int, o: OrderData, now: int)
    requires !c.Unparseable?
    ensures var l := MyTask.AddedToCache(c, CacheEntry(orderType, o, now)).list;
      var i := MyTask.IndexOfOrder(l, o.orderNo);
      i.Some? && l[i.value].progress == InitialProgress && l[i.value].orderType == orderType
  {
    MyTask.AddedToCacheFindsTask(c, CacheEntry(orderType, o, now));
  }

  /** The submit button of an order page. */
  class SubmitButton {
    var disabled: bool
    var caption: string

    constructor ()
      ensures !disabled && caption == IdleCaption
    {
      disabled, caption := false, IdleCaption;
    }
  }

  /** How `createOrder` ended for the page. */
  datatype SubmitOutcome =
    | Created(orderNo: string)
    | CreateFailed(message: string)   // `success: false`, its message shown
    | SubmitError                     // reading the created order threw

  /** The common tail of the three `handleSubmit`s once the form is valid: lock the
      button under `busyCaption`, call `createOrder` (whose envelope is `created`), and
      on success add the task to the cache and keep the button locked; every failure
      gives the button back. */
  method SubmitOrder(store: Store, btn: SubmitButton, orderType: int, busyCaption: string,
                     created: ApiResult<OrderData>, now: int)
    returns (r: SubmitOutcome)
    modifies store, btn
    ensures r.Created? <==> created.success && created.data.Some?
    ensures r.Created? ==>
      r.orderNo == created.data.value.orderNo
      && btn.disabled && btn.caption == busyCaption
      && store.myTasks == MyTask.AddedToCache(old(store.myTasks), CacheEntry(orderType, created.data.value, now))
    ensures r.CreateFailed? <==> !created.success
    ensures r.CreateFailed? ==> r.message == created.message
    ensures !r.Created? ==> !btn.disabled && btn.caption == IdleCaption && store.myTasks == old(store.myTasks)
    ensures store.View() == old(store.View())
  {
    btn.disabled := true;
    btn.caption := busyCaption;
    if !created.success {
      btn.disabled := false;
      btn.caption := IdleCaption;
      return CreateFailed(created.message);
    }
    if created.data.None? {
      btn.disabled := false;
      btn.caption := IdleCaption;
      return SubmitError;
    }
    var o := created.data.value;
    MyTask.AddTaskToCache(store, CacheEntry(orderType, o, now));
    r := Created(o.orderNo);
  }

  /** How a click on an order page's submit button ended. */
  datatype SubmitResult =
    | NotAllowed                        // the login check refused
    | Invalid(message: string)          // the form check failed; no request
    | Submitted(sent: OrderRequest, outcome: SubmitOutcome)  // `sent` went to `createOrder`

  /** The three `handleSubmit`s after the login check has passed: the form check's
      verdict `form`, then the order; `toTasks` says whether the success notice was
      confirmed, which opens the task list. Nothing is touched until a request is
      made. */
  method SubmitForm(store: Store, btn: SubmitButton, form: Result<OrderRequest, string>, orderType: int,
                    busyCaption: string, created: ApiResult<OrderData>, now: int, toTasks: bool)
    returns (r: SubmitResult)
    modifies store, btn
    ensures !r.NotAllowed?
    ensures r.Invalid? <==> form.Err?
    ensures r.Invalid? ==> r.message == form.error
    // a valid form is submitted, and the order sent is the one the form built
    ensures r.Submitted? <==> form.Ok?
    ensures r.Submitted? ==> r.sent == form.value
    ensures store.View() == (if r.Submitted? && r.outcome.Created? && toTasks
                             then old(store.View()).(location := Some("my-task.html")) else old(store.View()))
    ensures !r.Submitted? ==>
      store.myTasks == old(store.myTasks) && btn.disabled == old(btn.disabled) && btn.caption == old(btn.caption)
    ensures r.Submitted? ==> r.outcome.Created? == (created.success && created.data.Some?)
    ensures r.Submitted? && r.outcome.Created? ==>
      created.data.Some? && btn.disabled && btn.caption == busyCaption
      && store.myTasks == MyTask.AddedToCache(old(store.myTasks), CacheEntry(orderType, created.data.value, now))
    ensures r.Submitted? && !r.outcome.Created? ==> !btn.disabled && btn.caption == IdleCaption
  {
    if form.Err? {
      return Invalid(form.error);
    }
    var outcome := SubmitOrder(store, btn, orderType, busyCaption, created, now);
    if outcome.Created? && toTasks {
      store.location := Some("my-task.html");
    }
    r := Submitted(form.value, outcome);
  }
}
