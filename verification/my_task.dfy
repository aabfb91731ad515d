/** The task list (`my-task.js`): the `myTasks` cache keyed by `orderNo` with its three
    writers (`addTaskToCache`, `updateTaskInCache`, the delete filter), the status
    refresh that walks the displayed list, the progress and name tables, the display
    order and the download button. */
module MyTask {
  import opened Common
  import opened Browser
  import opened Api
  import PageInit

  // ---------------------------------------------------------------------------
  // Tables

  /** `calculateProgress`: `{0: 10, 1: 50, 2: 100, 3: 0}[status] || 0`. */
  function CalculateProgress(status: int): (p: int)
    ensures 0 <= p <= 100
    ensures p == 100 <==> status == 2
    ensures p > 0 <==> 0 <= status <= 2
    ensures status == 0 ==> p == 10
    ensures status == 1 ==> p == 50
  {
    match status
    case 0 => 10
    case 1 => 50
    case 2 => 100
    case _ => 0
  }

  /** `getOrderTypeName`. */
  function OrderTypeName(orderType: int): (n: string)
    ensures n == "未知" <==> !(1 <= orderType <= 3)
  {
    match orderType
    case 1 => "范文生成"
    case 2 => "文章降重"
    case 3 => "段落降重"
    case _ => "未知"
  }

  // ---------------------------------------------------------------------------
  // The cache as a list keyed by orderNo

  function Keys(l: seq<Task>): (k: seq<string>)
    ensures |k| == |l| && forall i | 0 <= i < |l| :: k[i] == l[i].orderNo
  {
    seq(|l|, i requires 0 <= i < |l| => l[i].orderNo)
  }

  /** No `orderNo` occurs twice. */
  predicate UniqueKeys(l: seq<Task>)
  {
    forall i, j | 0 <= i < j < |l| :: l[i].orderNo != l[j].orderNo
  }

  /** `findIndex(t => t.orderNo === orderNo)`: the first entry with that key. */
  function IndexOfOrder(l: seq<Task>, orderNo: string): (r: Option<nat>)
    ensures r.Some? ==> r.value < |l| && l[r.value].orderNo == orderNo
    ensures r.Some? ==> forall j | 0 <= j < r.value :: l[j].orderNo != orderNo
    ensures r.None? <==> orderNo !in Keys(l)
  {
    if l == [] then None
    else if l[0].orderNo == orderNo then Some(0)
    else
      var rest := IndexOfOrder(l[1..], orderNo);
      KeysCons(l);
      if rest.None? then None
      else
        NoKeyBeforeShift(l, orderNo, rest.value);
        Some(rest.value + 1)
  }

  /** A key absent from the head and from the first `k` entries of the tail is absent
      from the first `k + 1` entries of the list. */
  lemma NoKeyBeforeShift(l: seq<Task>, orderNo: string, k: nat)
    requires k < |l| - 1 && l[0].orderNo != orderNo
    requires forall j | 0 <= j < k :: l[1..][j].orderNo != orderNo
    ensures forall j | 0 <= j < k + 1 :: l[j].orderNo != orderNo
  {
    forall j | 1 <= j < k + 1
      ensures l[j].orderNo != orderNo
    {
      assert l[j] == l[1..][j - 1];
    }
  }

  lemma KeysCons(l: seq<Task>)
    requires l != []
    ensures Keys(l) == [l[0].orderNo] + Keys(l[1..])
  {
  }

  /** The list `addTaskToCache` writes: the first entry with the same key replaced in
      place, or the task appended. */
  function Upsert(l: seq<Task>, t: Task): (r: seq<Task>)
    // the task can be found under its key, as the first entry with it
    ensures IndexOfOrder(r, t.orderNo).Some? && r[IndexOfOrder(r, t.orderNo).value] == t
    // the keys are those of the list, plus the new one at the end if it was missing
    ensures Keys(r) == if t.orderNo in Keys(l) then Keys(l) else Keys(l) + [t.orderNo]
    // every other entry keeps its value and its place
    ensures forall j | 0 <= j < |l| && j != IndexOfOrder(r, t.orderNo).value :: r[j] == l[j]
  {
    match IndexOfOrder(l, t.orderNo)
    case None =>
      var r := l + [t];
      assert Keys(r) == Keys(l) + [t.orderNo];
      assert IndexOfOrder(r, t.orderNo) == Some(|l|);
      r
    case Some(i) =>
      var r := l[i := t];
      assert Keys(r) == Keys(l);
      assert IndexOfOrder(r, t.orderNo) == Some(i);
      r
  }

  /** The list `updateTaskInCache` writes: the first entry with the same key replaced,
      nothing inserted. */
  function ReplaceExisting(l: seq<Task>, t: Task): (r: seq<Task>)
    ensures Keys(r) == Keys(l)
    ensures t.orderNo !in Keys(l) ==> r == l
    ensures t.orderNo in Keys(l) ==> r == Upsert(l, t)
  {
    match IndexOfOrder(l, t.orderNo)
    case None => l
    case Some(i) =>
      assert Keys(l[i := t]) == Keys(l);
      l[i := t]
  }

  /** `tasks.filter(t => t.orderNo !== orderNo)`. */
  function RemoveOrder(l: seq<Task>, orderNo: string): (r: seq<Task>)
    ensures orderNo !in Keys(r)
    // every entry with another key is kept as often as it occurred, and nothing is added
    ensures forall x :: multiset(r)[x] == if x.orderNo == orderNo then 0 else multiset(l)[x]
    ensures |r| <= |l|
  {
    if l == [] then []
    else
      var rest := RemoveOrder(l[1..], orderNo);
      assert l == [l[0]] + l[1..];
      if l[0].orderNo == orderNo then rest
      else
        KeysCons([l[0]] + rest);
        assert ([l[0]] + rest)[1..] == rest;
        [l[0]] + rest
  }

  /** Adding a task keeps the keys unique. */
  lemma UpsertKeepsKeysUnique(l: seq<Task>, t: Task)
    requires UniqueKeys(l)
    ensures UniqueKeys(Upsert(l, t))
  {
    var r := Upsert(l, t);
    forall i, j | 0 <= i < j < |r|
      ensures r[i].orderNo != r[j].orderNo
    {
      assert Keys(r)[i] == r[i].orderNo && Keys(r)[j] == r[j].orderNo;
      if t.orderNo !in Keys(l) && j == |l| {
        assert Keys(l)[i] == l[i].orderNo;
      } else {
        assert Keys(l)[i] == l[i].orderNo && Keys(l)[j] == l[j].orderNo;
      }
    }
  }

  /** Adding the same task twice is adding it once. */
  lemma UpsertIdempotent(l: seq<Task>, t: Task)
    ensures Upsert(Upsert(l, t), t) == Upsert(l, t)
  {
    var r := Upsert(l, t);
    var i := IndexOfOrder(r, t.orderNo).value;
    assert r[i := t] == r;
  }

  lemma {:induction false} RemoveAbsent(l: seq<Task>, orderNo: string)
    requires orderNo !in Keys(l)
    ensures RemoveOrder(l, orderNo) == l
  {
    if l != [] {
      assert Keys(l)[0] == l[0].orderNo;
      assert Keys(l[1..]) == Keys(l)[1..];
      RemoveAbsent(l[1..], orderNo);
    }
  }

  /** The filter keeps the relative order: it acts on the two halves of a list
      separately. */
  lemma {:induction false} RemoveDistributes(a: seq<Task>, b: seq<Task>, orderNo: string)
    ensures RemoveOrder(a + b, orderNo) == RemoveOrder(a, orderNo) + RemoveOrder(b, orderNo)
  {
    if a == [] {
      assert a + b == b;
    } else {
      assert (a + b)[0] == a[0];
      assert (a + b)[1..] == a[1..] + b;
      RemoveDistributes(a[1..], b, orderNo);
    }
  }

  /** Deleting a task that was just added under a new key gives the list back. */
  lemma RemoveUndoesFreshUpsert(l: seq<Task>, t: Task)
    requires t.orderNo !in Keys(l)
    ensures RemoveOrder(Upsert(l, t), t.orderNo) == l
  {
    assert IndexOfOrder(l, t.orderNo).None?;
    assert Upsert(l, t) == l + [t];
    RemoveDistributes(l, [t], t.orderNo);
    RemoveAbsent(l, t.orderNo);
    assert RemoveOrder([t], t.orderNo) == [];
  }

  // ---------------------------------------------------------------------------
  // The cache as the stored value

  /** `addTaskToCache`: a missing or empty key counts as `[]`; a value that is not a
      JSON array makes the write fail, leaving the key as it was. */
  function AddedToCache(c: TaskCache, t: Task): (r: TaskCache)
    ensures c.Unparseable? ==> r == c
    ensures c.NoTasks? ==> r == Tasks([t])
    ensures c.Tasks? ==> r == Tasks(Upsert(c.list, t))
  {
    match c
    case NoTasks => Tasks([t])
    case Unparseable => c
    case Tasks(l) => Tasks(Upsert(l, t))
  }

  /** Whatever the stored list, once a task is added it holds that task under its key,
      and a list with unique keys keeps them unique. */
  lemma AddedToCacheFindsTask(c: TaskCache, t: Task)
    requires !c.Unparseable?
    ensures AddedToCache(c, t).Tasks?
    ensures var l := AddedToCache(c, t).list;
      IndexOfOrder(l, t.orderNo).Some? && l[IndexOfOrder(l, t.orderNo).value] == t
    ensures c.Tasks? && UniqueKeys(c.list) ==> UniqueKeys(AddedToCache(c, t).list)
  {
    if c.Tasks? && UniqueKeys(c.list) {
      UpsertKeepsKeysUnique(c.list, t);
    }
    if c.NoTasks? {
      assert IndexOfOrder([t], t.orderNo) == Some(0);
    }
  }

  /** `updateTaskInCache`: only an existing entry is replaced; nothing is written when
      the key is missing, unparseable, or lacks that order. */
  function UpdatedInCache(c: TaskCache, t: Task): (r: TaskCache)
    ensures !c.Tasks? ==> r == c
    ensures c.Tasks? ==> r.Tasks? && Keys(r.list) == Keys(c.list)
    ensures c.Tasks? && t.orderNo !in Keys(c.list) ==> r == c
  {
    match c
    case Tasks(l) => Tasks(ReplaceExisting(l, t))
    case _ => c
  }

  /** The delete handler on the stored value: None when the write fails (a stored value
      that is not a JSON array), otherwise the new value; an absent key is left absent. */
  function DeletedFromCache(c: TaskCache, orderNo: string): (r: Option<TaskCache>)
    ensures r.None? <==> c.Unparseable?
    ensures c.NoTasks? ==> r == Some(NoTasks)
    ensures c.Tasks? ==> r == Some(Tasks(RemoveOrder(c.list, orderNo)))
  {
    match c
    case NoTasks => Some(NoTasks)
    case Unparseable => None
    case Tasks(l) => Some(Tasks(RemoveOrder(l, orderNo)))
  }

  method AddTaskToCache(store: Store, t: Task)
    modifies store
    ensures store.myTasks == AddedToCache(old(store.myTasks), t)
    ensures store.View() == old(store.View())
  {
    match store.myTasks {
      case NoTasks =>
        store.myTasks := Tasks([t]);
      case Unparseable =>
      case Tasks(l) =>
        store.myTasks := Tasks(Upsert(l, t));
    }
  }

  method UpdateTaskInCache(store: Store, t: Task)
    modifies store
    ensures store.myTasks == UpdatedInCache(old(store.myTasks), t)
    ensures store.View() == old(store.View())
  {
    if store.myTasks.Tasks? {
      var i := IndexOfOrder(store.myTasks.list, t.orderNo);
      if i.Some? {
        store.myTasks := Tasks(store.myTasks.list[i.value := t]);
      }
    }
  }

  /** `handleDeleteTask`: after the confirmation, the filter is written back; `deleted`
      says whether the success notice is shown. */
  method HandleDeleteTask(store: Store, orderNo: string, confirmed: bool) returns (deleted: bool)
    modifies store
    ensures !confirmed ==> !deleted && store.myTasks == old(store.myTasks)
    ensures confirmed ==> (deleted <==> DeletedFromCache(old(store.myTasks), orderNo).Some?)
    ensures deleted ==> store.myTasks == DeletedFromCache(old(store.myTasks), orderNo).value
    ensures !deleted ==> store.myTasks == old(store.myTasks)
    ensures store.View() == old(store.View())
  {
    deleted := false;
    if !confirmed {
      return;
    }
    match store.myTasks {
      case NoTasks =>
        deleted := true;
      case Unparseable =>
      case Tasks(l) =>
        store.myTasks := Tasks(RemoveOrder(l, orderNo));
        deleted := true;
    }
  }

  // ---------------------------------------------------------------------------
  // Display

  /** The list as `loadTasksFromCache` reads it: None shows the empty state. */
  function Listed(c: TaskCache): (r: Option<seq<Task>>)
    ensures r.Some? <==> c.Tasks? && c.list != []
    ensures r.Some? ==> r.value == c.list
  {
    if c.Tasks? && c.list != [] then Some(c.list) else None
  }

  /** Newest first. */
  predicate NewestFirst(l: seq<Task>)
  {
    forall i, j | 0 <= i < j < |l| :: l[i].createTime >= l[j].createTime
  }

  /** `t` inserted in front of the first entry that is not newer than it. */
  function InsertByTime(t: Task, l: seq<Task>): (r: seq<Task>)
    ensures multiset(r) == multiset(l) + multiset{t}
  {
    if l == [] || l[0].createTime <= t.createTime then
      [t] + l
    else
      assert l == [l[0]] + l[1..];
      [l[0]] + InsertByTime(t, l[1..])
  }

  lemma {:induction false} InsertKeepsOrder(t: Task, l: seq<Task>)
    requires NewestFirst(l)
    ensures NewestFirst(InsertByTime(t, l))
    ensures InsertByTime(t, l)[0] == t || InsertByTime(t, l)[0] == l[0]
  {
    if l == [] || l[0].createTime <= t.createTime {
    } else {
      var rest := InsertByTime(t, l[1..]);
      InsertKeepsOrder(t, l[1..]);
      assert rest[0].createTime <= l[0].createTime by {
        if rest[0] != t {
          assert rest[0] == l[1];
        }
      }
      var r := [l[0]] + rest;
      forall i, j | 0 <= i < j < |r|
        ensures r[i].createTime >= r[j].createTime
      {
        assert r[j] == rest[j - 1];
        if i == 0 {
          if j > 1 {
            assert rest[0].createTime >= rest[j - 1].createTime;
          }
        } else {
          assert r[i] == rest[i - 1];
        }
      }
    }
  }

  /** The order `renderTaskList` sorts the list into (`b.createTime - a.createTime`):
      newest first, the same entries. */
  function SortByCreateTimeDesc(l: seq<Task>): (r: seq<Task>)
    ensures NewestFirst(r)
    ensures multiset(r) == multiset(l)
    ensures |r| == |l|
  {
    if l == [] then []
    else
      assert l == [l[0]] + l[1..];
      var rest := SortByCreateTimeDesc(l[1..]);
      InsertKeepsOrder(l[0], rest);
      assert |InsertByTime(l[0], rest)| == |multiset(InsertByTime(l[0], rest))|;
      InsertByTime(l[0], rest)
  }

  /** What the second button of a row does, by status. */
  datatype DownloadButton = Download | ShowFailed | Processing

  /** The second button of a row: only a finished task can be downloaded. */
  function DownloadButtonFor(status: int): (b: DownloadButton)
    ensures b == Download <==> status == 2
    ensures b == ShowFailed <==> status == 3
  {
    if status == 2 then Download else if status == 3 then ShowFailed else Processing
  }

  function ButtonCaption(b: DownloadButton): string
  {
    match b
    case Download => "下载"
    case ShowFailed => "失败"
    case Processing => "处理中"
  }

  datatype DownloadAction = OpenUrl(url: string) | Warn(message: string)

  /** `handleDownloadTask`: without a file link only a warning is shown. */
  function HandleDownloadTask(t: Task): (a: DownloadAction)
    ensures a.OpenUrl? <==> Truthy(t.fileUrl)
    ensures a.OpenUrl? ==> a.url == t.fileUrl.value
    ensures a.Warn? ==> a.message == "文件尚未生成或文件链接无效"
  {
    if Truthy(t.fileUrl) then OpenUrl(t.fileUrl.value) else Warn("文件尚未生成或文件链接无效")
  }

  // ---------------------------------------------------------------------------
  // refreshTaskStatus

  /** The fields of `getTaskByOrderNo` the refresh copies. */
  datatype TaskData = TaskData(status: int, fileUrl: Option<string>, errorMsg: Option<string>)

  /** A task after a successful status query. */
  function Refreshed(t: Task, d: TaskData): (r: Task)
    ensures r.orderNo == t.orderNo && r.orderType == t.orderType && r.title == t.title && r.createTime == t.createTime
    ensures r.status == d.status && r.progress == CalculateProgress(d.status)
    ensures r.fileUrl == d.fileUrl && r.errorMsg == d.errorMsg
  {
    t.(status := d.status, progress := CalculateProgress(d.status), fileUrl := d.fileUrl, errorMsg := d.errorMsg)
  }

  /** Whether a status query changes the task: only a success that carries data. */
  predicate Applies(a: ApiResult<TaskData>)
  {
    a.success && a.data.Some?
  }

  /** The `i`-th task after its query, whose answer is `answer(i)`. */
  function RefreshedAt(tasks: seq<Task>, answer: nat -> ApiResult<TaskData>, i: nat): Task
    requires i < |tasks|
  {
    if Applies(answer(i)) then Refreshed(tasks[i], answer(i).data.value) else tasks[i]
  }

  /** The stored value after the first `n` queries. */
  function CacheAfter(c: TaskCache, tasks: seq<Task>, answer: nat -> ApiResult<TaskData>, n: nat): TaskCache
    requires n <= |tasks|
  {
    if n == 0 then c
    else
      var before := CacheAfter(c, tasks, answer, n - 1);
      if Applies(answer(n - 1)) then UpdatedInCache(before, RefreshedAt(tasks, answer, n - 1)) else before
  }

  /** The refresh changes the stored entries but never the set or the order of keys,
      and never turns a missing or unreadable value into a list. */
  lemma {:induction false} RefreshKeepsKeys(c: TaskCache, tasks: seq<Task>, answer: nat -> ApiResult<TaskData>, n: nat)
    requires n <= |tasks|
    ensures !c.Tasks? ==> CacheAfter(c, tasks, answer, n) == c
    ensures c.Tasks? ==> CacheAfter(c, tasks, answer, n).Tasks? && Keys(CacheAfter(c, tasks, answer, n).list) == Keys(c.list)
  {
    if n > 0 {
      RefreshKeepsKeys(c, tasks, answer, n - 1);
    }
  }

  /** A refreshed entry agrees with its answer: its progress is the one its status
      calls for. */
  lemma RefreshedProgress(tasks: seq<Task>, answer: nat -> ApiResult<TaskData>, i: nat)
    requires i < |tasks| && Applies(answer(i))
    ensures RefreshedAt(tasks, answer, i).progress == CalculateProgress(answer(i).data.value.status)
    ensures RefreshedAt(tasks, answer, i).orderNo == tasks[i].orderNo
  {
  }

  /** `refreshTaskStatus`: one query per displayed task, in order; `shown` is the list
      after the refresh. */
  method RefreshTaskStatus(store: Store, tasks: seq<Task>, answer: nat -> ApiResult<TaskData>) returns (shown: seq<Task>)
    modifies store
    ensures |shown| == |tasks|
    ensures forall i | 0 <= i < |tasks| :: shown[i] == RefreshedAt(tasks, answer, i)
    ensures forall i | 0 <= i < |tasks| && !Applies(answer(i)) :: shown[i] == tasks[i]
    ensures store.myTasks == CacheAfter(old(store.myTasks), tasks, answer, |tasks|)
    ensures store.View() == old(store.View())
  {
    shown := tasks;
    var i := 0;
    while i < |tasks|
      invariant 0 <= i <= |tasks| && |shown| == |tasks|
      invariant forall j | 0 <= j < i :: shown[j] == RefreshedAt(tasks, answer, j)
      invariant forall j | i <= j < |tasks| :: shown[j] == tasks[j]
      invariant store.myTasks == CacheAfter(old(store.myTasks), tasks, answer, i)
      invariant store.View() == old(store.View())
    {
      var result := answer(i);
      if result.success && result.data.Some? {
        var t := Refreshed(shown[i], result.data.value);
        shown := shown[i := t];
        UpdateTaskInCache(store, t);
      }
      i := i + 1;
    }
  }

  /** `initTaskList`: the login check, then the cached list newest first, then its
      refresh. `displayed` is None when the page shows the empty state or stops at the
      login check. */
  method InitTaskList(store: Store, probe: ApiResult<PageInit.Profile>, confirmed: bool,
                      answer: nat -> ApiResult<TaskData>)
    returns (displayed: Option<seq<Task>>)
    modifies store
    ensures var v := PageInit.Ensured(old(store.View()), probe, confirmed);
      !v.ok ==> displayed.None? && store.View() == v.session && store.myTasks == old(store.myTasks)
    ensures var v := PageInit.Ensured(old(store.View()), probe, confirmed);
      v.ok && Listed(old(store.myTasks)).None? ==> displayed.None? && store.myTasks == old(store.myTasks)
    ensures var v := PageInit.Ensured(old(store.View()), probe, confirmed);
      v.ok && Listed(old(store.myTasks)).Some? ==>
        var order := SortByCreateTimeDesc(Listed(old(store.myTasks)).value);
        displayed.Some? && |displayed.value| == |order|
        && (forall i | 0 <= i < |order| :: displayed.value[i] == RefreshedAt(order, answer, i))
        && store.myTasks == CacheAfter(old(store.myTasks), order, answer, |order|)
  {
    var ok, _ := PageInit.EnsureLoggedIn(store, probe, confirmed);
    if !ok {
      return None;
    }
    var listed := Listed(store.myTasks);
    if listed.None? {
      return None;
    }
    var order := SortByCreateTimeDesc(listed.value);
    var shown := RefreshTaskStatus(store, order, answer);
    displayed := Some(shown);
  }
}
