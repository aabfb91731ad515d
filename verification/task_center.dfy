/** The essay-writing order page (`task-center.js`): the form check that builds the
    order, and the submit handler. */
module TaskCenter {
  import opened Common
  import opened Browser
  import opened Api
  import PageInit
  import MyTask
  import opened Orders

  /** One delivery checkbox and the text of the label beside it. */
  datatype DeliveryOption = DeliveryOption(checked: bool, text: string)

  /** What the form holds when the button is clicked; `targetWords` is what `parseInt`
      made of the word count (None for NaN). */
  datatype EssayInputs = EssayInputs(
    title: string,
    field: string,
    targetWords: Option<int>,
    dataStatus: string,
    citationFormat: string,
    delivery: seq<DeliveryOption>,
    requirements: string,
    files: seq<FileInfo>)

  /** `dataStatusMap[v] || v`: the known option values get their label, any other value
      is sent as it is. */
  function DataStatusText(v: string): (t: string)
    ensures v == "none" ==> t == "不需要"
    ensures v == "need_no_data" ==> t == "需要，但没数据"
    ensures v == "in_files" ==> t == "数据在资料中"
    ensures v !in {"none", "need_no_data", "in_files"} ==> t == v
  {
    if v == "none" then "不需要"
    else if v == "need_no_data" then "需要，但没数据"
    else if v == "in_files" then "数据在资料中"
    else v
  }

  /** `citationFormatMap[v] || v`. */
  function CitationText(v: string): (t: string)
    ensures v == "gbt" ==> t == "GBT7714"
    ensures v == "apa" ==> t == "APA"
    ensures v == "none" ==> t == "不需要文献"
    ensures v !in {"gbt", "apa", "none"} ==> t == v
  {
    if v == "gbt" then "GBT7714"
    else if v == "apa" then "APA"
    else if v == "none" then "不需要文献"
    else v
  }

  /** The trimmed labels of the checked boxes, in page order. */
  function CheckedLabels(opts: seq<DeliveryOption>): (r: seq<string>)
    ensures |r| <= |opts|
    ensures r == [] <==> forall i | 0 <= i < |opts| :: !opts[i].checked
  {
    if opts == [] then []
    else
      var init := CheckedLabels(opts[..|opts| - 1]);
      var last := opts[|opts| - 1];
      assert forall i | 0 <= i < |opts| - 1 :: opts[..|opts| - 1][i] == opts[i];
      if last.checked then init + [Trim(last.text)] else init
  }

  /** The positions of the checked boxes, in page order. */
  function CheckedIndices(opts: seq<DeliveryOption>): (idx: seq<nat>)
    ensures forall k | 0 <= k < |idx| :: idx[k] < |opts| && opts[idx[k]].checked
    ensures forall k, l | 0 <= k < l < |idx| :: idx[k] < idx[l]
    ensures forall i | 0 <= i < |opts| && opts[i].checked :: i in idx
  {
    if opts == [] then []
    else
      var init := CheckedIndices(opts[..|opts| - 1]);
      assert forall i | 0 <= i < |opts| - 1 :: opts[..|opts| - 1][i] == opts[i];
      if opts[|opts| - 1].checked then init + [|opts| - 1] else init
  }

  /** Exactly the checked labels are sent, trimmed and in page order: the k-th label
      sent is that of the k-th checked box. */
  lemma {:induction false} CheckedLabelsAreTheChecked(opts: seq<DeliveryOption>)
    ensures |CheckedLabels(opts)| == |CheckedIndices(opts)|
    ensures forall k | 0 <= k < |CheckedIndices(opts)| ::
      CheckedLabels(opts)[k] == Trim(opts[CheckedIndices(opts)[k]].text)
    decreases |opts|
  {
    if opts != [] {
      var n := |opts| - 1;
      var init := opts[..n];
      CheckedLabelsAreTheChecked(init);
      var ci, cl := CheckedIndices(init), CheckedLabels(init);
      var extra := if opts[n].checked then [n] else [];
      assert CheckedIndices(opts) == ci + extra;
      assert CheckedLabels(opts) == cl + (if opts[n].checked then [Trim(opts[n].text)] else []);
      forall k | 0 <= k < |CheckedIndices(opts)|
        ensures CheckedLabels(opts)[k] == Trim(opts[CheckedIndices(opts)[k]].text)
      {
        if k < |ci| {
          assert init[ci[k]] == opts[ci[k]];
        }
      }
    }
  }

  /** The `files` records: name and size of every chosen file, no URL. */
  function FileRecords(files: seq<FileInfo>): (r: seq<FileRecord>)
    ensures |r| == |files|
    ensures forall i | 0 <= i < |files| :: r[i] == FileRecord(files[i].name, files[i].size, "")
  {
    seq(|files|, i requires 0 <= i < |files| => FileRecord(files[i].name, files[i].size, ""))
  }

  /** The order `getFormData` builds, or the first complaint: the title, the field,
      a positive word count, at least one delivery type and the requirements must all
      be there. */
  function EssayForm(input: EssayInputs): (r: Result<OrderRequest, string>)
    ensures r.Ok? <==>
      Trim(input.title) != "" && Trim(input.field) != ""
      && input.targetWords.Some? && input.targetWords.value > 0
      && (exists i | 0 <= i < |input.delivery| :: input.delivery[i].checked)
      && Trim(input.requirements) != ""
    ensures Trim(input.title) == "" ==> r == Err("请输入论文标题")
    ensures Trim(input.title) != "" && Trim(input.field) == "" ==> r == Err("请输入专业领域")
    ensures Trim(input.title) != "" && Trim(input.field) != ""
            && (input.targetWords.None? || input.targetWords.value <= 0) ==>
      r == Err("请输入有效的目标字数（大于0）")
    ensures Trim(input.title) != "" && Trim(input.field) != ""
            && input.targetWords.Some? && input.targetWords.value > 0
            && CheckedLabels(input.delivery) == [] ==>
      r == Err("请至少选择一种交付文件类型")
    ensures Trim(input.title) != "" && Trim(input.field) != ""
            && input.targetWords.Some? && input.targetWords.value > 0
            && CheckedLabels(input.delivery) != [] && Trim(input.requirements) == "" ==>
      r == Err("请填写写作与特殊要求")
    ensures r.Ok? ==> var o := r.value;
      o.title == Trim(input.title) && o.field == Trim(input.field) && Some(o.targetWords) == input.targetWords
      && o.dataStatus == DataStatusText(input.dataStatus) && o.citationFormat == CitationText(input.citationFormat)
      && o.deliveryTypes == CheckedLabels(input.delivery) && o.writingRequirements == Trim(input.requirements)
      && o.orderType == EssayOrder && o.paragraphContent.None? && o.paperUrl.None?
      && (o.files.None? <==> input.files == [])
      && (o.files.Some? ==> o.files.value == FileRecords(input.files))
  {
    var title := Trim(input.title);
    var field := Trim(input.field);
    var types := CheckedLabels(input.delivery);
    var requirements := Trim(input.requirements);
    if title == "" then Err("请输入论文标题")
    else if field == "" then Err("请输入专业领域")
    else if input.targetWords.None? || input.targetWords.value <= 0 then Err("请输入有效的目标字数（大于0）")
    else if types == [] then Err("请至少选择一种交付文件类型")
    else if requirements == "" then Err("请填写写作与特殊要求")
    else
      Ok(OrderRequest(title, field, input.targetWords.value, DataStatusText(input.dataStatus),
                      CitationText(input.citationFormat), types, requirements, "",
                      if input.files == [] then None else Some(FileRecords(input.files)),
                      None, None, EssayOrder))
  }

  /** The `forEach` over the delivery checkboxes. */
  method CollectChecked(opts: seq<DeliveryOption>) returns (types: seq<string>)
    ensures types == CheckedLabels(opts)
  {
    types := [];
    var i := 0;
    while i < |opts|
      invariant 0 <= i <= |opts|
      invariant types == CheckedLabels(opts[..i])
    {
      assert opts[..i + 1][..i] == opts[..i];
      if opts[i].checked {
        types := types + [Trim(opts[i].text)];
      }
      i := i + 1;
    }
    assert opts[..i] == opts;
  }

  /** The loop over the chosen files. */
  method CollectFiles(chosen: seq<FileInfo>) returns (files: seq<FileRecord>)
    ensures files == FileRecords(chosen)
  {
    files := [];
    var j := 0;
    while j < |chosen|
      invariant 0 <= j <= |chosen|
      invariant files == FileRecords(chosen[..j])
    {
      files := files + [FileRecord(chosen[j].name, chosen[j].size, "")];
      j := j + 1;
    }
    assert chosen[..j] == chosen;
  }

  /** `getFormData`, with its two loops: the checked labels and the file records. */
  method GetFormData(input: EssayInputs) returns (r: Result<OrderRequest, string>)
    ensures r == EssayForm(input)
  {
    var title := Trim(input.title);
    if title == "" {
      return Err("请输入论文标题");
    }
    var field := Trim(input.field);
    if field == "" {
      return Err("请输入专业领域");
    }
    if input.targetWords.None? || input.targetWords.value <= 0 {
      return Err("请输入有效的目标字数（大于0）");
    }
    var dataStatus := DataStatusText(input.dataStatus);
    var citation := CitationText(input.citationFormat);
    var types := CollectChecked(input.delivery);
    if types == [] {
      return Err("请至少选择一种交付文件类型");
    }
    var requirements := Trim(input.requirements);
    if requirements == "" {
      return Err("请填写写作与特殊要求");
    }
    var files := CollectFiles(input.files);
    r := Ok(OrderRequest(title, field, input.targetWords.value, dataStatus, citation, types, requirements, "",
                         if |files| > 0 then Some(files) else None, None, None, EssayOrder));
  }

  /** `handleSubmit`: the server-verified login check, the form check, then the order;
      `toTasks` says whether the success notice was confirmed, which opens the task
      list. */
  method HandleSubmit(store: Store, btn: SubmitButton, input: EssayInputs, probe: ApiResult<PageInit.Profile>,
                      confirmed: bool, created: ApiResult<OrderData>, now: int, toTasks: bool)
    returns (r: SubmitResult)
    modifies store, btn
    ensures var v := PageInit.Ensured(old(store.View()), probe, confirmed);
      (r.NotAllowed? <==> !v.ok)
      && store.View() == (if r.Submitted? && r.outcome.Created? && toTasks
                          then v.session.(location := Some("my-task.html")) else v.session)
    ensures r.Invalid? <==> PageInit.Ensured(old(store.View()), probe, confirmed).ok && EssayForm(input).Err?
    ensures r.Invalid? ==> r.message == EssayForm(input).error
    ensures r.Submitted? ==> EssayForm(input).Ok? && r.sent == EssayForm(input).value
    // the button and the cache are touched only once a request is made
    ensures !r.Submitted? ==>
      store.myTasks == old(store.myTasks) && btn.disabled == old(btn.disabled) && btn.caption == old(btn.caption)
    ensures r.Submitted? ==> r.outcome.Created? == (created.success && created.data.Some?)
    ensures r.Submitted? && r.outcome.Created? ==>
      created.data.Some? && btn.disabled && btn.caption == "提交中..."
      && store.myTasks == MyTask.AddedToCache(old(store.myTasks), CacheEntry(EssayOrder, created.data.value, now))
    ensures r.Submitted? && !r.outcome.Created? ==> !btn.disabled && btn.caption == IdleCaption
  {
    var ok, _ := PageInit.EnsureLoggedIn(store, probe, confirmed);
    if !ok {
      return NotAllowed;
    }
    var form := GetFormData(input);
    r := SubmitForm(store, btn, form, EssayOrder, "提交中...", created, now, toTasks);
  }
}
