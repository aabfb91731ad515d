# Thesis-service web front end: a Dafny model

This project models the browser scripts of a thesis-writing service. Users log in with a phone number or an e-mail address and a verification code. They then order essays, article rewrites and paragraph rewrites, follow their tasks in a locally cached list, and top up their points balance by recharge.

The model covers the sequential logic of those scripts:

- **the API gateway** (`api.js`): how a `fetch` outcome becomes the uniform `{success, code, message, data}` envelope, the status tables, and the login guard and redirect;
- **the login page** (`login.js`): the business-code handling, the phone, e-mail and code checks, the send-code button with its 60-second countdown, and the session written after a login;
- **the page bootstrap** (`page-init.js`): the page gate, the profile load, and the `ensureLoggedIn` state machine over the `loginWarning` flag. It also covers the account display and the points formatting;
- **the task list** (`my-task.js`): the `myTasks` cache kept in `localStorage`, the delete, download and refresh actions, and the sort;
- **the three order pages** (`task-center.js`, `task-article.js`, `task-paragraph.js`): their form checks, their shared submit flow, and the paragraph page's task-status poller;
- **the recharge page** (`task-payment.js`): the amount check, the pay lock, the payment-status poller, and the cancel path;
- **the header script** (`script.js`): the short account display, the header choice, the navigation targets, and the account switch.

## How the model is built

- The browser's storage is the class `Browser.Store`:
  - the `localStorage` keys `account`, `userId`, `userInfo` and `myTasks`;
  - the `sessionStorage` flag `loginWarning`;
  - the last navigation target.
- `Store.View()` projects everything but the task cache onto the value `Session`.
- Each method that changes the store is specified by a pure function of the old `Session` or cache, for example `Api.Redirected`, `PageInit.Ensured` and `MyTask.AddedToCache`. The lemmas are proved about those functions.
- Network calls are parameters:
  - `fetch` followed by `response.json()` is a `Transport` value: it either threw, or responded with a status and a body that is not JSON, is the JSON `null`, or is another JSON value with the fields it has;
  - the answer of an API call is an `ApiResult`.
- The two pollers are one recursive specification, `Poller.Poll`. The answer to the k-th probe is `answer(k)`. Each timer firing is one step of the method's loop.
- A notice widget's confirm callback is a `confirmed` flag.
- JavaScript truthiness of an optional string is `Common.Truthy`: absent and `''` are both falsy.

## Model

| member | source | states |
|---|---|---|
| `Common.OrElse` | test-cursor/api.js:118 | `o \|\| fallback`: the value when truthy, otherwise the fallback, never empty when the fallback is not |
| `Common.TrimEmptyIffAllSpace` | test-cursor/login.js:153-155 | `trim()` gives `''` exactly when every character is JavaScript white space |
| `ErrorCodes.Describe` | test-cursor/api.js:13-82 | the business-error table: every entry is non-empty, 200 and -1 have no entry, and 10003 is "未登录或登录已过期" |
| `Api.FailureMessage` | test-cursor/api.js:118-130 | the message of a failed envelope: the backend message, then the table entry, then the fallback |
| `Api.ApiRequest` | test-cursor/api.js:90-162 | success exactly on an HTTP 2xx whose body code is 200. A thrown fetch gives code -1 and the network message. A `null` body throws on its first field read and is caught the same way, giving code -1 and "网络错误，请检查网络连接" whatever the status. An HTTP error never carries data. A 2xx keeps the body's code and data. Every failure has a non-empty message |
| `Api.NonJsonIsEmptyObject` | test-cursor/api.js:107-113 | a body that is not JSON is read as `{}`, so a 2xx non-JSON reply fails with "操作失败" |
| `Api.OrderStatusDesc` | test-cursor/api.js:341-351 | "未知" exactly outside 0..4; 2 is done, 4 is failed |
| `Api.PaymentStatusDesc` | test-cursor/api.js:357-367 | "未知" exactly outside 0..4; 1 is paid; 2-4 are cancelled, expired or failed |
| `Api.TaskStatusDesc` | test-cursor/api.js:373-381 | "未知" exactly outside 0..3; 2 is done, 3 is failed |
| `Api.Redirected` | test-cursor/api.js:394-400 | `redirectToLogin` removes `account`, `userId` and `userInfo`, keeps the login warning, and goes to login.html |
| `Api.ExpiredNotice` | test-cursor/api.js:406-415 | the expiry notice redirects exactly when it is confirmed |
| `Api.RedirectLogsOut` | test-cursor/api.js:387-400 | after a redirect nobody is logged in, and redirecting twice is redirecting once |
| `Api.RedirectToLogin` | test-cursor/api.js:394-400 | the store becomes `Redirected` of the old session, and the task cache is untouched |
| `Api.ShowLoginExpired` | test-cursor/api.js:406-415 | the store becomes `ExpiredNotice` of the old session |
| `Api.RequireLogin` | test-cursor/api.js:421-427 | accepts exactly when an account is stored; on a refusal the store shows the expiry notice |
| `Login.RejectionMessage` | test-cursor/login.js:117 | the message of a rejected reply: table entry first, then backend message, then "操作失败 (错误码: code)" |
| `Login.HandleApiResponse` | test-cursor/login.js:94-125 | accepted exactly on code 200, and in strict mode only with the message "操作成功"; a rejection carries the code, the data and `RejectionMessage` |
| `Login.StrictImpliesLenient` | test-cursor/login.js:94-125 | whatever strict mode accepts, lenient mode accepts identically; whatever lenient mode rejects, strict mode rejects identically |
| `Login.OppositeMessagePrecedence` | test-cursor/login.js:117 | for the same failed body, the gateway shows the backend message and the login page shows the table entry, so the two disagree when those differ |
| `Login.AtCount` | test-cursor/login.js:172 | no `@` counted exactly when there is none |
| `Login.AtIndex` | test-cursor/login.js:172 | the position of the first `@` |
| `Login.AtCountSplit` | test-cursor/login.js:172 | the `@` count of a concatenation is the sum of the counts |
| `Login.UniqueAt` | test-cursor/login.js:172 | a single `@` is counted once and found where it is |
| `Login.EmailCheckIsSound` | test-cursor/login.js:172 | the structural address check implies the `^[^\s@]+@[^\s@]+\.[^\s@]+$` pattern |
| `Login.EmailPatternIsChecked` | test-cursor/login.js:172 | the pattern implies the structural check |
| `Login.EmailCheckMatchesPattern` | test-cursor/login.js:172 | the structural check and the pattern agree on every string |
| `Login.SendCodeCheck` | test-cursor/login.js:152-186 | the send-code input check: accepted exactly when the trimmed account is non-empty and well formed and the page is not opened from a file. The checks run in that order, and each has its own message: "请先输入手机号/邮箱", then "请输入正确的手机号/邮箱", then the file-protocol explanation |
| `Login.LoginFormCheck` | test-cursor/login.js:316-335 | the login form check: accepted exactly when the trimmed account is well formed and the trimmed code is 4 to 6 digits. The checks run in order: account present, account well formed, code present ("请输入验证码"), code of 4 to 6 digits ("验证码格式不正确"). Each has its own message |
| `Login.SendButton.constructor` | test-cursor/login.js:266-268 | the button starts enabled, idle and not counting |
| `Login.SendButton.Tick` | test-cursor/login.js:262-270 | one tick lowers the countdown by one; the button stays locked with "n秒后重试" while it is positive and is released at zero |
| `Login.SendButton.Settle` | test-cursor/login.js:229-230 | a failed send gives the button back enabled with "立即发送"; a sent code starts the 60-second countdown with the button still locked |
| `Login.SendButton.Request` | test-cursor/login.js:189-286 | the outcome is `SendReplyOutcome` of the reply. A failure releases the button with "立即发送", while a sent code leaves it locked and counting down from 60 |
| `Login.SendButton.RunCountdown` | test-cursor/login.js:259-270 | the countdown ends after exactly as many ticks as it had seconds, with the button idle and enabled |
| `Login.SendHttpErrorMessage` | test-cursor/login.js:207-226 | an HTTP error on the send request always has a message |
| `Login.SendThrewMessage` | test-cursor/login.js:278-286 | a thrown send request always has a message |
| `Login.SendReplyOutcome` | test-cursor/login.js:189-286 | how a send reply ends: the code counts as sent exactly on a 2xx reply that lenient `handleApiResponse` accepts. A thrown request, an HTTP error and a rejected body each fail with their own message. A 2xx `null` body fails with the message of the destructuring `TypeError` |
| `Login.SendVerificationCode` | test-cursor/login.js:152-289 | one request exactly when the input check passes. The code counts as sent exactly on a 2xx reply that `handleApiResponse` accepts, which starts a 60-second countdown. Every other failure gives the button back. A rejected input leaves the button as it was |
| `Login.LoginHttpErrorMessage` | test-cursor/login.js:353-366 | an HTTP error on the login request always has a message |
| `Login.LoginThrewMessage` | test-cursor/login.js:439-447 | a thrown login request always has a message |
| `Login.SaveLogin` | test-cursor/login.js:404-430 | a login with data writes `userInfo`, `userId` and `account`; one without data leaves them as they were; either way the page goes to task-center.html and the cache and warning flag stay |
| `Login.SubmitLogin` | test-cursor/login.js:311-452 | one request exactly when the form check passes. Login succeeds exactly on a strict success. Only a strict success that carries data writes `userInfo`, `userId` and `account`; an absent field is stored as the text "undefined". Success opens task-center.html; nothing else moves. A 2xx `null` body fails with the destructuring `TypeError`'s message |
| `PageInit.LastSegment` | test-cursor/page-init.js:10 | the text after the last `/`: a suffix of the path without a `/`, preceded by `/` when shorter than the path |
| `PageInit.GateIgnoresDirectories` | test-cursor/page-init.js:9-14 | the gate depends only on the file name, whatever directory the page is in |
| `PageInit.StateOf` | test-cursor/page-init.js:263-286 | the three guard states: no account; an account without a warning; an account with the warning flag |
| `PageInit.ProfileAccount` | test-cursor/page-init.js:86-87 | the account shown from a profile is never empty |
| `PageInit.ProfileLoaded` | test-cursor/page-init.js:32-112 | `loadUserProfile`. A 10003 refusal sets the login warning and keeps the cached account, or shows the expiry notice when nothing is cached. Other failures keep the session. A success clears the warning and never navigates. With a user record it stores the record, its account (`account \|\| '用户'`) and a truthy `userId`; without one, nothing else changes. The balance shown is `availablePoints \|\| 0`, and only when a balance was sent. The only navigation is to login.html |
| `PageInit.LoadUserProfile` | test-cursor/page-init.js:32-112 | the store and the shown account and points become `ProfileLoaded` of the old session |
| `PageInit.InitPage` | test-cursor/page-init.js:7-27 | pages outside the gate are left alone. A gated page without an account shows the expiry notice. A gated page with an account loads the profile |
| `PageInit.Ensured` | test-cursor/page-init.js:263-286 | `ensureLoggedIn` as a state machine. No account: refused with no request. An account without the warning: accepted with no request. With the warning: exactly one request, refused only on a 10003 refusal, and an acceptance clears the flag. Acceptance always leaves a trusted session |
| `PageInit.EnsureIsIdempotent` | test-cursor/page-init.js:263-286 | once accepted, a second check accepts at once with no request and changes nothing |
| `PageInit.RefusalThenGuard` | test-cursor/page-init.js:41-56 | a 10003 profile refusal followed by a refused server check ends at the login page |
| `PageInit.EnsureLoggedIn` | test-cursor/page-init.js:263-286 | the verdict, the request count and the new store are `Ensured` of the old session |
| `PageInit.Shorten` | test-cursor/page-init.js:176-180 | names of at most 8 characters stay; longer ones become their first 6 and "..." |
| `PageInit.BeforeAt` | test-cursor/page-init.js:161 | `split('@')[0]`: the prefix before the first `@` |
| `PageInit.Initial` | test-cursor/page-init.js:167 | the first character, upper-cased |
| `PageInit.FormatAccountDisplay` | test-cursor/page-init.js:147-184 | an empty account is {U, 用户}. An 11-digit number keeps its first 3 and last 4 digits around "****". An address shows its shortened local part. Anything else is shortened |
| `PageInit.DisplayHidesTheMiddle` | test-cursor/page-init.js:147-184 | a long account never shows more than its first six characters, and a phone number never shows its middle four digits |
| `PageInit.StripCommas` | test-cursor/page-init.js:237-242 | removing the separators leaves no comma and drops exactly the commas, so the length falls by their number |
| `PageInit.StripCommasAppend` | test-cursor/page-init.js:237-242 | separator removal distributes over concatenation |
| `PageInit.StripCommasOfDigits` | test-cursor/page-init.js:237-242 | digits have no separators to remove |
| `PageInit.AppendGroup` | test-cursor/page-init.js:237-242 | appending a comma and three digits keeps the grouping well formed |
| `PageInit.Group` | test-cursor/page-init.js:237-242 | thousands grouping yields well-formed groups whose digits are the input's |
| `PageInit.RegexGroupShort` | test-cursor/page-init.js:241 | the regular-expression grouping leaves three or fewer digits alone |
| `PageInit.RegexGroupExtend` | test-cursor/page-init.js:241 | the regular-expression grouping of a number with three more digits adds one group |
| `PageInit.GroupMatchesRegex` | test-cursor/page-init.js:241 | the grouping equals the `\B(?=(\d{3})+(?!\d))` replacement |
| `PageInit.FormatPoints` | test-cursor/page-init.js:237-242 | a missing balance is "0". A balance of 0 or more is well-grouped decimal. A negative one is "-" followed by the grouped magnitude |
| `MyTask.CalculateProgress` | test-cursor/my-task.js:258-266 | progress stays within 0..100. It is 100 exactly when done and positive exactly for the known states 0..2; pending is 10 and running is 50 |
| `MyTask.OrderTypeName` | test-cursor/my-task.js:197-204 | "未知" exactly outside the three order types |
| `MyTask.Keys` | test-cursor/my-task.js:278 | the order numbers of a list, in order |
| `MyTask.IndexOfOrder` | test-cursor/my-task.js:278 | `findIndex` by order number: the first match, or none exactly when the number is absent |
| `MyTask.Upsert` | test-cursor/my-task.js:401-409 | replaces the first entry with the same order number, or appends it. The task is found under its number afterwards, the keys are kept or extended by one, and no other entry changes |
| `MyTask.ReplaceExisting` | test-cursor/my-task.js:278-283 | `updateTaskInCache` changes nothing for an absent order and is `Upsert` for a present one; keys are kept |
| `MyTask.RemoveOrder` | test-cursor/my-task.js:345 | `filter`: afterwards the number is absent, and every entry with another number occurs exactly as often as before while entries with this number are gone |
| `MyTask.UpsertKeepsKeysUnique` | test-cursor/my-task.js:401-409 | adding a task keeps order numbers unique |
| `MyTask.UpsertIdempotent` | test-cursor/my-task.js:401-409 | adding the same task twice is adding it once |
| `MyTask.RemoveAbsent` | test-cursor/my-task.js:345 | removing an absent order changes nothing |
| `MyTask.RemoveDistributes` | test-cursor/my-task.js:345 | removal distributes over concatenation |
| `MyTask.RemoveUndoesFreshUpsert` | test-cursor/my-task.js:345 | deleting a freshly added order restores the list |
| `MyTask.AddedToCache` | test-cursor/my-task.js:391-416 | the stored value after `addTaskToCache`: a missing cache becomes a one-task list, an unreadable one is left as it is, and a list gets `Upsert` |
| `MyTask.AddedToCacheFindsTask` | test-cursor/my-task.js:391-416 | a readable cache holds the added task under its number afterwards and keeps order numbers unique |
| `MyTask.UpdatedInCache` | test-cursor/my-task.js:272-288 | only a readable list changes, its keys are kept, and an absent order changes nothing |
| `MyTask.DeletedFromCache` | test-cursor/my-task.js:340-350 | deletion fails exactly on an unreadable cache; otherwise the list is filtered |
| `MyTask.AddTaskToCache` | test-cursor/my-task.js:391-416 | the cache becomes `AddedToCache` of the old one and the session is untouched |
| `MyTask.UpdateTaskInCache` | test-cursor/my-task.js:272-288 | the cache becomes `UpdatedInCache` of the old one and the session is untouched |
| `MyTask.HandleDeleteTask` | test-cursor/my-task.js:334-369 | nothing happens without confirmation; a confirmed delete succeeds exactly when `DeletedFromCache` does, and stores its result |
| `MyTask.Listed` | test-cursor/my-task.js:31-62 | a list is shown exactly when the cache is a readable non-empty list; otherwise the empty state is shown |
| `MyTask.InsertByTime` | test-cursor/my-task.js:94-98 | insertion adds exactly the one task |
| `MyTask.InsertKeepsOrder` | test-cursor/my-task.js:94-98 | insertion keeps a newest-first list newest first |
| `MyTask.SortByCreateTimeDesc` | test-cursor/my-task.js:94-98 | the display order is newest first and a permutation of the cache |
| `MyTask.DownloadButtonFor` | test-cursor/my-task.js:162-178 | a download button exactly for status 2, a failure note exactly for status 3 |
| `MyTask.HandleDownloadTask` | test-cursor/my-task.js:375-384 | the file opens exactly when the task has a truthy URL; otherwise the fixed warning is shown |
| `MyTask.Refreshed` | test-cursor/my-task.js:233-240 | a refreshed task keeps its identity and takes the status, progress, file and error of the answer |
| `MyTask.RefreshKeepsKeys` | test-cursor/my-task.js:225-251 | refreshing never adds or removes cached orders |
| `MyTask.RefreshedProgress` | test-cursor/my-task.js:233-240 | an applied answer sets the progress from its status |
| `MyTask.RefreshTaskStatus` | test-cursor/my-task.js:225-251 | each shown task is refreshed from its own answer, or unchanged when that answer does not apply; the cache is the fold of the updates |
| `MyTask.InitTaskList` | test-cursor/my-task.js:14-29 | the list is shown only after `ensureLoggedIn` accepts, and then it is `Listed` of the cache |
| `Poller.Poll` | test-cursor/task-payment.js:134-216 | at least one probe and never more than the maximum. Every probe before the last was retried. A finish carries the last probe's outcome. Exhaustion happens only at the maximum, with the last retry's reason |
| `Poller.FirstStopDecides` | test-cursor/task-payment.js:139-212 | the first terminal answer ends the polling at that probe with its outcome |
| `Poller.NoStopRunsOut` | test-cursor/task-payment.js:149-157 | without a terminal answer the polling runs to the maximum |
| `Poller.Advance` | test-cursor/task-payment.js:139-212 | one probe: a terminal answer, or the last allowed probe, ends the run there; a retried answer before the maximum leaves the rest of the run to the next probe |
| `Orders.CacheEntry` | test-cursor/task-center.js:59-68 | the cached task for a created order: its number, title and type, progress 10, `status \|\| 0` and `createTime \|\| now`, no file |
| `Orders.NewOrderIsListed` | test-cursor/task-article.js:81-90 | a created order is found in a readable cache under its number with progress 10 |
| `Orders.SubmitButton.constructor` | test-cursor/task-center.js:14 | the submit button starts enabled with "提交任务" |
| `Orders.SubmitOrder` | test-cursor/task-center.js:38-91 | created exactly on a success with data: the button stays locked and the cache gains the entry. A failure shows the backend message, and every other outcome gives the button back and leaves the cache alone |
| `Orders.SubmitForm` | test-cursor/task-center.js:26-92 | the shared submit flow after the login gate. An invalid form is reported with its message and nothing else changes. A valid one is submitted, and the order sent to `createOrder` is exactly the one the form built. A created order keeps the button locked under the busy caption and gains a cache entry, and a confirmed success opens my-task.html |
| `TaskParagraph.GetFormData` | test-cursor/task-paragraph.js:91-130 | accepted exactly when the trimmed paragraph has 10 to 2000 characters, with an empty, a short and a long message; the order carries the trimmed text and type 3 |
| `TaskParagraph.FormIgnoresSurroundingSpace` | test-cursor/task-paragraph.js:93 | white space around the paragraph never changes the outcome |
| `TaskParagraph.ParagraphStep` | test-cursor/task-paragraph.js:148-207 | a failed query or unreadable data is retried. Status 2 or 3 stops: 2 completes, 3 fails with `errorMsg \|\| '降重处理失败'` |
| `TaskParagraph.ExitNotice` | test-cursor/task-paragraph.js:154-203 | the notice of each exit: "降重处理已完成！" on completion, `errorMsg || '降重处理失败'` on failure, and for giving up the timeout, "taking long" and query-failure notices by the last probe's kind of answer. All three give-up notices point to the task list |
| `TaskParagraph.ShowProbe` | test-cursor/task-paragraph.js:142-207 | probe n ends the polling exactly on a terminal answer or at the 60th probe, and then releases the button with "提交任务"; otherwise the run continues, and a still-running task shows "处理中 (n/60)..." while an unreadable answer leaves the caption |
| `TaskParagraph.PollTaskStatus` | test-cursor/task-paragraph.js:136-212 | the run is `Poll` with 60 probes. Probe k is issued at k·5000 ms. Every exit releases the button with "提交任务" |
| `TaskParagraph.TaskEndsAtFirstTerminalProbe` | test-cursor/task-paragraph.js:165-184 | the first status 2 or 3 ends the polling at that probe, completed exactly for 2 |
| `TaskParagraph.RunningTaskTimesOut` | test-cursor/task-paragraph.js:186-195 | a task running at every probe is given up after 60 probes (300 s) with the "taking long" notice |
| `TaskParagraph.HandleSubmit` | test-cursor/task-paragraph.js:20-85 | the server-checked login gate first, then the form; the order sent is the one `GetFormData` built; the button and cache are touched only when a request is made; a created order keeps the button locked under "处理中..." for the poller |
| `TaskPayment.CheckAmount` | test-cursor/task-payment.js:48-66 | accepted exactly for a finite amount from 1 to 10000. NaN, zero, negative and minus infinity are invalid. Amounts in (0,1) are too small. Amounts over 10000, and plus infinity, are too large |
| `TaskPayment.PayButton.constructor` | test-cursor/task-payment.js:29 | the pay button starts unlocked |
| `TaskPayment.HandlePayment` | test-cursor/task-payment.js:41-103 | login gate, amount check, then `createRecharge`. Only a success with data starts polling and keeps the lock. A failure or a data-less success releases it. No request leaves it as it was |
| `TaskPayment.ConfirmPayment` | test-cursor/task-payment.js:115-122 | confirming opens the pay URL exactly when it is truthy |
| `TaskPayment.CancelPaymentOrder` | test-cursor/task-payment.js:222-240 | the lock is released on every outcome; the notice is shown exactly on success |
| `TaskPayment.PaymentStep` | test-cursor/task-payment.js:146-210 | a failed query or unreadable data is retried. Status 1 stops as paid. Statuses 2-4 stop with "支付" and their description. Anything else is retried |
| `TaskPayment.ExitNotice` | test-cursor/task-payment.js:152-207 | the notice of each exit: "支付成功！" when paid, "支付" and the status description for a cancelled, expired or failed payment, and for giving up the query-timeout, payment-timeout and query-failure notices by the last probe's kind of answer. Giving up never claims success |
| `TaskPayment.PollPaymentStatus` | test-cursor/task-payment.js:134-216 | the run is `Poll` with 120 probes, probe k is issued at k·5000 ms, and every exit releases the lock |
| `TaskPayment.PaidAtFirstTerminalProbe` | test-cursor/task-payment.js:163-180 | a payment first reported paid at probe k ends the polling there as paid |
| `TaskPayment.PendingPaymentTimesOut` | test-cursor/task-payment.js:190-198 | a payment pending at every probe is given up after 120 probes (600 s) with the timeout notice |
| `TaskCenter.DataStatusText` | test-cursor/task-center.js:124-130 | the three known data-status values get their labels; any other value passes through |
| `TaskCenter.CitationText` | test-cursor/task-center.js:133-139 | the three known citation values get their labels; any other value passes through |
| `TaskCenter.CheckedLabels` | test-cursor/task-center.js:142-152 | at most one label per box, and empty exactly when no box is checked; which labels, in which order, is `CheckedLabelsAreTheChecked` |
| `TaskCenter.CheckedIndices` | test-cursor/task-center.js:142-147 | the positions of the checked boxes: every listed box is checked, the positions rise strictly, and every checked box is listed |
| `TaskCenter.CheckedLabelsAreTheChecked` | test-cursor/task-center.js:142-147 | exactly the checked labels are sent, trimmed and in page order: the k-th label sent belongs to the k-th checked box |
| `TaskCenter.FileRecords` | test-cursor/task-center.js:163-173 | one record per chosen file, with its name and size and an empty URL |
| `TaskCenter.EssayForm` | test-cursor/task-center.js:98-196 | accepted exactly when title, field, a positive word count, a delivery type and the requirements are all present. They are checked in that order and the first missing one decides the complaint: "请输入论文标题", "请输入专业领域", "请输入有效的目标字数（大于0）", "请至少选择一种交付文件类型", "请填写写作与特殊要求". The order carries the trimmed fields and type 1, with `files` null exactly when none are chosen |
| `TaskCenter.CollectChecked` | test-cursor/task-center.js:142-147 | the checkbox loop yields `CheckedLabels` |
| `TaskCenter.CollectFiles` | test-cursor/task-center.js:163-173 | the file loop yields `FileRecords` |
| `TaskCenter.GetFormData` | test-cursor/task-center.js:98-196 | the early-return validator with its loops yields `EssayForm` |
| `TaskCenter.HandleSubmit` | test-cursor/task-center.js:26-92 | server-checked login gate, then the form, then the order under "提交中..."; the order sent is `EssayForm` of the input; the button and cache are touched only when a request is made; a confirmed success opens my-task.html |
| `TaskArticle.FirstOversized` | test-cursor/task-article.js:128-136 | the first file over 20 MiB, if any, with every earlier file within the limit |
| `TaskArticle.ArticleForm` | test-cursor/task-article.js:120-166 | accepted exactly when files are chosen and none exceeds 20 MiB; the complaint names the first oversized file. The order is titled "文章降重 - " and the first file's name, with type 2 |
| `TaskArticle.GetFormData` | test-cursor/task-article.js:120-166 | the loop with its early return yields `ArticleForm` |
| `TaskArticle.HandleSubmit` | test-cursor/task-article.js:48-114 | only the local login check, then the file check, then the order; the order sent is `ArticleForm` of the files; the button and cache are touched only when a request is made; a confirmed success opens my-task.html |
| `Header.ShortDisplay` | test-cursor/script.js:2-15 | a missing account is {U, 用户名}. The name is the first three characters, or the whole of a shorter account. The avatar is the first character, upper-cased exactly for ASCII letters |
| `Header.DisplaysAgreeOnlyOnShortNames` | test-cursor/script.js:2-15 | the two declarations of `formatAccountDisplay` (the header script's and the bootstrap's) agree on the avatar of a plain name, but on the name only for three characters or fewer, and never on the placeholder. Which declaration a page runs depends on the script load order |
| `Header.HeaderFor` | test-cursor/script.js:19-55 | the index page always shows the logged-out header; elsewhere the logged-in header shows exactly when an account is stored |
| `Header.FeatureClick` | test-cursor/script.js:84-127 | a feature button goes to its page when logged in and to login.html otherwise |
| `Header.MyTasksClick` | test-cursor/script.js:180-191 | only a logged-out visitor on the index page is sent to log in |
| `Header.LogoClick` | test-cursor/script.js:147-161 | only the logged-out header of the index page sends the logo to log in |
| `Header.SwitchAccount` | test-cursor/script.js:196-203 | the switch removes exactly the three identity keys and goes to login.html, which is `Redirected` |
| `Header.SwitchLogsOut` | test-cursor/script.js:196-203 | after a switch, every feature button asks for a login and every page shows the logged-out header |

## Left out

- `toast.js`, `task.js` and `proxy-server.js` are not part of this model. They are the notice widget, the tab, drag-and-drop and navigation wiring, and the development proxy. A notice's confirm callback is a boolean parameter.
- `fetch`, `response.json()`, the timers and the clock are parameters. Wall-clock time is not modelled: probe k is "issued" at k·5000 ms by count. `new Date().toISOString()` for a missing creation time is an abstract `now`.
- `formatTime` and `formatAmount` are not modelled. They depend on `Date`, time zones and floating-point `toFixed`.
- `parseFloat`, `parseInt` and `JSON.parse` are not modelled. The amount is an abstract `Amount` (NaN, ±Infinity or a real), the word count is an optional integer, and the cache is `NoTasks`, `Unparseable` or a list. Points and codes are integers.
- DOM rendering (`createTaskRow`, `showEmptyState`, `updateTaskRow` beyond the button decision, `displaySelectedFiles`), console logging, and the cookie diagnostics around the login request are not modelled.
- `refreshPoints`, `loadPointsBalance`, `loadUserInfo`, `refreshUserInfo`, `updateUserDisplay`, the `pageshow` handler, the `userLoggedIn` event and `resetForm` are not modelled. They only repaint, or they repeat calls already modelled.
- `Header.HeaderFor`, `Header.ShortDisplay`, `PageInit.FormatAccountDisplay`: `script.js` and `page-init.js` both declare the global function `formatAccountDisplay`, with different bodies. On a page that loads both scripts, only the declaration loaded last exists, and it serves both `updateHeaderDisplay` and `updateUserDisplay`. The script order is set by the HTML, which is not modelled. The model gives each file its own version, so `HeaderFor`'s display is `ShortDisplay` only when `script.js` loads last, and the bootstrap's is `FormatAccountDisplay` only when `page-init.js` does. `Header.DisplaysAgreeOnlyOnShortNames` compares the two versions, so it shows which visible names depend on that order.
- The order pages call `addTaskToCache` only when it is defined, which depends on the scripts loaded with the page. The model assumes it is defined.
- Strings are sequences of code points. UTF-16 lengths, non-ASCII case mapping and `null` versus `undefined` are not distinguished, and lookups of prototype keys (`constructor`, `toString`) in the option tables are not modelled.
- Concurrency between callbacks is not modelled. Examples: a cancel releasing the pay lock while the status poller still runs, two tabs writing `myTasks`, and the two click handlers on the logged-out logo. `LogoClick` gives the target of the later handler, which is the one the page ends on.
- `MyTask.SortByCreateTimeDesc`: stability of the sort is not stated, and invalid dates are not modelled. The order is by the numeric creation time.
- `MyTask.RefreshTaskStatus`: an answer whose data lacks `status` is not modelled. `TaskData` always carries a status.
- `Login.SendHttpErrorMessage`, `Login.SendThrewMessage`, `Login.LoginHttpErrorMessage`, `Login.LoginThrewMessage`: their contracts state only that a failure always has a message to show. The individual texts are those of the cited lines and are not restated as properties.
- `Login.SendVerificationCode`: a click on a disabled button is excluded by its precondition, because the browser does not deliver it.
- `TaskParagraph.PollTaskStatus`: the "处理中 (k/60)..." caption is stated probe by probe in `TaskParagraph.ShowProbe`; the run as a whole states only the final caption.
- `TaskPayment.ExitNotice`: the paid notice is stated as its first line "支付成功！". The two lines after it, the amount formatted by `formatAmount` and the points gained, are not modelled, and `TaskPayment.PaymentState` leaves out the `amount` field they read.
- `Login.SendReplyOutcome`, `Login.SubmitLogin`: the text of the `TypeError` that `handleApiResponse` throws on a `null` body is the V8 engine's wording; other engines word it differently.
- `Login.SendButton.Request`: the "发送中..." caption that the button shows while the request is in flight is set in the body but not stated. The reply is a parameter, so the request has no observable in-between state.
- `Poller.Poll`: a terminal answer is read only through the status of the answer's data. A data object without `status` counts as not ready, as in the source.
