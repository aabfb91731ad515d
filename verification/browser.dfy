/** The browser state the page scripts share: the records they persist, and one `Store`
    object standing for `localStorage` (keys `account`, `userId`, `userInfo`, `myTasks`),
    `sessionStorage` (key `loginWarning`) and the page the script last navigated to. A
    serialized JSON value is kept as the value it serializes. */
module Browser {
  import opened Common

  /** The parts of a user record the pages read (`userId`, `account`). */
  datatype UserRecord = UserRecord(userId: Option<string>, account: Option<string>)

  /** One entry of the `myTasks` cache; `createTime` is the creation instant in
      milliseconds, as `new Date(createTime).getTime()` reads it. */
  datatype Task = Task(
    orderNo: string,
    orderType: int,
    title: Option<string>,
    status: int,
    progress: int,
    createTime: int,
    fileUrl: Option<string>,
    errorMsg: Option<string>)

  /** What the `myTasks` key holds as far as the pages can tell: nothing (absent or
      empty), something `JSON.parse` rejects or that is not an array, or an array. */
  datatype TaskCache = NoTasks | Unparseable | Tasks(list: seq<Task>)

  /** The keys of the store the login state depends on, as one value. */
  datatype Session = Session(
    account: Option<string>,
    userId: Option<string>,
    userInfo: Option<UserRecord>,
    loginWarning: Option<string>,
    location: Option<string>)

  class Store {
    var account: Option<string>
    var userId: Option<string>
    var userInfo: Option<UserRecord>
    var myTasks: TaskCache
    var loginWarning: Option<string>
    /** The last value assigned to `window.location.href`, if any. */
    var location: Option<string>

    /** Everything but the task cache. */
    function View(): Session
      reads this
    {
      Session(account, userId, userInfo, loginWarning, location)
    }
  }
}
