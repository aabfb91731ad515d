/** The page bootstrap shared by the logged-in pages (`page-init.js`): the login gate of
    `initPage`, the profile load that keeps the local session in step with the server,
    the `ensureLoggedIn` check run before protected actions, and the two display
    formatters. */
module PageInit {
  import opened Common
  import opened Browser
  import opened Api
  import ErrorCodes

  // ---------------------------------------------------------------------------
  // The page gate

  /** `pathname.split('/').pop()`: the text after the last `/`. */
  function LastSegment(path: string): (r: string)
    ensures |r| <= |path| && EndsWith(path, r)
    ensures '/' !in r
    ensures |r| < |path| ==> path[|path| - |r| - 1] == '/'
  {
    if path == "" then ""
    else if path[|path| - 1] == '/' then ""
    else
      var r := LastSegment(path[..|path| - 1]);
      assert path[..|path| - 1][|path| - 1 - |r|..] == r;
      r + [path[|path| - 1]]
  }

  const GatedPages: seq<string> :=
    ["task-center.html", "task-article.html", "task-paragraph.html", "task-payment.html", "my-task.html"]

  /** The pages whose script checks the login state on load. */
  predicate NeedsLoginGate(page: string)
  {
    page in GatedPages
  }

  /** A path is gated exactly when its file name is one of the five pages, whatever
      directories precede it. */
  lemma {:induction false} GateIgnoresDirectories(dir: string, page: string)
    requires '/' !in page
    ensures LastSegment(dir + "/" + page) == page
    ensures NeedsLoginGate(LastSegment(dir + "/" + page)) <==> NeedsLoginGate(page)
  {
    var path := dir + "/" + page;
    if page != "" {
      var init := page[..|page| - 1];
      assert path[..|path| - 1] == dir + "/" + init;
      assert path[|path| - 1] == page[|page| - 1];
      assert page[|page| - 1] in page;
      GateIgnoresDirectories(dir, init);
      assert page == init + [page[|page| - 1]];
    }
  }

  // ---------------------------------------------------------------------------
  // The login-state machine

  /** The three states of the local session: no account; an account with nothing known
      against it; an account the server has refused once since the tab opened (the
      `loginWarning` flag). */
  datatype GuardState = LoggedOut | Trusted | Unverified

  const WarningFlag: string := "true"

  function StateOf(s: Session): (g: GuardState)
    ensures g == LoggedOut <==> !Truthy(s.account)
    ensures g == Unverified <==> Truthy(s.account) && s.loginWarning == Some(WarningFlag)
  {
    if !Truthy(s.account) then LoggedOut
    else if s.loginWarning == Some(WarningFlag) then Unverified
    else Trusted
  }

  /** `availablePoints` of the balance record. */
  datatype PointsBalance = PointsBalance(availablePoints: Option<int>)

  /** The data of `/user/profile`. */
  datatype Profile = Profile(userInfo: Option<UserRecord>, pointsBalance: Option<PointsBalance>)

  /** What `getUserProfile()` produced: an envelope, or an exception. */
  datatype ProfileFetch = FetchThrew | Fetched(result: ApiResult<Profile>)

  /** A failure that the server attributes to a missing or stale login. */
  predicate Expired<T>(r: ApiResult<T>)
  {
    !r.success && r.code == Some(ErrorCodes.NotLoggedIn)
  }

  /** The effect of `loadUserProfile`: the new session and what the header shows
      (`shownAccount` is the text given to `updateUserDisplay`, `shownPoints` the
      value given to `updatePointsDisplay`, None where the call does not happen). */
  datatype ProfileOutcome = ProfileOutcome(session: Session, shownAccount: Option<string>, shownPoints: Option<int>)

  /** The account `loadUserProfile` stores from a fetched user record. */
  function ProfileAccount(u: UserRecord): (a: string)
    ensures a != ""
  {
    OrElse(u.account, "用户")
  }

  /** `loadUserProfile` on the session `s`. */
  function ProfileLoaded(s: Session, fetch: ProfileFetch, confirmed: bool): (o: ProfileOutcome)
    // the flag is raised only for a refusal while an account is kept locally
    ensures o.session.loginWarning == Some(WarningFlag) && s.loginWarning != Some(WarningFlag) ==>
      fetch.Fetched? && Expired(fetch.result) && Truthy(s.account)
    ensures fetch.Fetched? && Expired(fetch.result) && Truthy(s.account) ==>
      o.session == s.(loginWarning := Some(WarningFlag)) && StateOf(o.session) == Unverified
    // a refusal without a local account is the only way to lose the session
    ensures fetch.Fetched? && Expired(fetch.result) && !Truthy(s.account) ==> o.session == ExpiredNotice(s, confirmed)
    // any other failure, or an exception, changes nothing stored
    ensures (fetch.FetchThrew? || (!fetch.result.success && !Expired(fetch.result))) ==>
      o.session == s && o.shownPoints == Some(0)
      && o.shownAccount == (if Truthy(s.account) then s.account else None)
    // a success clears the flag and, with a user record, stores a non-empty account
    ensures fetch.Fetched? && fetch.result.success ==> o.session.loginWarning.None?
    ensures fetch.Fetched? && fetch.result.success && fetch.result.data.Some? && fetch.result.data.value.userInfo.Some? ==>
      var u := fetch.result.data.value.userInfo.value;
      o.session.userInfo == Some(u) && o.session.account == Some(ProfileAccount(u))
      && o.session.userId == (if Truthy(u.userId) then u.userId else s.userId)
      && StateOf(o.session) == Trusted && o.shownAccount == Some(ProfileAccount(u))
    // a success never navigates, and without a user record only the flag changes
    ensures fetch.Fetched? && fetch.result.success ==> o.session.location == s.location
    ensures fetch.Fetched? && fetch.result.success
            && (fetch.result.data.None? || fetch.result.data.value.userInfo.None?) ==>
      o.session == s.(loginWarning := None) && o.shownAccount.None?
    // the balance shown is `availablePoints || 0`, and only when a balance was sent
    ensures fetch.Fetched? && fetch.result.success
            && (fetch.result.data.None? || fetch.result.data.value.pointsBalance.None?) ==>
      o.shownPoints.None?
    ensures fetch.Fetched? && fetch.result.success && fetch.result.data.Some?
            && fetch.result.data.value.pointsBalance.Some? ==>
      var b := fetch.result.data.value.pointsBalance.value;
      o.shownPoints == Some(if b.availablePoints.Some? then b.availablePoints.value else 0)
    ensures o.session.location != s.location ==> o.session.location == Some("login.html")
  {
    match fetch
    case FetchThrew =>
      ProfileOutcome(s, if Truthy(s.account) then s.account else None, Some(0))
    case Fetched(r) =>
      if !r.success then
        if r.code == Some(ErrorCodes.NotLoggedIn) then
          if Truthy(s.account) then ProfileOutcome(s.(loginWarning := Some(WarningFlag)), s.account, Some(0))
          else ProfileOutcome(ExpiredNotice(s, confirmed), None, None)
        else ProfileOutcome(s, if Truthy(s.account) then s.account else None, Some(0))
      else
        var cleared := s.(loginWarning := None);
        if r.data.None? then ProfileOutcome(cleared, None, None)
        else
          var p := r.data.value;
          var points := if p.pointsBalance.Some? then Some(if p.pointsBalance.value.availablePoints.Some? then p.pointsBalance.value.availablePoints.value else 0) else None;
          if p.userInfo.None? then ProfileOutcome(cleared, None, points)
          else
            var u := p.userInfo.value;
            var account := ProfileAccount(u);
            ProfileOutcome(cleared.(userInfo := Some(u), userId := if Truthy(u.userId) then u.userId else s.userId, account := Some(account)),
                           Some(account), points)
  }

  /** `loadUserProfile`: one profile request (whose outcome is `fetch`) and its effect on
      the store. */
  method LoadUserProfile(store: Store, fetch: ProfileFetch, confirmed: bool)
    returns (shownAccount: Option<string>, shownPoints: Option<int>)
    modifies store
    ensures ProfileOutcome(store.View(), shownAccount, shownPoints) == ProfileLoaded(old(store.View()), fetch, confirmed)
    ensures store.myTasks == old(store.myTasks)
  {
    match fetch {
      case FetchThrew =>
        shownAccount := if Truthy(store.account) then store.account else None;
        shownPoints := Some(0);
      case Fetched(r) =>
        if !r.success {
          if r.code == Some(ErrorCodes.NotLoggedIn) {
            if Truthy(store.account) {
              shownAccount, shownPoints := store.account, Some(0);
              store.loginWarning := Some(WarningFlag);
            } else {
              ShowLoginExpired(store, confirmed);
              shownAccount, shownPoints := None, None;
            }
          } else {
            shownAccount := if Truthy(store.account) then store.account else None;
            shownPoints := Some(0);
          }
        } else {
          store.loginWarning := None;
          shownAccount, shownPoints := None, None;
          if r.data.Some? {
            var p := r.data.value;
            if p.userInfo.Some? {
              var u := p.userInfo.value;
              store.userInfo := Some(u);
              if Truthy(u.userId) {
                store.userId := u.userId;
              }
              var account := ProfileAccount(u);
              store.account := Some(account);
              shownAccount := Some(account);
            }
            if p.pointsBalance.Some? {
              var pb := p.pointsBalance.value;
              shownPoints := Some(if pb.availablePoints.Some? then pb.availablePoints.value else 0);
            }
          }
        }
    }
  }

  /** `initPage`: on a gated page, a visitor without an account gets the expiry notice;
      one with an account triggers the profile load. `requests` counts profile
      requests. */
  method InitPage(store: Store, path: string, fetch: ProfileFetch, confirmed: bool) returns (requests: nat)
    modifies store
    ensures !NeedsLoginGate(LastSegment(path)) ==> requests == 0 && store.View() == old(store.View())
    ensures NeedsLoginGate(LastSegment(path)) && !old(IsLoggedIn(store)) ==>
      requests == 0 && store.View() == ExpiredNotice(old(store.View()), confirmed)
    ensures NeedsLoginGate(LastSegment(path)) && old(IsLoggedIn(store)) ==>
      requests == 1 && store.View() == ProfileLoaded(old(store.View()), fetch, confirmed).session
    ensures store.myTasks == old(store.myTasks)
  {
    requests := 0;
    if !NeedsLoginGate(LastSegment(path)) {
      return;
    }
    if !IsLoggedIn(store) {
      ShowLoginExpired(store, confirmed);
      return;
    }
    requests := 1;
    var _, _ := LoadUserProfile(store, fetch, confirmed);
  }

  /** The verdict of `ensureLoggedIn` and the session it leaves. */
  datatype Verdict = Verdict(ok: bool, requests: nat, session: Session)

  /** `ensureLoggedIn` on the session `s`; `probe` is the answer a profile request would
      get. */
  function Ensured(s: Session, probe: ApiResult<Profile>, confirmed: bool): (v: Verdict)
    // no account: refused without asking the server
    ensures StateOf(s) == LoggedOut ==> !v.ok && v.requests == 0 && v.session == ExpiredNotice(s, confirmed)
    // an account and no warning: accepted without asking the server
    ensures StateOf(s) == Trusted ==> v.ok && v.requests == 0 && v.session == s
    // a warning: exactly one request, refused only on a login refusal
    ensures StateOf(s) == Unverified ==> v.requests == 1 && (v.ok <==> !Expired(probe))
    ensures StateOf(s) == Unverified && v.ok ==> v.session == s.(loginWarning := None)
    ensures StateOf(s) == Unverified && !v.ok ==> v.session == ExpiredNotice(s, confirmed)
    // acceptance always leaves a trusted session
    ensures v.ok ==> StateOf(v.session) == Trusted
  {
    if !Truthy(s.account) then Verdict(false, 0, ExpiredNotice(s, confirmed))
    else if s.loginWarning == Some(WarningFlag) then
      if Expired(probe) then Verdict(false, 1, ExpiredNotice(s, confirmed))
      else Verdict(true, 1, s.(loginWarning := None))
    else Verdict(true, 0, s)
  }

  /** Once `ensureLoggedIn` has accepted, a second call accepts at once without asking
      the server and changes nothing. */
  lemma EnsureIsIdempotent(s: Session, p1: ApiResult<Profile>, p2: ApiResult<Profile>, c1: bool, c2: bool)
    requires Ensured(s, p1, c1).ok
    ensures Ensured(Ensured(s, p1, c1).session, p2, c2) == Verdict(true, 0, Ensured(s, p1, c1).session)
  {
  }

  /** The flag the profile load raises is what makes the next `ensureLoggedIn` ask the
      server, and a second refusal then ends the session (when the notice is
      confirmed). */
  lemma RefusalThenGuard(s: Session, r: ApiResult<Profile>, probe: ApiResult<Profile>)
    requires Truthy(s.account) && Expired(r) && Expired(probe)
    ensures var v := Ensured(ProfileLoaded(s, Fetched(r), true).session, probe, true);
      !v.ok && v.requests == 1 && !Truthy(v.session.account) && v.session.location == Some("login.html")
  {
  }

  /** `ensureLoggedIn`: `probe` is the answer the profile request gets if one is made. */
  method EnsureLoggedIn(store: Store, probe: ApiResult<Profile>, confirmed: bool) returns (ok: bool, requests: nat)
    modifies store
    ensures Verdict(ok, requests, store.View()) == Ensured(old(store.View()), probe, confirmed)
    ensures store.myTasks == old(store.myTasks)
  {
    requests := 0;
    if !IsLoggedIn(store) {
      ShowLoginExpired(store, confirmed);
      return false, 0;
    }
    if store.loginWarning == Some(WarningFlag) {
      requests := 1;
      if !probe.success && probe.code == Some(ErrorCodes.NotLoggedIn) {
        ShowLoginExpired(store, confirmed);
        return false, requests;
      }
      store.loginWarning := None;
    }
    ok := true;
  }

  // ---------------------------------------------------------------------------
  // formatAccountDisplay

  /** A name of more than 8 characters cut to its first 6 and `...`. */
  function Shorten(name: string): (r: string)
    ensures |name| <= 8 ==> r == name
    ensures |name| > 8 ==> |r| == 9 && r[..6] == name[..6] && r[6..] == "..."
    ensures |r| <= 9
  {
    if |name| <= 8 then name else name[..6] + "..."
  }

  /** `/^\d{11}$/`. */
  predicate IsElevenDigits(s: string)
  {
    |s| == 11 && AllDigits(s)
  }

  /** `account.split('@')[0]`: the text before the first `@`. */
  function BeforeAt(s: string): (r: string)
    ensures r <= s && '@' !in r
    ensures '@' in s ==> |r| < |s| && s[|r|] == '@'
    ensures '@' !in s ==> r == s
  {
    if s == "" || s[0] == '@' then "" else [s[0]] + BeforeAt(s[1..])
  }

  /** `s.charAt(0)` upper-cased, for ASCII letters only. */
  function Initial(s: string): (a: string)
    ensures s == "" ==> a == ""
    ensures s != "" ==> a == [ToUpperAscii(s[0])]
  {
    if s == "" then "" else [ToUpperAscii(s[0])]
  }

  /** `formatAccountDisplay` of `page-init.js`. */
  function FormatAccountDisplay(account: string): (d: AccountDisplay)
    ensures account == "" ==> d == AccountDisplay("U", "用户")
    // a phone number keeps its first three and last four digits and masks the rest
    ensures IsElevenDigits(account) ==>
      |d.name| == 11 && d.name[..3] == account[..3] && d.name[3..7] == "****" && d.name[7..] == account[7..]
      && d.avatar == account[..1]
    // an address shows its local part, shortened, under the local part's initial
    ensures account != "" && !IsElevenDigits(account) && '@' in account ==>
      d.name == Shorten(BeforeAt(account)) && d.avatar == Initial(BeforeAt(account))
    // any other name is shortened and shown under its initial
    ensures account != "" && !IsElevenDigits(account) && '@' !in account ==>
      d.name == Shorten(account) && d.avatar == Initial(account)
    ensures |d.avatar| <= 1 && |d.name| <= 11
  {
    if account == "" then AccountDisplay("U", "用户")
    else if IsElevenDigits(account) then AccountDisplay(account[..1], account[..3] + "****" + account[7..])
    else if '@' in account then AccountDisplay(Initial(BeforeAt(account)), Shorten(BeforeAt(account)))
    else AccountDisplay(Initial(account), Shorten(account))
  }

  /** The shown name never reveals more than the first six characters of a long
      account, and never the middle four digits of a phone number. */
  lemma {:induction false} DisplayHidesTheMiddle(account: string)
    requires |account| > 8
    ensures var n := FormatAccountDisplay(account).name;
      IsElevenDigits(account) ==> (forall i | 3 <= i < 7 :: n[i] == '*')
    ensures var n := FormatAccountDisplay(account).name;
      !IsElevenDigits(account) && '@' !in account ==> n == account[..6] + "..."
  {
    var n := FormatAccountDisplay(account).name;
    if IsElevenDigits(account) {
      forall i | 3 <= i < 7 ensures n[i] == '*' {
        assert n[3..7][i - 3] == n[i];
      }
    } else if '@' !in account {
      assert n[..6] + n[6..] == n;
    }
  }

  // ---------------------------------------------------------------------------
  // formatPoints

  /** The digits with the commas removed. */
  function StripCommas(s: string): (r: string)
    ensures ',' !in r
    // exactly the commas are dropped
    ensures |r| == |s| - multiset(s)[',']
  {
    if s == "" then ""
    else
      assert s == [s[0]] + s[1..];
      (if s[0] == ',' then "" else [s[0]]) + StripCommas(s[1..])
  }

  /** Comma-separated groups: the first of one to three digits, every later one of
      exactly three. */
  predicate WellGrouped(s: string)
  {
    if ',' !in s then 1 <= |s| <= 3 && AllDigits(s)
    else |s| >= 5 && s[|s| - 4] == ',' && AllDigits(s[|s| - 3..]) && WellGrouped(s[..|s| - 4])
  }

  lemma {:induction false} StripCommasAppend(a: string, b: string)
    ensures StripCommas(a + b) == StripCommas(a) + StripCommas(b)
  {
    if a == "" {
      assert a + b == b;
    } else {
      assert (a + b)[0] == a[0];
      assert (a + b)[1..] == a[1..] + b;
      StripCommasAppend(a[1..], b);
    }
  }

  lemma {:induction false} StripCommasOfDigits(s: string)
    requires AllDigits(s)
    ensures StripCommas(s) == s
  {
    if s != "" {
      StripCommasOfDigits(s[1..]);
    }
  }

  lemma DigitsSlice(s: string, lo: nat, hi: nat)
    requires AllDigits(s) && lo <= hi <= |s|
    ensures AllDigits(s[lo..hi])
  {
    forall i | 0 <= i < hi - lo
      ensures IsDigit(s[lo..hi][i])
    {
      assert s[lo..hi][i] == s[lo + i];
    }
  }

  /** A well-grouped string followed by a comma and three digits is well grouped. */
  lemma AppendGroup(g: string, head: string, tail: string)
    requires WellGrouped(g) && StripCommas(g) == head
    requires |tail| == 3 && AllDigits(tail)
    ensures WellGrouped(g + "," + tail) && StripCommas(g + "," + tail) == head + tail
  {
    AppendGroupWell(g, tail);
    AppendGroupStrip(g, tail);
  }

  lemma AppendGroupWell(g: string, tail: string)
    requires WellGrouped(g) && |tail| == 3 && AllDigits(tail)
    ensures WellGrouped(g + "," + tail)
  {
    var r := g + "," + tail;
    assert r[..|r| - 4] == g;
    assert r[|r| - 3..] == tail;
    assert r[|r| - 4] == ',';
    assert ',' in r;
  }

  lemma AppendGroupStrip(g: string, tail: string)
    requires AllDigits(tail)
    ensures StripCommas(g + "," + tail) == StripCommas(g) + tail
  {
    StripCommasAppend(g + ",", tail);
    StripCommasAppend(g, ",");
    StripCommasOfDigits(tail);
    StripOneComma();
  }

  lemma StripOneComma()
    ensures StripCommas(",") == ""
  {
    assert ","[1..] == "";
  }

  /** One to three digits are a group of their own. */
  lemma ShortGroup(ds: string)
    requires 1 <= |ds| <= 3 && AllDigits(ds)
    ensures WellGrouped(ds) && StripCommas(ds) == ds
  {
    StripCommasOfDigits(ds);
    assert ',' !in ds;
  }

  /** More than three digits split into leading digits and the last three. */
  lemma SplitDigits(ds: string)
    requires |ds| > 3 && AllDigits(ds)
    ensures AllDigits(ds[..|ds| - 3]) && AllDigits(ds[|ds| - 3..])
    ensures ds == ds[..|ds| - 3] + ds[|ds| - 3..]
  {
    DigitsSlice(ds, 0, |ds| - 3);
    DigitsSlice(ds, |ds| - 3, |ds|);
    assert ds[0..|ds| - 3] == ds[..|ds| - 3];
    assert ds[|ds| - 3..|ds|] == ds[|ds| - 3..];
  }

  /** Thousands separators put into a string of digits, from the right. */
  function Group(ds: string): (r: string)
    requires ds != "" && AllDigits(ds)
    ensures WellGrouped(r)
    ensures StripCommas(r) == ds
  {
    if |ds| <= 3 then
      ShortGroup(ds);
      ds
    else
      var head, tail := ds[..|ds| - 3], ds[|ds| - 3..];
      SplitDigits(ds);
      var g := Group(head);
      AppendGroup(g, head, tail);
      g + "," + tail
  }

  /** The replacement `/\B(?=(\d{3})+(?!\d))/g → ','` applied to the digits `ds` from
      index `j` on: a comma goes before index `i` exactly when `i` is not the first index
      and a positive multiple of three digits follows up to the end. */
  function RegexGroupFrom(ds: string, j: nat): string
    decreases |ds| - j
  {
    if j >= |ds| then ""
    else (if 0 < j && (|ds| - j) % 3 == 0 then "," else "") + [ds[j]] + RegexGroupFrom(ds, j + 1)
  }

  lemma {:induction false} RegexGroupShort(ds: string, j: nat)
    requires |ds| <= 3 && j <= |ds|
    ensures RegexGroupFrom(ds, j) == ds[j..]
    decreases |ds| - j
  {
    if j < |ds| {
      RegexGroupShort(ds, j + 1);
      assert ds[j..] == [ds[j]] + ds[j + 1..];
    }
  }

  lemma {:induction false} RegexGroupExtend(p: string, q: string, j: nat)
    requires |q| == 3 && 0 < |p| && j <= |p|
    ensures RegexGroupFrom(p + q, j) == RegexGroupFrom(p, j) + "," + q
    decreases |p| - j
  {
    if j == |p| {
      RegexGroupLastThree(p, q);
    } else {
      RegexGroupExtend(p, q, j + 1);
      RegexGroupUnfold(p, q, j);
    }
  }

  /** The last three digits get one comma before them. */
  lemma RegexGroupLastThree(p: string, q: string)
    requires |q| == 3 && 0 < |p|
    ensures RegexGroupFrom(p + q, |p|) == "," + q
  {
    var s := p + q;
    var n := |p|;
    assert s[n] == q[0] && s[n + 1] == q[1] && s[n + 2] == q[2];
    assert RegexGroupFrom(s, n + 3) == "";
    assert RegexGroupFrom(s, n + 2) == [q[2]];
    assert RegexGroupFrom(s, n + 1) == [q[1]] + [q[2]];
    assert RegexGroupFrom(s, n) == "," + [q[0]] + [q[1]] + [q[2]];
    assert q == [q[0]] + [q[1]] + [q[2]];
  }

  /** Before the last three digits, appending them changes nothing but what follows. */
  lemma RegexGroupUnfold(p: string, q: string, j: nat)
    requires |q| == 3 && j < |p|
    ensures RegexGroupFrom(p + q, j)
      == (if 0 < j && (|p| - j) % 3 == 0 then "," else "") + [p[j]] + RegexGroupFrom(p + q, j + 1)
    ensures RegexGroupFrom(p, j)
      == (if 0 < j && (|p| - j) % 3 == 0 then "," else "") + [p[j]] + RegexGroupFrom(p, j + 1)
  {
    var s := p + q;
    assert s[j] == p[j];
    assert (|s| - j) % 3 == (|p| - j) % 3 by {
      assert |s| - j == (|p| - j) + 3;
    }
  }

  /** Grouping from the right places the commas exactly where the regular expression
      does. */
  lemma {:induction false} GroupMatchesRegex(ds: string)
    requires ds != "" && AllDigits(ds)
    ensures Group(ds) == RegexGroupFrom(ds, 0)
  {
    if |ds| <= 3 {
      RegexGroupShort(ds, 0);
    } else {
      var head, tail := ds[..|ds| - 3], ds[|ds| - 3..];
      SplitDigits(ds);
      assert Group(ds) == Group(head) + "," + tail;
      GroupMatchesRegex(head);
      RegexGroupExtend(head, tail, 0);
    }
  }

  /** `formatPoints`: `'0'` for a missing value, otherwise the decimal spelling with
      thousands separators (a minus sign is never followed by a comma). */
  function FormatPoints(points: Option<int>): (r: string)
    ensures points.None? ==> r == "0"
    ensures points.Some? && points.value >= 0 ==> WellGrouped(r) && StripCommas(r) == NatToString(points.value)
    ensures points.Some? && points.value < 0 ==>
      |r| > 1 && r[0] == '-' && WellGrouped(r[1..]) && StripCommas(r[1..]) == NatToString(-points.value)
  {
    if points.None? then "0"
    else if points.value < 0 then "-" + Group(NatToString(-points.value))
    else Group(NatToString(points.value))
  }
}
