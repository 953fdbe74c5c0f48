/** The login page of pages/login_page.py: restore a saved session and check
    for the logged-in marker; otherwise fill in the credentials, submit, and
    save the session (cookies and local storage) when that logged in. */
module Login {
  import opened Web
  import opened Disk

  /** The `setItem` calls that restore local-storage entries, one per entry, in order. */
  function ItemSets(entries: Snapshot): (t: History)
    ensures |t| == |entries|
    ensures forall i :: 0 <= i < |entries| ==> t[i] == ItemSet(entries[i].0, entries[i].1)
  {
    if entries == [] then [] else [ItemSet(entries[0].0, entries[0].1)] + ItemSets(entries[1..])
  }

  /** `load_cookies`: false when the cookie file is missing or is not JSON; the
      cookies are added as soon as they are read; the storage file is optional,
      but when it is there and is not JSON the result is false as well, after
      the cookies were added. */
  function LoadCookiesRun(h: History, cookieFile: Option<CookieFile>, storageFile: Option<StorageFile>): Run<bool> {
    match cookieFile
    case None => Run(Ok(false), h)
    case Some(CookieGarbled) => Run(Ok(false), h)
    case Some(CookieJson(cookies)) =>
      var added := h + [CookiesAdded(cookies)];
      match storageFile
      case None => Run(Ok(true), added)
      case Some(StorageGarbled) => Run(Ok(false), added)
      case Some(StorageJson(entries)) => Run(Ok(true), added + ItemSets(entries))
  }

  /** `is_logged_in`: whether the campus button, shown only after login, is
      visible; it answers at once and never raises. */
  function IsLoggedInRun(env: Env, h: History, tab: Tab): Run<bool> {
    ProbeRun(env, h, tab, CampusButton)
  }

  /** What a login wrote to the config directory. */
  datatype Saved = NotSaved | SavedSession(cookies: seq<Cookie>, storage: Snapshot)

  /** How a login step ended, the history after it, and what it saved. */
  datatype LoginStep = LoginStep(out: Outcome<()>, trace: History, saved: Saved)

  /** `save_cookies`: once the campus button is visible, the context's cookies
      and the page's local storage, read at that moment, are written. */
  function SaveCookiesRun(env: Env, h: History, tab: Tab): LoginStep {
    var e := ExpectRun(env, h, tab, CampusButton);
    if e.out.Raise? then LoginStep(e.out, e.trace, NotSaved)
    else LoginStep(Ok(()), e.trace, SavedSession(env.cookies(e.trace), env.storage(e.trace)))
  }

  /** The fallback of `login`: navigate, expect the form, fill in username and
      password, tick remember-me, submit; then save the session only if that
      logged in. Not being logged in afterwards is logged, not raised. */
  function CredentialRun(env: Env, h: History, tab: Tab, username: string, password: string): LoginStep {
    var n := h + [Navigated(tab)];
    var a := ExpectRun(env, n, tab, UsernameInput);
    if a.out.Raise? then LoginStep(a.out, a.trace, NotSaved) else
    var b := ExpectRun(env, a.trace, tab, PasswordInput);
    if b.out.Raise? then LoginStep(b.out, b.trace, NotSaved) else
    var c := ExpectRun(env, b.trace, tab, LoginSubmit);
    if c.out.Raise? then LoginStep(c.out, c.trace, NotSaved) else
    var u := FillRun(env, c.trace, tab, UsernameInput, username);
    if u.out.Raise? then LoginStep(u.out, u.trace, NotSaved) else
    var p := FillRun(env, u.trace, tab, PasswordInput, password);
    if p.out.Raise? then LoginStep(p.out, p.trace, NotSaved) else
    var m := CheckRun(env, p.trace, tab, RememberMe);
    if m.out.Raise? then LoginStep(m.out, m.trace, NotSaved) else
    var s := ClickRun(env, m.trace, tab, LoginSubmit);
    if s.out.Raise? then LoginStep(s.out, s.trace, NotSaved) else
    var l := IsLoggedInRun(env, s.trace, tab);
    if l.out.value then SaveCookiesRun(env, l.trace, tab) else LoginStep(Ok(()), l.trace, NotSaved)
  }

  /** `login(username, password)`: the cookie fast path first, the credentials
      when the session could not be restored or did not log in. */
  function LoginRun(env: Env, h: History, tab: Tab, cookieFile: Option<CookieFile>,
                    storageFile: Option<StorageFile>, username: string, password: string): LoginStep {
    var r := LoadCookiesRun(h, cookieFile, storageFile);
    if r.out.value then
      var l := IsLoggedInRun(env, r.trace + [Navigated(tab)], tab);
      if l.out.value then LoginStep(Ok(()), l.trace, NotSaved)
      else CredentialRun(env, l.trace, tab, username, password)
    else CredentialRun(env, r.trace, tab, username, password)
  }

  /** The history after a credential login from `h` has submitted: navigate,
      see the username field, the password field and the submit button, fill
      the username, fill the password, tick remember-me, click submit. */
  function Submitted(h: History, tab: Tab, username: string, password: string): History {
    h + [Navigated(tab)] + [Waited(tab, UsernameInput, true)] + [Waited(tab, PasswordInput, true)]
      + [Waited(tab, LoginSubmit, true)] + [Filled(tab, UsernameInput, username)]
      + [Filled(tab, PasswordInput, password)] + [Checked(tab, RememberMe)] + [Clicked(tab, LoginSubmit)]
  }

  /** A JSON object read into a dictionary: a later entry for a key wins. */
  function ToMap(entries: Snapshot): map<string, string> {
    if entries == [] then map[] else map[entries[0].0 := entries[0].1] + ToMap(entries[1..])
  }

  /** Local storage after the `setItem` events of `t`, starting from `m`. */
  function Replay(t: History, m: map<string, string>): map<string, string>
    decreases |t|
  {
    if t == [] then m
    else Replay(t[1..], if t[0].ItemSet? then m[t[0].key := t[0].value] else m)
  }

  /** No key occurs twice, as in a snapshot of local storage. */
  predicate DistinctKeys(entries: Snapshot) {
    forall i, j :: 0 <= i < j < |entries| ==> entries[i].0 != entries[j].0
  }

  /** The config files after a login step that saved `saved`. */
  function CookieFileAfter(saved: Saved, before: Option<CookieFile>): Option<CookieFile> {
    if saved.SavedSession? then Some(CookieJson(saved.cookies)) else before
  }

  function StorageFileAfter(saved: Saved, before: Option<StorageFile>): Option<StorageFile> {
    if saved.SavedSession? then Some(StorageJson(saved.storage)) else before
  }

  // ----- properties -----

  /** `load_cookies` is true exactly when the cookie file holds JSON and the
      storage file is absent or holds JSON; the cookies are added whenever the
      cookie file holds JSON, and the entries are restored only when both do. */
  lemma LoadCookiesContract(h: History, cookieFile: Option<CookieFile>, storageFile: Option<StorageFile>)
    ensures var r := LoadCookiesRun(h, cookieFile, storageFile);
      r.out.Ok? && (r.out.value <==> (cookieFile.Some? && cookieFile.value.CookieJson?
                                      && (storageFile.None? || storageFile.value.StorageJson?)))
    ensures var r := LoadCookiesRun(h, cookieFile, storageFile);
      (cookieFile.None? || cookieFile.value.CookieGarbled?) ==> r.trace == h
    ensures var r := LoadCookiesRun(h, cookieFile, storageFile);
      cookieFile.Some? && cookieFile.value.CookieJson? ==>
        var added := h + [CookiesAdded(cookieFile.value.cookies)];
        r.trace == if storageFile.Some? && storageFile.value.StorageJson?
                   then added + ItemSets(storageFile.value.entries) else added
  {
  }

  /** Replaying the restore calls gives what the entries say, on top of what was there. */
  lemma {:induction false} ReplayItemSets(entries: Snapshot, m: map<string, string>)
    ensures Replay(ItemSets(entries), m) == m + ToMap(entries)
    decreases |entries|
  {
    if entries != [] {
      var t := ItemSets(entries);
      assert t[1..] == ItemSets(entries[1..]);
      ReplayItemSets(entries[1..], m[entries[0].0 := entries[0].1]);
      assert m[entries[0].0 := entries[0].1] + ToMap(entries[1..])
        == m + (map[entries[0].0 := entries[0].1] + ToMap(entries[1..]));
    }
  }

  /** Every key of a snapshot is in its dictionary, and when no key repeats,
      each key maps to its own value. */
  lemma {:induction false} ToMapEntries(entries: Snapshot, i: nat)
    requires i < |entries|
    ensures entries[i].0 in ToMap(entries)
    ensures DistinctKeys(entries) ==> ToMap(entries)[entries[i].0] == entries[i].1
    decreases i
  {
    if i > 0 {
      ToMapEntries(entries[1..], i - 1);
    } else if DistinctKeys(entries) && entries[0].0 in ToMap(entries[1..]) {
      ToMapKeys(entries[1..], entries[0].0);
      assert false;
    }
  }

  /** The dictionary has no key the snapshot does not list. */
  lemma {:induction false} ToMapKeys(entries: Snapshot, k: string)
    requires k in ToMap(entries)
    ensures exists i :: 0 <= i < |entries| && entries[i].0 == k
    decreases |entries|
  {
    if entries[0].0 != k {
      ToMapKeys(entries[1..], k);
      var i :| 0 <= i < |entries| - 1 && entries[1..][i].0 == k;
      assert entries[i + 1].0 == k;
    }
  }

  /** Save then load: once `save_cookies` has written a session, `load_cookies`
      succeeds, adds exactly the saved cookies, and issues one `setItem` per saved
      entry, in order; replayed on any store `m`, they map every saved key to its
      saved value and change no other key. */
  lemma SaveThenLoad(env: Env, h: History, tab: Tab, later: History, m: map<string, string>)
    ensures var s := SaveCookiesRun(env, h, tab);
      s.saved.SavedSession? ==>
        var entries := s.saved.storage;
        var r := LoadCookiesRun(later, CookieFileAfter(s.saved, None), StorageFileAfter(s.saved, None));
        r.out == Ok(true)
        && r.trace == later + [CookiesAdded(s.saved.cookies)] + ItemSets(entries)
        && Replay(ItemSets(entries), m) == m + ToMap(entries)
        && (DistinctKeys(entries) ==> forall i :: 0 <= i < |entries| ==>
              entries[i].0 in Replay(ItemSets(entries), m)
              && Replay(ItemSets(entries), m)[entries[i].0] == entries[i].1)
        && (forall k :: k in m && (forall i :: 0 <= i < |entries| ==> entries[i].0 != k) ==>
              k in Replay(ItemSets(entries), m) && Replay(ItemSets(entries), m)[k] == m[k])
  {
    var s := SaveCookiesRun(env, h, tab);
    if s.saved.SavedSession? {
      var entries := s.saved.storage;
      ReplayItemSets(entries, m);
      forall i | 0 <= i < |entries|
        ensures entries[i].0 in ToMap(entries)
        ensures DistinctKeys(entries) ==> ToMap(entries)[entries[i].0] == entries[i].1
      {
        ToMapEntries(entries, i);
      }
      forall k | k in m && (forall i :: 0 <= i < |entries| ==> entries[i].0 != k)
        ensures k !in ToMap(entries)
      {
        if k in ToMap(entries) {
          ToMapKeys(entries, k);
        }
      }
    }
  }

  /** `save_cookies` writes exactly what the context and the page hold once the
      campus button is visible, and writes nothing when it is not. */
  lemma SaveCookiesContract(env: Env, h: History, tab: Tab)
    ensures var s := SaveCookiesRun(env, h, tab);
      var t := h + [Waited(tab, CampusButton, true)];
      (s.out.Ok? <==> env.visible(h, tab, CampusButton))
      && (s.out.Ok? ==> s.trace == t && s.saved == SavedSession(env.cookies(t), env.storage(t)))
      && (s.out.Raise? ==> s.out.error == AssertionFailed(CampusButton) && s.saved == NotSaved)
  {
  }

  /** The fast path: when the session is restored and the campus button is
      visible after navigating, `login` returns at once; it fills nothing,
      clicks nothing and saves nothing. */
  lemma FastPath(env: Env, h: History, tab: Tab, cookieFile: Option<CookieFile>,
                 storageFile: Option<StorageFile>, username: string, password: string)
    ensures var l := LoadCookiesRun(h, cookieFile, storageFile);
      var n := l.trace + [Navigated(tab)];
      var r := LoginRun(env, h, tab, cookieFile, storageFile, username, password);
      l.out.value && env.visible(n, tab, CampusButton) ==>
        r == LoginStep(Ok(()), n + [Probed(tab, CampusButton, true)], NotSaved)
  {
  }

  /** A credential login that stops before its history reaches `Submitted` has
      raised and saved nothing. One that gets past submitting did, in this order
      and once each: navigate, see the form, fill the username, fill the
      password, tick remember-me, click submit, check for the campus button.
      When that check does not see the button it returns normally and saves
      nothing; when it does, `save_cookies` expects the button again and either
      saves the session or raises its `AssertionError` and saves nothing. A
      normal return saved exactly when the check saw the button. */
  lemma CredentialOrder(env: Env, h: History, tab: Tab, username: string, password: string)
    ensures var r := CredentialRun(env, h, tab, username, password);
      var t := Submitted(h, tab, username, password);
      |r.trace| <= |t| ==> r.out.Raise? && r.saved == NotSaved
    ensures var r := CredentialRun(env, h, tab, username, password);
      var t := Submitted(h, tab, username, password);
      var p := t + [Probed(tab, CampusButton, true)];
      |t| < |r.trace| ==>
        r.trace[..|t|] == t
        && (!env.visible(t, tab, CampusButton) ==>
              r == LoginStep(Ok(()), t + [Probed(tab, CampusButton, false)], NotSaved))
        && (env.visible(t, tab, CampusButton) && env.visible(p, tab, CampusButton) ==>
              r.out == Ok(()) && r.trace == p + [Waited(tab, CampusButton, true)] && r.saved.SavedSession?)
        && (env.visible(t, tab, CampusButton) && !env.visible(p, tab, CampusButton) ==>
              r == LoginStep(Raise(AssertionFailed(CampusButton)), p + [Waited(tab, CampusButton, false)], NotSaved))
    ensures var r := CredentialRun(env, h, tab, username, password);
      var t := Submitted(h, tab, username, password);
      r.out.Ok? ==>
        (env.visible(t, tab, CampusButton) ==>
           r.trace == t + [Probed(tab, CampusButton, true)] + [Waited(tab, CampusButton, true)]
           && r.saved.SavedSession?)
        && (!env.visible(t, tab, CampusButton) ==>
           r.trace == t + [Probed(tab, CampusButton, false)] && r.saved == NotSaved)
  {
  }

  /** A failed credential login saves nothing, and neither does one that is
      not logged in afterwards: a session is saved only when the check after
      submitting saw the campus button. */
  lemma SavedOnlyAfterLogin(env: Env, h: History, tab: Tab, username: string, password: string)
    ensures var r := CredentialRun(env, h, tab, username, password);
      var t := Submitted(h, tab, username, password);
      r.saved.SavedSession? ==>
        r.out.Ok? && |r.trace| == |t| + 2 && r.trace[..|t|] == t
        && r.trace[|t|] == Probed(tab, CampusButton, true)
        && r.saved == SavedSession(env.cookies(r.trace), env.storage(r.trace))
  {
    var r := CredentialRun(env, h, tab, username, password);
    var t := Submitted(h, tab, username, password);
    if r.saved.SavedSession? {
      CredentialOrder(env, h, tab, username, password);
    }
  }

  /** Whichever path `login` takes, it saves a session only through the
      credential path. */
  lemma LoginSaves(env: Env, h: History, tab: Tab, cookieFile: Option<CookieFile>,
                   storageFile: Option<StorageFile>, username: string, password: string)
    ensures var l := LoadCookiesRun(h, cookieFile, storageFile);
      var r := LoginRun(env, h, tab, cookieFile, storageFile, username, password);
      r.saved.SavedSession? ==>
        (!l.out.value && r == CredentialRun(env, l.trace, tab, username, password))
        || (l.out.value && r == CredentialRun(env, l.trace + [Navigated(tab)] + [Probed(tab, CampusButton, false)], tab, username, password))
  {
  }

  /** The login page: the browser, the tab it is on and the config directory
      the session files live in. */
  class LoginPage {
    const browser: Browser
    const page: Tab
    const dir: ConfigDir

    constructor (browser: Browser, page: Tab, dir: ConfigDir)
      ensures this.browser == browser && this.page == page && this.dir == dir
    {
      this.browser := browser;
      this.page := page;
      this.dir := dir;
    }

    method Navigate()
      modifies browser`trace
      ensures browser.trace == old(browser.trace) + [Navigated(page)]
    {
      browser.Goto(page);
    }

    method IsLoggedIn() returns (loggedIn: bool)
      modifies browser`trace
      ensures Run(Ok(loggedIn), browser.trace) == IsLoggedInRun(browser.env, old(browser.trace), page)
    {
      loggedIn := browser.IsVisible(page, CampusButton);
    }

    method SaveCookies() returns (r: Outcome<()>)
      modifies browser`trace, dir`cookieFile, dir`storageFile
      ensures var s := SaveCookiesRun(browser.env, old(browser.trace), page);
        r == s.out && browser.trace == s.trace
        && dir.cookieFile == CookieFileAfter(s.saved, old(dir.cookieFile))
        && dir.storageFile == StorageFileAfter(s.saved, old(dir.storageFile))
    {
      r := browser.Expect(page, CampusButton);
      if r.Raise? { return; }
      var cookies := browser.env.cookies(browser.trace);
      dir.WriteCookies(cookies);
      var storage := browser.env.storage(browser.trace);
      dir.WriteStorage(storage);
    }

    method LoadCookies() returns (loaded: bool)
      modifies browser`trace
      ensures Run(Ok(loaded), browser.trace) == LoadCookiesRun(old(browser.trace), dir.cookieFile, dir.storageFile)
    {
      if dir.cookieFile.None? || dir.cookieFile.value.CookieGarbled? {
        return false;
      }
      browser.AddCookies(dir.cookieFile.value.cookies);
      if dir.storageFile.None? {
        return true;
      }
      if dir.storageFile.value.StorageGarbled? {
        return false;
      }
      var entries := dir.storageFile.value.entries;
      ghost var added := browser.trace;
      var i := 0;
      while i < |entries|
        invariant 0 <= i <= |entries|
        invariant browser.trace == added + ItemSets(entries[..i])
      {
        browser.SetItem(entries[i].0, entries[i].1);
        assert ItemSets(entries[..i + 1]) == ItemSets(entries[..i]) + [ItemSet(entries[i].0, entries[i].1)];
        i := i + 1;
      }
      assert entries[..i] == entries;
      loaded := true;
    }

    method Login(username: string, password: string) returns (r: Outcome<()>)
      modifies browser`trace, dir`cookieFile, dir`storageFile
      ensures var s := LoginRun(browser.env, old(browser.trace), page, old(dir.cookieFile),
                                old(dir.storageFile), username, password);
        r == s.out && browser.trace == s.trace
        && dir.cookieFile == CookieFileAfter(s.saved, old(dir.cookieFile))
        && dir.storageFile == StorageFileAfter(s.saved, old(dir.storageFile))
    {
      var loaded := LoadCookies();
      if loaded {
        Navigate();
        var loggedIn := IsLoggedIn();
        if loggedIn {
          return Ok(());
        }
      }
      Navigate();
      r := browser.Expect(page, UsernameInput);
      if r.Raise? { return; }
      r := browser.Expect(page, PasswordInput);
      if r.Raise? { return; }
      r := browser.Expect(page, LoginSubmit);
      if r.Raise? { return; }
      r := browser.Fill(page, UsernameInput, username);
      if r.Raise? { return; }
      r := browser.Fill(page, PasswordInput, password);
      if r.Raise? { return; }
      r := browser.Check(page, RememberMe);
      if r.Raise? { return; }
      r := browser.Click(page, LoginSubmit);
      if r.Raise? { return; }
      var loggedIn := IsLoggedIn();
      if loggedIn {
        r := SaveCookies();
      } else {
        r := Ok(());
      }
    }
  }
}
