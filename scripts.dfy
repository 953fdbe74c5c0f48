/** The two entry scripts the GUI launches: scripts/main_script.py (log in,
    then the booking chain ending in payment) and scripts/leftover_script.py
    (log in, then the chain up to the date, then read the free time slots and
    hand them to the GUI through config/leftover_result.json). Both read the
    settings file into a configuration record, run everything inside one
    try/except/finally, map any exception to exit code 1 and close the
    browser on every path. */
module Scripts {
  import opened Web
  import opened Disk
  import opened Ticket
  import opened Login
  import Gui

  /** The settings file's JSON object, each value as its text. */
  type Config = map<string, string>

  /** `select_date`'s default `max_attempts`, which both scripts keep. */
  const MaxAttempts := 100

  /** One call of the `TicketPage` method chain. */
  datatype Stage = Campus | Venue | Date | TimeSlot | SpecificVenue | Submit | Payment | Leftover

  /** The chain in scripts/main_script.py. */
  const BookingStages := [Campus, Venue, Date, TimeSlot, SpecificVenue, Submit, Payment]

  /** The chain in scripts/leftover_script.py. */
  const LeftoverStages := [Campus, Venue, Date, Leftover]

  /** What a chain call returns: the page itself, `make_payment`'s result, or
      `leftover_timeslot`'s list. */
  datatype Value = Page | Paid(result: PaymentResult) | Slots(slots: Option<seq<string>>)

  /** A method returning `self` becomes `Page` when it does not raise. */
  function Chain(o: Outcome<()>): (r: Outcome<Value>)
    ensures r.Ok? <==> o.Ok?
    ensures r.Ok? ==> r.value == Page
    ensures r.Raise? ==> r.error == o.error
  {
    match o
    case Ok(_) => Ok(Page)
    case Raise(e) => Raise(e)
  }

  /** One chain call with the configuration lookups of its arguments, in the
      order Python evaluates them: `cfg[key]` raises KeyError on a missing
      key, `cfg.get('court')` does not, and `float(...)` raises ValueError on
      text that is not a number (`isNumber` says which texts are). */
  function StageRun(env: Env, h: History, tab: Tab, cfg: Config, isNumber: string -> bool, stage: Stage): Run<Value> {
    match stage
    case Campus =>
      var c := SelectCampusRun(env, h, tab);
      Run(Chain(c.out), c.trace)
    case Venue =>
      if "venue" !in cfg then Run(Raise(MissingKey("venue")), h) else
      var v := SelectVenueRun(env, h, tab, cfg["venue"]);
      Run(Chain(v.out), v.trace)
    case Date =>
      if "date" !in cfg then Run(Raise(MissingKey("date")), h)
      else if "venue" !in cfg then Run(Raise(MissingKey("venue")), h)
      else if "wait_timeout_seconds" !in cfg then Run(Raise(MissingKey("wait_timeout_seconds")), h)
      else if !isNumber(cfg["wait_timeout_seconds"]) then Run(Raise(NotANumber(cfg["wait_timeout_seconds"])), h)
      else
        var d := SelectDateRun(env, h, tab, cfg["date"], cfg["venue"], MaxAttempts);
        Run(Chain(d.out), d.trace)
    case TimeSlot =>
      if "time_slot" !in cfg then Run(Raise(MissingKey("time_slot")), h) else
      var t := SelectTimeSlotRun(env, h, tab, cfg["time_slot"]);
      Run(Chain(t.out), t.trace)
    case SpecificVenue =>
      if "venue" !in cfg then Run(Raise(MissingKey("venue")), h) else
      var court := if "court" in cfg then Some(cfg["court"]) else None;
      var s := SpecificVenueRun(env, h, tab, cfg["venue"], court);
      Run(Chain(s.out), s.trace)
    case Submit =>
      var s := SubmitBookingRun(env, h, tab);
      Run(Chain(s.out), s.trace)
    case Payment =>
      if "pay_pass" !in cfg then Run(Raise(MissingKey("pay_pass")), h) else
      var p := MakePaymentRun(env, h, tab, cfg["pay_pass"]);
      if p.out.Raise? then Run(Raise(p.out.error), p.trace) else Run(Ok(Paid(p.out.value)), p.trace)
    case Leftover =>
      var l := LeftoverRun(env, h, tab);
      Run(Ok(Slots(l.out.value)), l.trace)
  }

  /** A method chain: each call runs on the history the previous one left,
      the first exception ends the chain, and the value is the last call's
      (`last` when the chain is empty). */
  function RunStages(env: Env, h: History, tab: Tab, cfg: Config, isNumber: string -> bool,
                     stages: seq<Stage>, last: Value): Run<Value>
    decreases |stages|
  {
    if stages == [] then Run(Ok(last), h)
    else
      var r := StageRun(env, h, tab, cfg, isNumber, stages[0]);
      if r.out.Raise? then r
      else RunStages(env, r.trace, tab, cfg, isNumber, stages[1..], r.out.value)
  }

  /** Running `a + b` is running `a`, then `b` from where `a` ended, unless
      `a` raised. */
  lemma {:induction false} StagesCompose(env: Env, h: History, tab: Tab, cfg: Config, isNumber: string -> bool,
                                          a: seq<Stage>, b: seq<Stage>, last: Value)
    ensures var r := RunStages(env, h, tab, cfg, isNumber, a, last);
      RunStages(env, h, tab, cfg, isNumber, a + b, last)
        == if r.out.Raise? then r else RunStages(env, r.trace, tab, cfg, isNumber, b, r.out.value)
    decreases |a|
  {
    if a == [] {
      assert a + b == b;
    } else {
      assert (a + b)[0] == a[0];
      assert (a + b)[1..] == a[1..] + b;
      var r := StageRun(env, h, tab, cfg, isNumber, a[0]);
      if r.out.Ok? {
        StagesCompose(env, r.trace, tab, cfg, isNumber, a[1..], b, r.out.value);
      }
    }
  }

  /** Fail-fast: once a prefix of the chain raises, the calls after it never
      run, so neither the outcome nor the history depends on them. */
  lemma FailFast(env: Env, h: History, tab: Tab, cfg: Config, isNumber: string -> bool,
                 a: seq<Stage>, b: seq<Stage>, last: Value)
    requires RunStages(env, h, tab, cfg, isNumber, a, last).out.Raise?
    ensures RunStages(env, h, tab, cfg, isNumber, a + b, last) == RunStages(env, h, tab, cfg, isNumber, a, last)
  {
    StagesCompose(env, h, tab, cfg, isNumber, a, b, last);
  }

  /** A chain that ends with `make_payment` and does not raise yields what
      `make_payment` returned. */
  lemma {:induction false} EndsInPayment(env: Env, h: History, tab: Tab, cfg: Config, isNumber: string -> bool,
                                          stages: seq<Stage>, last: Value)
    requires stages != [] && stages[|stages| - 1] == Payment
    ensures var r := RunStages(env, h, tab, cfg, isNumber, stages, last);
      r.out.Ok? ==> r.out.value.Paid?
    decreases |stages|
  {
    var r := StageRun(env, h, tab, cfg, isNumber, stages[0]);
    if |stages| > 1 && r.out.Ok? {
      assert stages[1..][|stages[1..]| - 1] == Payment;
      EndsInPayment(env, r.trace, tab, cfg, isNumber, stages[1..], r.out.value);
    }
  }

  /** The leftover chain is the shared prefix campus → venue → date followed by
      `leftover_timeslot` on the history that prefix left. */
  lemma LeftoverChain(env: Env, h: History, tab: Tab, cfg: Config, isNumber: string -> bool)
    ensures var p := RunStages(env, h, tab, cfg, isNumber, [Campus, Venue, Date], Page);
      var r := RunStages(env, h, tab, cfg, isNumber, LeftoverStages, Page);
      if p.out.Raise? then r == p
      else var l := LeftoverRun(env, p.trace, tab);
        r == Run(Ok(Slots(l.out.value)), l.trace)
  {
    assert LeftoverStages == [Campus, Venue, Date] + [Leftover];
    StagesCompose(env, h, tab, cfg, isNumber, [Campus, Venue, Date], [Leftover], Page);
  }

  /** Both scripts open with the same three calls. */
  lemma SharedPrefix(env: Env, h: History, tab: Tab, cfg: Config, isNumber: string -> bool)
    ensures var p := RunStages(env, h, tab, cfg, isNumber, [Campus, Venue, Date], Page);
      p.out.Raise? ==>
        RunStages(env, h, tab, cfg, isNumber, BookingStages, Page) == p
        && RunStages(env, h, tab, cfg, isNumber, LeftoverStages, Page) == p
  {
    assert BookingStages == [Campus, Venue, Date] + [TimeSlot, SpecificVenue, Submit, Payment];
    assert LeftoverStages == [Campus, Venue, Date] + [Leftover];
    var p := RunStages(env, h, tab, cfg, isNumber, [Campus, Venue, Date], Page);
    if p.out.Raise? {
      FailFast(env, h, tab, cfg, isNumber, [Campus, Venue, Date], [TimeSlot, SpecificVenue, Submit, Payment], Page);
      FailFast(env, h, tab, cfg, isNumber, [Campus, Venue, Date], [Leftover], Page);
    }
  }

  /** Python truthiness of the chain's value: an object and `True` are true,
      and so is a non-empty list; `None` and `[]` are false. */
  predicate Truthy(v: Value) {
    match v
    case Page => true
    case Paid(_) => true
    case Slots(s) => s.Some? && s.value != []
  }

  /** The log-in step inside the try block: `cfg['username']`, then
      `cfg['password']`, then `login`. */
  function LoginPhase(env: Env, h: History, tab: Tab, cfg: Config,
                      cookieFile: Option<CookieFile>, storageFile: Option<StorageFile>): LoginStep {
    if "username" !in cfg then LoginStep(Raise(MissingKey("username")), h, NotSaved)
    else if "password" !in cfg then LoginStep(Raise(MissingKey("password")), h, NotSaved)
    else LoginRun(env, h, tab, cookieFile, storageFile, cfg["username"], cfg["password"])
  }

  /** How a script's `main` ends: its return value (`None` when it falls off
      the end of the try block), the page history, the session it saved while
      logging in, and the slot list it wrote to the result file, if any. */
  datatype ScriptEnd = ScriptEnd(exit: Option<int>, trace: History, saved: Saved,
                                 written: Option<Option<seq<string>>>)

  /** scripts/main_script.py `main` on the main tab of a new page. */
  function BookingEnd(env: Env, h: History, cfg: Config, isNumber: string -> bool,
                      cookieFile: Option<CookieFile>, storageFile: Option<StorageFile>): ScriptEnd {
    var l := LoginPhase(env, h, MainTab, cfg, cookieFile, storageFile);
    if l.out.Raise? then ScriptEnd(Some(1), l.trace, l.saved, None) else
    var s := RunStages(env, l.trace, MainTab, cfg, isNumber, BookingStages, Page);
    if s.out.Raise? then ScriptEnd(Some(1), s.trace, l.saved, None)
    else if Truthy(s.out.value) then ScriptEnd(Some(0), s.trace, l.saved, None)
    else ScriptEnd(None, s.trace, l.saved, None)
  }

  /** scripts/leftover_script.py `main` on the main tab of a new page. */
  function LeftoverEnd(env: Env, h: History, cfg: Config, isNumber: string -> bool,
                       cookieFile: Option<CookieFile>, storageFile: Option<StorageFile>): ScriptEnd {
    var l := LoginPhase(env, h, MainTab, cfg, cookieFile, storageFile);
    if l.out.Raise? then ScriptEnd(Some(1), l.trace, l.saved, None) else
    var s := RunStages(env, l.trace, MainTab, cfg, isNumber, LeftoverStages, Page);
    if s.out.Raise? then ScriptEnd(Some(1), s.trace, l.saved, None)
    else ScriptEnd(Some(0), s.trace, l.saved, Some(if s.out.value.Slots? then s.out.value.slots else None))
  }

  /** The result file after a run: rewritten with the list when one was
      written, untouched otherwise. */
  function ResultFileAfter(written: Option<Option<seq<string>>>, before: Option<ResultFile>): Option<ResultFile> {
    if written.Some? then Some(ResultJson(written.value)) else before
  }

  /** The booking script returns 0 exactly when the log-in and every call of
      the chain went through, and 1 otherwise; the fall-through `None` is
      unreachable because `make_payment` only returns truthy values. It never
      writes a result file. */
  lemma BookingExit(env: Env, h: History, cfg: Config, isNumber: string -> bool,
                    cookieFile: Option<CookieFile>, storageFile: Option<StorageFile>)
    ensures var e := BookingEnd(env, h, cfg, isNumber, cookieFile, storageFile);
      var l := LoginPhase(env, h, MainTab, cfg, cookieFile, storageFile);
      && e.exit != None
      && (e.exit == Some(0) <==>
            l.out.Ok? && RunStages(env, l.trace, MainTab, cfg, isNumber, BookingStages, Page).out.Ok?)
      && (e.exit == Some(1) <==>
            l.out.Raise? || RunStages(env, l.trace, MainTab, cfg, isNumber, BookingStages, Page).out.Raise?)
      && e.written == None
  {
    var l := LoginPhase(env, h, MainTab, cfg, cookieFile, storageFile);
    if l.out.Ok? {
      EndsInPayment(env, l.trace, MainTab, cfg, isNumber, BookingStages, Page);
    }
  }

  /** The leftover script returns 0 exactly when it wrote the result file,
      and what it wrote is what `leftover_timeslot` read after the chain up to
      the date; on any exception it returns 1 and writes nothing. */
  lemma LeftoverExit(env: Env, h: History, cfg: Config, isNumber: string -> bool,
                     cookieFile: Option<CookieFile>, storageFile: Option<StorageFile>)
    ensures var e := LeftoverEnd(env, h, cfg, isNumber, cookieFile, storageFile);
      var l := LoginPhase(env, h, MainTab, cfg, cookieFile, storageFile);
      var p := RunStages(env, l.trace, MainTab, cfg, isNumber, [Campus, Venue, Date], Page);
      && (e.exit == Some(0) || e.exit == Some(1))
      && (e.exit == Some(0) <==> e.written.Some?)
      && (e.exit == Some(1) <==> l.out.Raise? || p.out.Raise?)
      && (e.written.Some? ==>
            e.written.value == LeftoverOf(env.listing(p.trace, MainTab, AvailableSlots)))
  {
    var l := LoginPhase(env, h, MainTab, cfg, cookieFile, storageFile);
    if l.out.Ok? {
      LeftoverChain(env, l.trace, MainTab, cfg, isNumber);
    }
  }

  /** The hand-off to the GUI: whatever list shape the query wrote, the
      result box shows "no slots" exactly when no time slot was visible, and
      otherwise a header followed by one numbered line per visible slot, in
      page order, with its stripped text. */
  lemma QueryDisplay(items: seq<Item>)
    ensures var lines := Gui.DisplayLines(Some(ResultJson(LeftoverOf(items))));
      var texts := VisibleTexts(items);
      && ((lines == [Gui.NoSlots]) <==> forall i :: 0 <= i < |items| ==> !items[i].shown)
      && ((exists i :: 0 <= i < |items| && items[i].shown) ==>
            |lines| == |texts| + 1 && lines[0] == Gui.SlotsHeader
            && forall k :: 0 <= k < |texts| ==> Gui.ParseLine(lines[k + 1]) == Some((k + 1, texts[k])))
  {
    LeftoverOfContract(items);
    Gui.DisplayContract(Some(ResultJson(LeftoverOf(items))));
    var lines := Gui.DisplayLines(Some(ResultJson(LeftoverOf(items))));
    if LeftoverOf(items).Some? {
      assert lines[0] == Gui.SlotsHeader;
      assert lines != [Gui.NoSlots];
    }
  }

  /** One chain call, arguments looked up first. */
  method Perform(ticket: TicketPage, cfg: Config, isNumber: string -> bool, stage: Stage) returns (r: Outcome<Value>)
    modifies ticket`currentVenueType, ticket.browser`trace
    ensures Run(r, ticket.browser.trace)
      == StageRun(ticket.browser.env, old(ticket.browser.trace), ticket.page, cfg, isNumber, stage)
  {
    match stage
    case Campus =>
      var c := ticket.SelectCampus();
      r := Chain(c);
    case Venue =>
      if "venue" !in cfg { return Raise(MissingKey("venue")); }
      var v := ticket.SelectVenue(cfg["venue"]);
      r := Chain(v);
    case Date =>
      if "date" !in cfg { return Raise(MissingKey("date")); }
      if "venue" !in cfg { return Raise(MissingKey("venue")); }
      if "wait_timeout_seconds" !in cfg { return Raise(MissingKey("wait_timeout_seconds")); }
      if !isNumber(cfg["wait_timeout_seconds"]) { return Raise(NotANumber(cfg["wait_timeout_seconds"])); }
      var d := ticket.SelectDate(cfg["date"], cfg["venue"], MaxAttempts);
      r := Chain(d);
    case TimeSlot =>
      if "time_slot" !in cfg { return Raise(MissingKey("time_slot")); }
      var t := ticket.SelectTimeSlot(cfg["time_slot"]);
      r := Chain(t);
    case SpecificVenue =>
      if "venue" !in cfg { return Raise(MissingKey("venue")); }
      var court := if "court" in cfg then Some(cfg["court"]) else None;
      var s := ticket.SelectSpecificVenue(cfg["venue"], court);
      r := Chain(s);
    case Submit =>
      var s := ticket.SubmitBooking();
      r := Chain(s);
    case Payment =>
      if "pay_pass" !in cfg { return Raise(MissingKey("pay_pass")); }
      var p := ticket.MakePayment(cfg["pay_pass"]);
      r := if p.Raise? then Raise(p.error) else Ok(Paid(p.value));
    case Leftover =>
      var slots := ticket.LeftoverTimeslot();
      r := Ok(Slots(slots));
  }

  /** The log-in inside the try block. */
  method LogIn(browser: Browser, dir: ConfigDir, cfg: Config) returns (r: Outcome<()>)
    modifies browser`trace, dir`cookieFile, dir`storageFile
    ensures var l := LoginPhase(browser.env, old(browser.trace), MainTab, cfg, old(dir.cookieFile), old(dir.storageFile));
      r == l.out && browser.trace == l.trace
      && dir.cookieFile == CookieFileAfter(l.saved, old(dir.cookieFile))
      && dir.storageFile == StorageFileAfter(l.saved, old(dir.storageFile))
  {
    if "username" !in cfg { return Raise(MissingKey("username")); }
    if "password" !in cfg { return Raise(MissingKey("password")); }
    var loginPage := new LoginPage(browser, MainTab, dir);
    r := loginPage.Login(cfg["username"], cfg["password"]);
  }

  /** The body of the booking script's try block: log in, then the booking
      chain, one call after the other, stopping at the first exception. */
  method Book(browser: Browser, dir: ConfigDir, cfg: Config, isNumber: string -> bool) returns (exit: Option<int>)
    modifies browser`trace, dir`cookieFile, dir`storageFile
    ensures var e := BookingEnd(browser.env, old(browser.trace), cfg, isNumber, old(dir.cookieFile), old(dir.storageFile));
      exit == e.exit && browser.trace == e.trace
      && dir.cookieFile == CookieFileAfter(e.saved, old(dir.cookieFile))
      && dir.storageFile == StorageFileAfter(e.saved, old(dir.storageFile))
  {
    ghost var env := browser.env;
    var login := LogIn(browser, dir, cfg);
    if login.Raise? { return Some(1); }
    ghost var h := browser.trace;
    var ticket := new TicketPage(browser, MainTab);
    ghost var rest := BookingStages;
    var r := Perform(ticket, cfg, isNumber, Campus);
    if r.Raise? { return Some(1); }
    assert RunStages(env, h, MainTab, cfg, isNumber, BookingStages, Page)
      == RunStages(env, browser.trace, MainTab, cfg, isNumber, rest[1..], r.value);
    rest := rest[1..];
    r := Perform(ticket, cfg, isNumber, Venue);
    if r.Raise? { return Some(1); }
    assert RunStages(env, h, MainTab, cfg, isNumber, BookingStages, Page)
      == RunStages(env, browser.trace, MainTab, cfg, isNumber, rest[1..], r.value);
    rest := rest[1..];
    r := Perform(ticket, cfg, isNumber, Date);
    if r.Raise? { return Some(1); }
    assert RunStages(env, h, MainTab, cfg, isNumber, BookingStages, Page)
      == RunStages(env, browser.trace, MainTab, cfg, isNumber, rest[1..], r.value);
    rest := rest[1..];
    r := Perform(ticket, cfg, isNumber, TimeSlot);
    if r.Raise? { return Some(1); }
    assert RunStages(env, h, MainTab, cfg, isNumber, BookingStages, Page)
      == RunStages(env, browser.trace, MainTab, cfg, isNumber, rest[1..], r.value);
    rest := rest[1..];
    r := Perform(ticket, cfg, isNumber, SpecificVenue);
    if r.Raise? { return Some(1); }
    assert RunStages(env, h, MainTab, cfg, isNumber, BookingStages, Page)
      == RunStages(env, browser.trace, MainTab, cfg, isNumber, rest[1..], r.value);
    rest := rest[1..];
    r := Perform(ticket, cfg, isNumber, Submit);
    if r.Raise? { return Some(1); }
    assert RunStages(env, h, MainTab, cfg, isNumber, BookingStages, Page)
      == RunStages(env, browser.trace, MainTab, cfg, isNumber, rest[1..], r.value);
    rest := rest[1..];
    r := Perform(ticket, cfg, isNumber, Payment);
    if r.Raise? { return Some(1); }
    assert RunStages(env, h, MainTab, cfg, isNumber, BookingStages, Page)
      == RunStages(env, browser.trace, MainTab, cfg, isNumber, rest[1..], r.value);
    if Truthy(r.value) { return Some(0); }
    exit := None;
  }

  /** scripts/main_script.py `main`, given the launched browser: the try
      block, then `browser.close()` in the finally clause. */
  method BookingMain(browser: Browser, dir: ConfigDir, cfg: Config, isNumber: string -> bool) returns (exit: Option<int>)
    modifies browser`trace, browser`closed, dir`cookieFile, dir`storageFile
    ensures browser.closed
    ensures var e := BookingEnd(browser.env, old(browser.trace), cfg, isNumber, old(dir.cookieFile), old(dir.storageFile));
      exit == e.exit && browser.trace == e.trace
      && dir.cookieFile == CookieFileAfter(e.saved, old(dir.cookieFile))
      && dir.storageFile == StorageFileAfter(e.saved, old(dir.storageFile))
  {
    exit := Book(browser, dir, cfg, isNumber);
    browser.Close();
  }

  /** The `leftover_timeslot` call as a chain call. */
  lemma LeftoverStep(env: Env, h: History, tab: Tab, cfg: Config, isNumber: string -> bool,
                     slots: Option<seq<string>>, t: History)
    requires Run(Ok(slots), t) == LeftoverRun(env, h, tab)
    ensures StageRun(env, h, tab, cfg, isNumber, Leftover) == Run(Ok(Slots(slots)), t)
  {
  }

  /** The body of the leftover script's try block: log in, the chain up to
      the date, `leftover_timeslot`, then the result file. */
  method Query(browser: Browser, dir: ConfigDir, cfg: Config, isNumber: string -> bool) returns (exit: int)
    modifies browser`trace, dir`cookieFile, dir`storageFile, dir`resultFile
    ensures var e := LeftoverEnd(browser.env, old(browser.trace), cfg, isNumber, old(dir.cookieFile), old(dir.storageFile));
      Some(exit) == e.exit && browser.trace == e.trace
      && dir.cookieFile == CookieFileAfter(e.saved, old(dir.cookieFile))
      && dir.storageFile == StorageFileAfter(e.saved, old(dir.storageFile))
      && dir.resultFile == ResultFileAfter(e.written, old(dir.resultFile))
  {
    ghost var env := browser.env;
    var login := LogIn(browser, dir, cfg);
    if login.Raise? { return 1; }
    ghost var h := browser.trace;
    var ticket := new TicketPage(browser, MainTab);
    ghost var rest := LeftoverStages;
    var r := Perform(ticket, cfg, isNumber, Campus);
    if r.Raise? { return 1; }
    assert RunStages(env, h, MainTab, cfg, isNumber, LeftoverStages, Page)
      == RunStages(env, browser.trace, MainTab, cfg, isNumber, rest[1..], r.value);
    rest := rest[1..];
    r := Perform(ticket, cfg, isNumber, Venue);
    if r.Raise? { return 1; }
    assert RunStages(env, h, MainTab, cfg, isNumber, LeftoverStages, Page)
      == RunStages(env, browser.trace, MainTab, cfg, isNumber, rest[1..], r.value);
    rest := rest[1..];
    r := Perform(ticket, cfg, isNumber, Date);
    if r.Raise? { return 1; }
    assert RunStages(env, h, MainTab, cfg, isNumber, LeftoverStages, Page)
      == RunStages(env, browser.trace, MainTab, cfg, isNumber, rest[1..], r.value);
    rest := rest[1..];
    ghost var before := browser.trace;
    var slots := ticket.LeftoverTimeslot();
    LeftoverStep(env, before, MainTab, cfg, isNumber, slots, browser.trace);
    assert RunStages(env, h, MainTab, cfg, isNumber, LeftoverStages, Page)
      == RunStages(env, browser.trace, MainTab, cfg, isNumber, rest[1..], Slots(slots));
    dir.WriteResult(slots);
    exit := 0;
  }

  /** scripts/leftover_script.py `main`, given the launched browser: the try
      block, then `browser.close()` in the finally clause. */
  method LeftoverMain(browser: Browser, dir: ConfigDir, cfg: Config, isNumber: string -> bool) returns (exit: int)
    modifies browser`trace, browser`closed, dir`cookieFile, dir`storageFile, dir`resultFile
    ensures browser.closed
    ensures var e := LeftoverEnd(browser.env, old(browser.trace), cfg, isNumber, old(dir.cookieFile), old(dir.storageFile));
      Some(exit) == e.exit && browser.trace == e.trace
      && dir.cookieFile == CookieFileAfter(e.saved, old(dir.cookieFile))
      && dir.storageFile == StorageFileAfter(e.saved, old(dir.storageFile))
      && dir.resultFile == ResultFileAfter(e.written, old(dir.resultFile))
  {
    exit := Query(browser, dir, cfg, isNumber);
    browser.Close();
  }
}
