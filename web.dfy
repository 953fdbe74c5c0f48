/** The live web page, seen by the bot as an abstract environment.

    Everything the bot READS from the browser (is an element visible, which
    entries a list shows, the cookies and the local storage of the browser
    context, a random draw, today's date) is answered by an oracle `Env` as a
    function of everything that happened before: the history of events. Every
    thing the bot DOES (a click, a fill, a reload, a wait and what it saw) is
    appended to that history, the trace kept by a `Browser`. Selectors are
    opaque: each element the bot addresses is one constructor of `Element`. */
module Web {

  datatype Option<+T> = None | Some(value: T)

  /** A browser tab: the one the scripts open, or a popup opened from another tab. */
  datatype Tab = MainTab | Popup(opener: Tab, openedAt: nat)

  /** The element lists the bot enumerates. */
  datatype Query =
    | AvailableSlots      // time-slot cells showing "可预约"
    | AvailableBadminton  // badminton court labels showing "可预约"
    | PayLabels           // elements whose text contains ")支付"

  datatype Element =
    | CampusButton              // the 粤海校区 button, also the logged-in marker
    | VenueImage(imageId: string)
    | DateCell(day: int)        // the grid label of a calendar day, written YYYY-MM-DD
    | SlotCell(slot: string)   // a time-slot cell such as "20:00-21:00"
    | GymEntry                  // 一楼健身房(
    | CourtList                 // any basketball court cell (号场()
    | Court(name: string)       // one named basketball court
    | Entry(query: Query, index: nat)  // the index-th element a query listed
    | SubmitButton              // 提交预约
    | UnpaidTab                 // 未支付
    | PayButton                 // the first button reading ")支付"
    | BalancePayButton          // (剩余金额)支付
    | FundPayButton             // (体育经费)支付
    | NextStepButton            // 下一步
    | PayPasswordField          // input#password on the payment popup
    | Key(digit: char)          // .key-<digit> on the virtual keypad
    | KeypadConfirm             // .next-button-max
    | UsernameInput
    | PasswordInput
    | RememberMe
    | LoginSubmit

  /** One listed element: its text content and whether it is visible. */
  datatype Item = Item(text: string, shown: bool)

  datatype Cookie = Cookie(name: string, value: string, domain: string, path: string, expires: int)

  /** A local-storage snapshot: the entries of a flat JSON object, in file order. */
  type Snapshot = seq<(string, string)>

  datatype Event =
    | Clicked(tab: Tab, target: Element)
    | Missed(tab: Tab, target: Element)        // an action whose element never became actionable
    | Waited(tab: Tab, target: Element, seen: bool)
    | Probed(tab: Tab, target: Element, seen: bool)  // an immediate visibility check
    | Filled(tab: Tab, target: Element, text: string)
    | Checked(tab: Tab, target: Element)
    | Navigated(tab: Tab)
    | Reloaded(tab: Tab)
    | Scanned(tab: Tab, query: Query, items: seq<Item>)
    | Opened(tab: Tab)
    | CookiesAdded(cookies: seq<Cookie>)
    | ItemSet(key: string, value: string)

  type History = seq<Event>

  /** The environment's answers, each a function of the history so far. */
  datatype Env = Env(
    today: int,
    visible: (History, Tab, Element) -> bool,
    listing: (History, Tab, Query) -> seq<Item>,
    draw: History -> nat,
    cookies: History -> seq<Cookie>,
    storage: History -> Snapshot)

  /** The exceptions the core can raise. */
  datatype Error =
    | Timeout(target: Element)          // playwright's TimeoutError
    | AssertionFailed(target: Element)  // a failed `expect(...).to_be_visible()`
    | UnsupportedVenue(code: string)    // ValueError from select_venue
    | DateNotFound(day: int, attempts: int)  // RuntimeError from select_date
    | NoGymVenue                        // RuntimeError("no gym venue available")
    | NoBadmintonVenue                  // RuntimeError("无体育场馆了")
    | MissingKey(key: string)           // KeyError on the configuration record
    | NotANumber(text: string)          // ValueError from float(text)

  datatype Outcome<+T> = Ok(value: T) | Raise(error: Error)

  /** What a step did: how it ended and the history after it. */
  datatype Run<+T> = Run(out: Outcome<T>, trace: History)

  /** How often an event occurs in a history. */
  function Occurrences(t: History, e: Event): nat {
    multiset(t)[e]
  }

  // ----- the primitive page operations -----

  /** `page.click(e)`: waits for `e` to become actionable, then clicks it. */
  function ClickRun(env: Env, h: History, tab: Tab, e: Element): Run<()> {
    if env.visible(h, tab, e) then Run(Ok(()), h + [Clicked(tab, e)])
    else Run(Raise(Timeout(e)), h + [Missed(tab, e)])
  }

  /** `wait_for_selector(e)` / `locator(e).wait_for(state='visible')`. */
  function WaitRun(env: Env, h: History, tab: Tab, e: Element): Run<()> {
    var seen := env.visible(h, tab, e);
    Run(if seen then Ok(()) else Raise(Timeout(e)), h + [Waited(tab, e, seen)])
  }

  /** `expect(e).to_be_visible()`: like a wait, but fails with an assertion error. */
  function ExpectRun(env: Env, h: History, tab: Tab, e: Element): Run<()> {
    var seen := env.visible(h, tab, e);
    Run(if seen then Ok(()) else Raise(AssertionFailed(e)), h + [Waited(tab, e, seen)])
  }

  /** `locator(e).is_visible()`: answers at once and never raises. */
  function ProbeRun(env: Env, h: History, tab: Tab, e: Element): Run<bool> {
    var seen := env.visible(h, tab, e);
    Run(Ok(seen), h + [Probed(tab, e, seen)])
  }

  /** `locator(e).fill(text)`. */
  function FillRun(env: Env, h: History, tab: Tab, e: Element, text: string): Run<()> {
    if env.visible(h, tab, e) then Run(Ok(()), h + [Filled(tab, e, text)])
    else Run(Raise(Timeout(e)), h + [Missed(tab, e)])
  }

  /** `locator(e).check()`. */
  function CheckRun(env: Env, h: History, tab: Tab, e: Element): Run<()> {
    if env.visible(h, tab, e) then Run(Ok(()), h + [Checked(tab, e)])
    else Run(Raise(Timeout(e)), h + [Missed(tab, e)])
  }

  /** `locator(q).all()` with each element's visibility and text. */
  function ScanRun(env: Env, h: History, tab: Tab, q: Query): Run<seq<Item>> {
    var items := env.listing(h, tab, q);
    Run(Ok(items), h + [Scanned(tab, q, items)])
  }

  /** Clicking `e` inside `expect_popup()`: the click opens a new tab. */
  function OpenPopupRun(env: Env, h: History, tab: Tab, e: Element): Run<Tab> {
    if env.visible(h, tab, e) then
      var popup := Popup(tab, |h|);
      Run(Ok(popup), h + [Clicked(tab, e), Opened(popup)])
    else Run(Raise(Timeout(e)), h + [Missed(tab, e)])
  }

  /** The browser: the environment it answers from, the trace of what was done,
      and whether it has been closed. */
  class Browser {
    const env: Env
    var trace: History
    var closed: bool

    constructor (env: Env)
      ensures this.env == env && trace == [] && !closed
    {
      this.env := env;
      trace := [];
      closed := false;
    }

    method Click(tab: Tab, e: Element) returns (r: Outcome<()>)
      modifies this`trace
      ensures Run(r, trace) == ClickRun(env, old(trace), tab, e)
    {
      var run := ClickRun(env, trace, tab, e);
      r, trace := run.out, run.trace;
    }

    method WaitFor(tab: Tab, e: Element) returns (r: Outcome<()>)
      modifies this`trace
      ensures Run(r, trace) == WaitRun(env, old(trace), tab, e)
    {
      var run := WaitRun(env, trace, tab, e);
      r, trace := run.out, run.trace;
    }

    method Expect(tab: Tab, e: Element) returns (r: Outcome<()>)
      modifies this`trace
      ensures Run(r, trace) == ExpectRun(env, old(trace), tab, e)
    {
      var run := ExpectRun(env, trace, tab, e);
      r, trace := run.out, run.trace;
    }

    method IsVisible(tab: Tab, e: Element) returns (seen: bool)
      modifies this`trace
      ensures Run(Ok(seen), trace) == ProbeRun(env, old(trace), tab, e)
    {
      seen := env.visible(trace, tab, e);
      trace := trace + [Probed(tab, e, seen)];
    }

    method Fill(tab: Tab, e: Element, text: string) returns (r: Outcome<()>)
      modifies this`trace
      ensures Run(r, trace) == FillRun(env, old(trace), tab, e, text)
    {
      var run := FillRun(env, trace, tab, e, text);
      r, trace := run.out, run.trace;
    }

    method Check(tab: Tab, e: Element) returns (r: Outcome<()>)
      modifies this`trace
      ensures Run(r, trace) == CheckRun(env, old(trace), tab, e)
    {
      var run := CheckRun(env, trace, tab, e);
      r, trace := run.out, run.trace;
    }

    method All(tab: Tab, q: Query) returns (items: seq<Item>)
      modifies this`trace
      ensures Run(Ok(items), trace) == ScanRun(env, old(trace), tab, q)
    {
      items := env.listing(trace, tab, q);
      trace := trace + [Scanned(tab, q, items)];
    }

    method ClickForPopup(tab: Tab, e: Element) returns (r: Outcome<Tab>)
      modifies this`trace
      ensures Run(r, trace) == OpenPopupRun(env, old(trace), tab, e)
    {
      var run := OpenPopupRun(env, trace, tab, e);
      r, trace := run.out, run.trace;
    }

    method Goto(tab: Tab)
      modifies this`trace
      ensures trace == old(trace) + [Navigated(tab)]
    {
      trace := trace + [Navigated(tab)];
    }

    method Reload(tab: Tab)
      modifies this`trace
      ensures trace == old(trace) + [Reloaded(tab)]
    {
      trace := trace + [Reloaded(tab)];
    }

    /** `context.add_cookies(cookies)`. */
    method AddCookies(cookies: seq<Cookie>)
      modifies this`trace
      ensures trace == old(trace) + [CookiesAdded(cookies)]
    {
      trace := trace + [CookiesAdded(cookies)];
    }

    /** `localStorage.setItem(key, value)`. */
    method SetItem(key: string, value: string)
      modifies this`trace
      ensures trace == old(trace) + [ItemSet(key, value)]
    {
      trace := trace + [ItemSet(key, value)];
    }

    method Close()
      modifies this`closed
      ensures closed
    {
      closed := true;
    }
  }
}
