/** The sports-fund payment flow of pages/pay_page.py: open the fund payment
    in a popup, confirm the next step there, and type the payment password on
    the popup's virtual keypad one key at a time. */
module Pay {
  import opened Web

  /** `pay_with_sports_fund`: the click that opens the payment popup. */
  function PayWithFundRun(env: Env, h: History, tab: Tab): Run<Tab> {
    OpenPopupRun(env, h, tab, FundPayButton)
  }

  /** `click_next_step`: wait for the next-step button, then click it. */
  function NextStepRun(env: Env, h: History, tab: Tab): Run<()> {
    var w := WaitRun(env, h, tab, NextStepButton);
    if w.out.Raise? then w else ClickRun(env, w.trace, tab, NextStepButton)
  }

  /** The keypad loop of `enter_password`: one key click per character, left to right. */
  function KeysRun(env: Env, h: History, tab: Tab, digits: string): Run<()>
    decreases |digits|
  {
    if digits == [] then Run(Ok(()), h)
    else
      var k := ClickRun(env, h, tab, Key(digits[0]));
      if k.out.Raise? then k else KeysRun(env, k.trace, tab, digits[1..])
  }

  /** `enter_password`: focus the password field, type the keys, confirm. */
  function EnterPasswordRun(env: Env, h: History, tab: Tab, password: string): Run<()> {
    var w := WaitRun(env, h, tab, PayPasswordField);
    if w.out.Raise? then w else
    var f := ClickRun(env, w.trace, tab, PayPasswordField);
    if f.out.Raise? then f else
    var k := KeysRun(env, f.trace, tab, password);
    if k.out.Raise? then k else ClickRun(env, k.trace, tab, KeypadConfirm)
  }

  /** The chain `pay_with_sports_fund().click_next_step().enter_password(pw)`;
      on success it yields the popup tab the later steps ran on. */
  function FundPaymentRun(env: Env, h: History, tab: Tab, password: string): Run<Tab> {
    var p := PayWithFundRun(env, h, tab);
    if p.out.Raise? then p else
    var popup := p.out.value;
    var n := NextStepRun(env, p.trace, popup);
    if n.out.Raise? then Run(Raise(n.out.error), n.trace) else
    var e := EnterPasswordRun(env, n.trace, popup, password);
    if e.out.Raise? then Run(Raise(e.out.error), e.trace) else Run(Ok(popup), e.trace)
  }

  /** The key clicks that spell `digits` on the keypad of `tab`. */
  function KeyClicks(tab: Tab, digits: string): (t: History)
    ensures |t| == |digits|
  {
    if digits == [] then [] else [Clicked(tab, Key(digits[0]))] + KeyClicks(tab, digits[1..])
  }

  /** The i-th key click is the click on the i-th character. */
  lemma {:induction false} KeyClicksAt(tab: Tab, digits: string, i: nat)
    requires i < |digits|
    ensures KeyClicks(tab, digits)[i] == Clicked(tab, Key(digits[i]))
    decreases i
  {
    if i > 0 {
      KeyClicksAt(tab, digits[1..], i - 1);
    }
  }

  /** The tab an event happened on, if it happened on one. */
  function TabOf(e: Event): Option<Tab> {
    match e
    case Clicked(t, _) => Some(t)
    case Missed(t, _) => Some(t)
    case Waited(t, _, _) => Some(t)
    case Probed(t, _, _) => Some(t)
    case Filled(t, _, _) => Some(t)
    case Checked(t, _) => Some(t)
    case Navigated(t) => Some(t)
    case Reloaded(t) => Some(t)
    case Scanned(t, _, _) => Some(t)
    case Opened(t) => Some(t)
    case _ => None
  }

  /** Every event of `t` from position `from` on happened on `tab`. */
  ghost predicate AllOnTab(t: History, from: nat, tab: Tab) {
    forall i :: from <= i < |t| ==> TabOf(t[i]) == Some(tab)
  }

  /** When the keypad loop succeeds it has clicked the keys of `digits` in order and nothing else. */
  lemma {:induction false} KeysRunSucceeds(env: Env, h: History, tab: Tab, digits: string)
    ensures var r := KeysRun(env, h, tab, digits);
      r.out.Ok? ==> r.trace == h + KeyClicks(tab, digits)
    decreases |digits|
  {
    if digits != [] {
      var k := ClickRun(env, h, tab, Key(digits[0]));
      if k.out.Ok? {
        KeysRunSucceeds(env, k.trace, tab, digits[1..]);
        assert h + KeyClicks(tab, digits) == k.trace + KeyClicks(tab, digits[1..]);
      }
    }
  }

  /** When a key never shows up, the keypad loop stops right there: it has clicked the
      keys before it in order, and fails with a time-out naming that key. */
  lemma {:induction false} KeysRunFails(env: Env, h: History, tab: Tab, digits: string) returns (j: nat)
    requires KeysRun(env, h, tab, digits).out.Raise?
    ensures j < |digits|
    ensures var r := KeysRun(env, h, tab, digits);
      r.out.error == Timeout(Key(digits[j]))
      && r.trace == h + KeyClicks(tab, digits[..j]) + [Missed(tab, Key(digits[j]))]
    decreases |digits|
  {
    var k := ClickRun(env, h, tab, Key(digits[0]));
    if k.out.Raise? {
      j := 0;
      assert KeyClicks(tab, digits[..0]) == [];
    } else {
      var rest := digits[1..];
      var i := KeysRunFails(env, k.trace, tab, rest);
      j := i + 1;
      var c0 := Clicked(tab, Key(digits[0]));
      var miss := Missed(tab, Key(rest[i]));
      assert digits[..j][1..] == rest[..i];
      assert KeyClicks(tab, digits[..j]) == [c0] + KeyClicks(tab, rest[..i]);
      assert k.trace == h + [c0];
      calc {
        KeysRun(env, h, tab, digits).trace;
        KeysRun(env, k.trace, tab, rest).trace;
        k.trace + KeyClicks(tab, rest[..i]) + [miss];
        h + ([c0] + KeyClicks(tab, rest[..i])) + [miss];
        h + KeyClicks(tab, digits[..j]) + [miss];
      }
    }
  }

  /** On success `enter_password` waits for and clicks the password field, clicks
      `.key-c` for each character c of the password in order, then clicks the
      confirm key exactly once; an empty password gives only field and confirm. */
  lemma EnterPasswordSucceeds(env: Env, h: History, tab: Tab, password: string)
    ensures var r := EnterPasswordRun(env, h, tab, password);
      r.out.Ok? ==> (r.trace == h + [Waited(tab, PayPasswordField, true), Clicked(tab, PayPasswordField)]
        + KeyClicks(tab, password) + [Clicked(tab, KeypadConfirm)])
    ensures var r := EnterPasswordRun(env, h, tab, password);
      r.out.Ok? && password == "" ==> r.trace == h + [Waited(tab, PayPasswordField, true),
        Clicked(tab, PayPasswordField), Clicked(tab, KeypadConfirm)]
  {
    var w := WaitRun(env, h, tab, PayPasswordField);
    if w.out.Ok? {
      var f := ClickRun(env, w.trace, tab, PayPasswordField);
      if f.out.Ok? {
        KeysRunSucceeds(env, f.trace, tab, password);
      }
    }
  }

  /** Whatever happens, `enter_password` first waits for the password field, and
      no key is clicked before the field itself has been clicked. */
  lemma FieldBeforeKeys(env: Env, h: History, tab: Tab, password: string)
    ensures var r := EnterPasswordRun(env, h, tab, password);
      |r.trace| > |h| && r.trace[..|h|] == h && r.trace[|h|].Waited? && r.trace[|h|].target == PayPasswordField
    ensures var r := EnterPasswordRun(env, h, tab, password);
      forall i :: |h| <= i < |r.trace| && r.trace[i].Clicked? && r.trace[i].target.Key? ==>
        |h| + 2 <= i && r.trace[|h| + 1] == Clicked(tab, PayPasswordField)
  {
    var r := EnterPasswordRun(env, h, tab, password);
    var w := WaitRun(env, h, tab, PayPasswordField);
    if w.out.Ok? {
      var f := ClickRun(env, w.trace, tab, PayPasswordField);
      if f.out.Ok? {
        var k := KeysRun(env, f.trace, tab, password);
        if k.out.Ok? {
          KeysRunSucceeds(env, f.trace, tab, password);
        } else {
          var j := KeysRunFails(env, f.trace, tab, password);
        }
        assert f.trace == h + [Waited(tab, PayPasswordField, true), Clicked(tab, PayPasswordField)];
        assert r.trace[..|f.trace|] == f.trace;
      }
    }
  }

  /** `pay_with_sports_fund` hands the rest of the flow to the popup: the popup is
      a different tab from the one the order was on, and every step after the
      popup opened (next step, password, keys, confirm) happened on the popup. */
  lemma {:induction false} LaterStepsOnPopup(env: Env, h: History, tab: Tab, password: string)
    ensures var r := FundPaymentRun(env, h, tab, password);
      r.out.Ok? ==> (r.out.value != tab && |r.trace| >= |h| + 2
        && r.trace[..|h| + 2] == h + [Clicked(tab, FundPayButton), Opened(r.out.value)]
        && AllOnTab(r.trace, |h| + 2, r.out.value))
  {
    var p := PayWithFundRun(env, h, tab);
    if p.out.Ok? {
      var popup := p.out.value;
      assert popup == Popup(tab, |h|);
      var n := NextStepRun(env, p.trace, popup);
      if n.out.Ok? {
        var e := EnterPasswordRun(env, n.trace, popup, password);
        if e.out.Ok? {
          EnterPasswordSucceeds(env, n.trace, popup, password);
          var keys := KeyClicks(popup, password);
          assert n.trace == p.trace + [Waited(popup, NextStepButton, true), Clicked(popup, NextStepButton)];
          assert e.trace == p.trace + [Waited(popup, NextStepButton, true), Clicked(popup, NextStepButton)]
            + [Waited(popup, PayPasswordField, true), Clicked(popup, PayPasswordField)]
            + keys + [Clicked(popup, KeypadConfirm)];
          forall i | |h| + 2 <= i < |e.trace|
            ensures TabOf(e.trace[i]) == Some(popup)
          {
            var j := i - |h| - 2;
            if 4 <= j < 4 + |keys| {
              assert e.trace[i] == keys[j - 4];
              KeyClicksAt(popup, password, j - 4);
            }
          }
        }
      }
    }
  }

  /** A successful fund payment, event by event: the fund button opens the popup,
      and on the popup the next step, the password field, the keys of the password
      in order and the confirm key follow, each once. */
  lemma FundPaymentSucceeds(env: Env, h: History, tab: Tab, password: string)
    ensures var r := FundPaymentRun(env, h, tab, password);
      var p := Popup(tab, |h|);
      r.out.Ok? ==> (r.out.value == p
        && r.trace == h + [Clicked(tab, FundPayButton), Opened(p),
             Waited(p, NextStepButton, true), Clicked(p, NextStepButton),
             Waited(p, PayPasswordField, true), Clicked(p, PayPasswordField)]
           + KeyClicks(p, password) + [Clicked(p, KeypadConfirm)])
  {
    var p := PayWithFundRun(env, h, tab);
    if p.out.Ok? {
      var n := NextStepRun(env, p.trace, p.out.value);
      if n.out.Ok? {
        EnterPasswordSucceeds(env, n.trace, p.out.value, password);
      }
    }
  }

  /** The payment popup of pages/pay_page.py: `page` is the tab it acts on,
      replaced by the popup once the fund payment opens it. */
  class PayPage {
    const browser: Browser
    var page: Tab

    constructor (browser: Browser, page: Tab)
      ensures this.browser == browser && this.page == page
    {
      this.browser := browser;
      this.page := page;
    }

    method PayWithSportsFund() returns (r: Outcome<()>)
      modifies this`page, browser`trace
      ensures var run := PayWithFundRun(browser.env, old(browser.trace), old(page));
        browser.trace == run.trace
        && (run.out.Ok? ==> r == Ok(()) && page == run.out.value)
        && (run.out.Raise? ==> r == Raise(run.out.error) && page == old(page))
    {
      var popup := browser.ClickForPopup(page, FundPayButton);
      if popup.Raise? {
        return Raise(popup.error);
      }
      page := popup.value;
      r := Ok(());
    }

    method ClickNextStep() returns (r: Outcome<()>)
      modifies browser`trace
      ensures Run(r, browser.trace) == NextStepRun(browser.env, old(browser.trace), page)
    {
      r := browser.WaitFor(page, NextStepButton);
      if r.Ok? {
        r := browser.Click(page, NextStepButton);
      }
    }

    method EnterPassword(password: string) returns (r: Outcome<()>)
      modifies browser`trace
      ensures Run(r, browser.trace) == EnterPasswordRun(browser.env, old(browser.trace), page, password)
    {
      r := browser.WaitFor(page, PayPasswordField);
      if r.Raise? { return; }
      r := browser.Click(page, PayPasswordField);
      if r.Raise? { return; }
      ghost var typed := browser.trace;
      var i := 0;
      while i < |password|
        invariant 0 <= i <= |password|
        invariant KeysRun(browser.env, typed, page, password)
          == KeysRun(browser.env, browser.trace, page, password[i..])
      {
        assert password[i..][1..] == password[i + 1..];
        r := browser.Click(page, Key(password[i]));
        if r.Raise? { return; }
        i := i + 1;
      }
      assert password[i..] == [];
      r := browser.Click(page, KeypadConfirm);
    }
  }
}
