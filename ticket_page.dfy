/** The booking page of pages/ticket_page.py: campus and venue selection, the
    date-polling retry loop, time-slot and specific-court selection, the
    read-only query of bookable time slots, submission and the payment branch. */
module Ticket {
  import opened Web
  import Text
  import Pay

  const GymImage := "6cf6b63b970a4f4b87193d799d8092c7"
  const BadmintonImage := "317a6df934914473b49996840b305987"
  const BasketballImage := "eaaf3fd0bf624a328966f987fcd0ac52"
  const OutdoorCourt := "天台篮球4号场"
  const IndoorCourt := "东馆篮球3号场"

  /** `venue_images.get(code)`: A is the gym, B badminton, C basketball. Every
      image id is non-empty, so `if not image_id` rejects exactly the unknown codes. */
  function ImageId(code: string): (r: Option<string>)
    ensures r.Some? <==> code == "A" || code == "B" || code == "C"
    ensures r.Some? ==> r.value != ""
  {
    if code == "A" then Some(GymImage)
    else if code == "B" then Some(BadmintonImage)
    else if code == "C" then Some(BasketballImage)
    else None
  }

  /** `select_campus`. */
  function SelectCampusRun(env: Env, h: History, tab: Tab): Run<()> {
    ClickRun(env, h, tab, CampusButton)
  }

  /** `select_venue`: an unknown code raises before anything is done on the page. */
  function SelectVenueRun(env: Env, h: History, tab: Tab, code: string): Run<()> {
    match ImageId(code)
    case None => Run(Raise(UnsupportedVenue(code)), h)
    case Some(id) =>
      var w := WaitRun(env, h, tab, VenueImage(id));
      if w.out.Raise? then w else ClickRun(env, w.trace, tab, VenueImage(id))
  }

  /** The day offset `select_date` resolves a date string to: every string other
      than "today" and "tomorrow" means the day after tomorrow. */
  function DayOffset(date: string): nat {
    if date == "today" then 0 else if date == "tomorrow" then 1 else 2
  }

  /** What attempt k >= 1 does before searching: reload, then select campus and venue again. */
  function RetryRun(env: Env, h: History, tab: Tab, code: string): Run<()> {
    var c := SelectCampusRun(env, h + [Reloaded(tab)], tab);
    if c.out.Raise? then c else SelectVenueRun(env, c.trace, tab, code)
  }

  /** The guarded part of one attempt: wait for the date cell, then click it. */
  function SearchRun(env: Env, h: History, tab: Tab, day: int): Run<()> {
    var w := WaitRun(env, h, tab, DateCell(day));
    if w.out.Raise? then w else ClickRun(env, w.trace, tab, DateCell(day))
  }

  /** One pass of the loop body: re-select first unless it is the first attempt,
      then the guarded search. Ok(true): the date was clicked; Ok(false): the
      search timed out, which is the only exception the `try` catches. */
  function AttemptRun(env: Env, h: History, tab: Tab, day: int, code: string, attempt: nat): Run<bool> {
    var prep := if attempt > 0 then RetryRun(env, h, tab, code) else Run(Ok(()), h);
    if prep.out.Raise? then Run(Raise(prep.out.error), prep.trace)
    else
      var s := SearchRun(env, prep.trace, tab, day);
      Run(Ok(s.out.Ok?), s.trace)
  }

  /** The `for attempt in range(max_attempts)` loop of `select_date`, from `attempt` on. */
  function DateAttempts(env: Env, h: History, tab: Tab, day: int, code: string, attempt: nat, max: int): Run<()>
    decreases max - attempt
  {
    if attempt >= max then Run(Ok(()), h)
    else
      var t := AttemptRun(env, h, tab, day, code, attempt);
      if t.out.Raise? then Run(Raise(t.out.error), t.trace)
      else if t.out.value then Run(Ok(()), t.trace)
      else if attempt >= max - 1 then Run(Raise(DateNotFound(day, max)), t.trace)
      else DateAttempts(env, t.trace, tab, day, code, attempt + 1, max)
  }

  /** `select_date(date, venue_type, wait_timeout_seconds, max_attempts)`. */
  function SelectDateRun(env: Env, h: History, tab: Tab, date: string, code: string, max: int): Run<()> {
    DateAttempts(env, h, tab, env.today + DayOffset(date), code, 0, max)
  }

  /** `select_time_slot`: a time-out on the click is logged and swallowed. */
  function SelectTimeSlotRun(env: Env, h: History, tab: Tab, slot: string): Run<()> {
    Run(Ok(()), ClickRun(env, h, tab, SlotCell(slot)).trace)
  }

  /** The positions of the visible items of a listing, in page order. */
  function VisibleIndices(items: seq<Item>): (ix: seq<nat>)
    ensures forall k :: 0 <= k < |ix| ==> ix[k] < |items| && items[ix[k]].shown
    ensures forall k, l :: 0 <= k < l < |ix| ==> ix[k] < ix[l]
    ensures forall i :: 0 <= i < |items| && items[i].shown ==> i in ix
  {
    if items == [] then []
    else
      var rest := VisibleIndices(items[..|items| - 1]);
      if items[|items| - 1].shown then rest + [|items| - 1] else rest
  }

  /** `[t.text_content().strip() for t in visible]`, or None when nothing is visible. */
  function LeftoverOf(items: seq<Item>): Option<seq<string>> {
    var ix := VisibleIndices(items);
    if ix == [] then None else Some(seq(|ix|, k requires 0 <= k < |ix| => Text.Strip(items[ix[k]].text)))
  }

  /** `leftover_timeslot`: reads the bookable time slots, never raises. */
  function LeftoverRun(env: Env, h: History, tab: Tab): Run<Option<seq<string>>> {
    var s := ScanRun(env, h, tab, AvailableSlots);
    Run(Ok(LeftoverOf(s.out.value)), s.trace)
  }

  /** `random.choice(visible_venues)`: a draw picks one of the visible entries. */
  function ChosenEntry(items: seq<Item>, draw: nat): (c: nat)
    requires VisibleIndices(items) != []
    ensures c < |items| && items[c].shown
  {
    var ix := VisibleIndices(items);
    ix[draw % |ix|]
  }

  /** The basketball court `select_specific_venue` clicks for a court preference. */
  function CourtFor(court: Option<string>): (r: string)
    ensures r == OutdoorCourt <==> court == Some("out")
    ensures r != OutdoorCourt ==> r == IndoorCourt
  {
    if court == Some("out") then OutdoorCourt else IndoorCourt
  }

  /** `select_specific_venue(venue_type, court)`. */
  function SpecificVenueRun(env: Env, h: History, tab: Tab, code: string, court: Option<string>): Run<()> {
    if code == "A" then
      var w := WaitRun(env, h, tab, GymEntry);
      if w.out.Raise? then Run(Raise(NoGymVenue), w.trace) else
      var c := ClickRun(env, w.trace, tab, GymEntry);
      if c.out.Raise? then Run(Raise(NoGymVenue), c.trace) else c
    else if code == "B" then
      var s := ScanRun(env, h, tab, AvailableBadminton);
      var items := s.out.value;
      if VisibleIndices(items) == [] then Run(Raise(NoBadmintonVenue), s.trace)
      else ClickRun(env, s.trace, tab, Entry(AvailableBadminton, ChosenEntry(items, env.draw(s.trace))))
    else if code == "C" then
      var w := WaitRun(env, h, tab, CourtList);
      if w.out.Raise? then w else ClickRun(env, w.trace, tab, Court(CourtFor(court)))
    else Run(Ok(()), h)
  }

  /** `submit_booking`. */
  function SubmitBookingRun(env: Env, h: History, tab: Tab): Run<()> {
    ClickRun(env, h, tab, SubmitButton)
  }

  /** What `make_payment` returns: the page itself, or `True`. Both are truthy. */
  datatype PaymentResult = ReturnedSelf | ReturnedTrue

  /** `make_payment(pay_password)`. */
  function MakePaymentRun(env: Env, h: History, tab: Tab, password: string): Run<PaymentResult> {
    var u := ClickRun(env, h, tab, UnpaidTab);
    if u.out.Raise? then Run(Raise(u.out.error), u.trace) else
    var w := WaitRun(env, u.trace, tab, PayButton);
    if w.out.Raise? then Run(Raise(w.out.error), w.trace) else
    var s := ScanRun(env, w.trace, tab, PayLabels);
    if |VisibleIndices(s.out.value)| == 1 then
      var b := ClickRun(env, s.trace, tab, BalancePayButton);
      if b.out.Raise? then Run(Raise(b.out.error), b.trace) else Run(Ok(ReturnedSelf), b.trace)
    else
      var f := Pay.FundPaymentRun(env, s.trace, tab, password);
      if f.out.Raise? then Run(Raise(f.out.error), f.trace) else Run(Ok(ReturnedTrue), f.trace)
  }

  // ----- properties -----

  /** `select_venue` accepts exactly A, B and C. Any other code raises before the
      page is touched; a known code waits for its own image and, on success, clicks it. */
  lemma SelectVenueContract(env: Env, h: History, tab: Tab, code: string)
    ensures var r := SelectVenueRun(env, h, tab, code);
      ImageId(code).None? ==> r == Run(Raise(UnsupportedVenue(code)), h)
    ensures var r := SelectVenueRun(env, h, tab, code);
      ImageId(code).Some? ==> var img := VenueImage(ImageId(code).value);
        (r.out.Ok? ==> r.trace == h + [Waited(tab, img, true), Clicked(tab, img)])
        && (r.out.Raise? ==> r.out.error == Timeout(img))
  {
  }

  /** Date resolution: "today" is today, "tomorrow" the next day, and every
      other string the day after that; the loop then polls that day's cell. */
  lemma DateResolution(env: Env, h: History, tab: Tab, date: string, code: string, max: int)
    ensures DayOffset(date) == 0 <==> date == "today"
    ensures DayOffset(date) == 1 <==> date == "tomorrow"
    ensures DayOffset(date) == 2 <==> date != "today" && date != "tomorrow"
    ensures SelectDateRun(env, h, tab, date, code, max)
      == DateAttempts(env, h, tab, env.today + DayOffset(date), code, 0, max)
  {
  }

  /** The texts of the visible items, stripped, in page order: a reference
      definition of the list comprehension, built from the front. */
  function VisibleTexts(items: seq<Item>): seq<string> {
    if items == [] then []
    else (if items[0].shown then [Text.Strip(items[0].text)] else []) + VisibleTexts(items[1..])
  }

  /** The same texts, built from the back like `VisibleIndices`. */
  lemma {:induction false} VisibleTextsBack(items: seq<Item>)
    requires items != []
    ensures VisibleTexts(items) == VisibleTexts(items[..|items| - 1])
      + (if items[|items| - 1].shown then [Text.Strip(items[|items| - 1].text)] else [])
    decreases |items|
  {
    if |items| > 1 {
      VisibleTextsBack(items[1..]);
      assert items[1..][..|items| - 2] == items[..|items| - 1][1..];
    }
  }

  /** Mapping strip over the visible positions gives the reference texts. */
  lemma {:induction false} StrippedVisible(items: seq<Item>)
    ensures var ix := VisibleIndices(items);
      seq(|ix|, k requires 0 <= k < |ix| => Text.Strip(items[ix[k]].text)) == VisibleTexts(items)
    decreases |items|
  {
    if items != [] {
      var init := items[..|items| - 1];
      StrippedVisible(init);
      VisibleTextsBack(items);
    }
  }

  /** `leftover_timeslot` filters: None exactly when no listed slot is visible
      (never the empty list), otherwise the stripped texts of the visible slots
      in page order. */
  lemma LeftoverOfContract(items: seq<Item>)
    ensures LeftoverOf(items).None? <==> forall i :: 0 <= i < |items| ==> !items[i].shown
    ensures LeftoverOf(items).Some? ==> LeftoverOf(items).value == VisibleTexts(items) != []
  {
    StrippedVisible(items);
    if LeftoverOf(items).None? {
      forall i | 0 <= i < |items|
        ensures !items[i].shown
      {
        assert items[i].shown ==> i in VisibleIndices(items);
      }
    }
  }

  /** `leftover_timeslot` never raises and only reads the page: its one event is
      the scan of the bookable slots. */
  lemma LeftoverReadsOnly(env: Env, h: History, tab: Tab)
    ensures var r := LeftoverRun(env, h, tab);
      var items := env.listing(h, tab, AvailableSlots);
      r.out == Ok(LeftoverOf(items)) && r.trace == h + [Scanned(tab, AvailableSlots, items)]
  {
  }

  lemma SmallRemainder(k: nat, n: nat)
    requires k < n
    ensures k % n == k
  {
  }

  /** Every visible badminton entry is the one some draw picks. */
  lemma ChosenEntryCovers(items: seq<Item>, i: nat)
    requires i < |items| && items[i].shown
    ensures VisibleIndices(items) != [] && exists draw: nat :: ChosenEntry(items, draw) == i
  {
    var ix := VisibleIndices(items);
    assert i in ix;
    var k :| 0 <= k < |ix| && ix[k] == i;
    SmallRemainder(k, |ix|);
    assert ChosenEntry(items, k) == i;
  }

  /** `select_time_slot` never raises: a slot that never shows up leaves one
      missed click behind, a visible one is clicked. */
  lemma TimeSlotSwallows(env: Env, h: History, tab: Tab, slot: string)
    ensures var r := SelectTimeSlotRun(env, h, tab, slot);
      r.out == Ok(()) && |r.trace| == |h| + 1 && r.trace[..|h|] == h
      && (r.trace[|h|] == Clicked(tab, SlotCell(slot)) <==> env.visible(h, tab, SlotCell(slot)))
      && (r.trace[|h|] == Missed(tab, SlotCell(slot)) <==> !env.visible(h, tab, SlotCell(slot)))
  {
  }

  /** The gym: the one error is `NoGymVenue`, whatever timed out; success waits
      for the gym entry and clicks it once. */
  lemma GymChoice(env: Env, h: History, tab: Tab, court: Option<string>)
    ensures var r := SpecificVenueRun(env, h, tab, "A", court);
      (r.out.Raise? ==> r.out.error == NoGymVenue)
      && (r.out.Ok? ==> r.trace == h + [Waited(tab, GymEntry, true), Clicked(tab, GymEntry)])
  {
  }

  /** Badminton: it raises `NoBadmintonVenue`, with nothing done but the scan,
      exactly when no listed entry is visible; otherwise it clicks one visible
      entry, and only that one. */
  lemma BadmintonChoice(env: Env, h: History, tab: Tab, court: Option<string>)
    ensures var r := SpecificVenueRun(env, h, tab, "B", court);
      var items := env.listing(h, tab, AvailableBadminton);
      var s := h + [Scanned(tab, AvailableBadminton, items)];
      (r.out == Raise(NoBadmintonVenue) <==> forall i :: 0 <= i < |items| ==> !items[i].shown)
      && (r.out == Raise(NoBadmintonVenue) ==> r.trace == s)
      && (r.out != Raise(NoBadmintonVenue) ==>
            exists c :: 0 <= c < |items| && items[c].shown
              && r == ClickRun(env, s, tab, Entry(AvailableBadminton, c)))
  {
    var items := env.listing(h, tab, AvailableBadminton);
    var ix := VisibleIndices(items);
    if ix != [] {
      var s := h + [Scanned(tab, AvailableBadminton, items)];
      var c := ChosenEntry(items, env.draw(s));
      assert ClickRun(env, s, tab, Entry(AvailableBadminton, c)).out != Raise(NoBadmintonVenue);
    } else {
      forall i | 0 <= i < |items|
        ensures !items[i].shown
      {
        assert items[i].shown ==> i in ix;
      }
    }
  }

  /** Basketball: after the court list shows up, the outdoor court is clicked
      exactly when the preference is "out", the indoor court otherwise; the only
      errors are time-outs on the list or on that court. */
  lemma BasketballChoice(env: Env, h: History, tab: Tab, court: Option<string>)
    ensures var r := SpecificVenueRun(env, h, tab, "C", court);
      var pick := if court == Some("out") then OutdoorCourt else IndoorCourt;
      (r.out.Ok? ==> r.trace == h + [Waited(tab, CourtList, true), Clicked(tab, Court(pick))])
      && (r.out.Raise? ==> r.out.error == Timeout(CourtList) || r.out.error == Timeout(Court(pick)))
  {
  }

  /** Any other venue code selects nothing and does nothing. */
  lemma UnknownCodeNoop(env: Env, h: History, tab: Tab, code: string, court: Option<string>)
    requires code != "A" && code != "B" && code != "C"
    ensures SpecificVenueRun(env, h, tab, code, court) == Run(Ok(()), h)
  {
  }

  /** The history `make_payment` has reached when it counts the pay buttons:
      the unpaid tab clicked, the first pay button waited for, the labels scanned. */
  function PaymentScan(env: Env, h: History, tab: Tab): History {
    var w := h + [Clicked(tab, UnpaidTab)] + [Waited(tab, PayButton, true)];
    w + [Scanned(tab, PayLabels, env.listing(w, tab, PayLabels))]
  }

  /** The number of visible ")支付" labels `make_payment` counts. */
  function VisiblePayLabels(env: Env, h: History, tab: Tab): nat {
    var w := h + [Clicked(tab, UnpaidTab)] + [Waited(tab, PayButton, true)];
    |VisibleIndices(env.listing(w, tab, PayLabels))|
  }

  /** `make_payment` gets to count the pay buttons exactly when the unpaid tab
      and then the first pay button show up. */
  predicate ReachesScan(env: Env, h: History, tab: Tab) {
    env.visible(h, tab, UnpaidTab) && env.visible(h + [Clicked(tab, UnpaidTab)], tab, PayButton)
  }

  /** When it does not get there, it fails on the first of the two that does
      not show up, and no pay button is ever clicked. */
  lemma PaymentStopsEarly(env: Env, h: History, tab: Tab, password: string)
    ensures var r := MakePaymentRun(env, h, tab, password);
      !ReachesScan(env, h, tab) ==>
        (r.out == Raise(Timeout(UnpaidTab)) && r.trace == h + [Missed(tab, UnpaidTab)])
        || (r.out == Raise(Timeout(PayButton))
            && r.trace == h + [Clicked(tab, UnpaidTab)] + [Waited(tab, PayButton, false)])
  {
  }

  /** One visible pay button: the balance button is clicked and the page itself
      returned, or the balance button times out; either way that is the only
      event after the scan, so the keypad is never touched. */
  lemma PaymentSingleButton(env: Env, h: History, tab: Tab, password: string)
    requires ReachesScan(env, h, tab) && VisiblePayLabels(env, h, tab) == 1
    ensures var r := MakePaymentRun(env, h, tab, password);
      var s := PaymentScan(env, h, tab);
      (r.out == Ok(ReturnedSelf) && r.trace == s + [Clicked(tab, BalancePayButton)])
      || (r.out == Raise(Timeout(BalancePayButton)) && r.trace == s + [Missed(tab, BalancePayButton)])
  {
  }

  /** Any other number of visible pay buttons: the fund payment runs on a popup,
      next step, password field, the keys of the password in order and the
      confirm key, and `True` is returned. */
  lemma PaymentByFund(env: Env, h: History, tab: Tab, password: string)
    ensures var r := MakePaymentRun(env, h, tab, password);
      var s := PaymentScan(env, h, tab);
      var p := Popup(tab, |s|);
      r.out.Ok? && VisiblePayLabels(env, h, tab) != 1 ==>
        (r.out.value == ReturnedTrue
         && r.trace == s + [Clicked(tab, FundPayButton), Opened(p),
              Waited(p, NextStepButton, true), Clicked(p, NextStepButton),
              Waited(p, PayPasswordField, true), Clicked(p, PayPasswordField)]
            + Pay.KeyClicks(p, password) + [Clicked(p, KeypadConfirm)])
  {
    Pay.FundPaymentSucceeds(env, PaymentScan(env, h, tab), tab, password);
  }

  /** The result is `ReturnedSelf` exactly in the one-button case. */
  lemma PaymentResultByCount(env: Env, h: History, tab: Tab, password: string)
    ensures var r := MakePaymentRun(env, h, tab, password);
      r.out.Ok? ==> (r.out.value == ReturnedSelf <==> VisiblePayLabels(env, h, tab) == 1)
  {
  }

  /** The booking page: the browser it drives, the tab it is on, and the venue
      code last passed to `select_specific_venue`. */
  class TicketPage {
    const browser: Browser
    const page: Tab
    var currentVenueType: Option<string>

    constructor (browser: Browser, page: Tab)
      ensures this.browser == browser && this.page == page && currentVenueType == None
    {
      this.browser := browser;
      this.page := page;
      currentVenueType := None;
    }

    method SelectCampus() returns (r: Outcome<()>)
      modifies browser`trace
      ensures Run(r, browser.trace) == SelectCampusRun(browser.env, old(browser.trace), page)
    {
      r := browser.Click(page, CampusButton);
    }

    method SelectVenue(code: string) returns (r: Outcome<()>)
      modifies browser`trace
      ensures Run(r, browser.trace) == SelectVenueRun(browser.env, old(browser.trace), page, code)
    {
      var id := ImageId(code);
      if id.None? {
        return Raise(UnsupportedVenue(code));
      }
      r := browser.WaitFor(page, VenueImage(id.value));
      if r.Ok? {
        r := browser.Click(page, VenueImage(id.value));
      }
    }

    method SelectDate(date: string, code: string, maxAttempts: int) returns (r: Outcome<()>)
      modifies browser`trace
      ensures Run(r, browser.trace) == SelectDateRun(browser.env, old(browser.trace), page, date, code, maxAttempts)
    {
      var day := browser.env.today + DayOffset(date);
      ghost var env := browser.env;
      ghost var h0 := browser.trace;
      var attempt := 0;
      while attempt < maxAttempts
        invariant DateAttempts(env, h0, page, day, code, 0, maxAttempts)
          == DateAttempts(env, browser.trace, page, day, code, attempt, maxAttempts)
        decreases maxAttempts - attempt
      {
        ghost var before := browser.trace;
        if attempt > 0 {
          browser.Reload(page);
          r := SelectCampus();
          if r.Raise? { return; }
          r := SelectVenue(code);
          if r.Raise? { return; }
          assert Run(r, browser.trace) == RetryRun(env, before, page, code);
        }
        ghost var searched := browser.trace;
        r := browser.WaitFor(page, DateCell(day));
        if r.Ok? {
          r := browser.Click(page, DateCell(day));
        }
        assert Run(r, browser.trace) == SearchRun(env, searched, page, day);
        assert Run(Ok(r.Ok?), browser.trace) == AttemptRun(env, before, page, day, code, attempt);
        if r.Ok? {
          return;
        }
        if attempt >= maxAttempts - 1 {
          r := Raise(DateNotFound(day, maxAttempts));
          return;
        }
        attempt := attempt + 1;
      }
      r := Ok(());
    }

    method SelectTimeSlot(slot: string) returns (r: Outcome<()>)
      modifies browser`trace
      ensures Run(r, browser.trace) == SelectTimeSlotRun(browser.env, old(browser.trace), page, slot)
    {
      var clicked := browser.Click(page, SlotCell(slot));
      r := Ok(());
    }

    method LeftoverTimeslot() returns (slots: Option<seq<string>>)
      modifies browser`trace
      ensures Run(Ok(slots), browser.trace) == LeftoverRun(browser.env, old(browser.trace), page)
    {
      var items := browser.All(page, AvailableSlots);
      slots := LeftoverOf(items);
    }

    method SelectSpecificVenue(code: string, court: Option<string>) returns (r: Outcome<()>)
      modifies this`currentVenueType, browser`trace
      ensures currentVenueType == Some(code)
      ensures Run(r, browser.trace) == SpecificVenueRun(browser.env, old(browser.trace), page, code, court)
    {
      currentVenueType := Some(code);
      if code == "A" {
        r := browser.WaitFor(page, GymEntry);
        if r.Ok? {
          r := browser.Click(page, GymEntry);
        }
        if r.Raise? {
          r := Raise(NoGymVenue);
        }
      } else if code == "B" {
        var items := browser.All(page, AvailableBadminton);
        if VisibleIndices(items) == [] {
          return Raise(NoBadmintonVenue);
        }
        var chosen := ChosenEntry(items, browser.env.draw(browser.trace));
        r := browser.Click(page, Entry(AvailableBadminton, chosen));
      } else if code == "C" {
        r := browser.WaitFor(page, CourtList);
        if r.Ok? {
          r := browser.Click(page, Court(CourtFor(court)));
        }
      } else {
        r := Ok(());
      }
    }

    method SubmitBooking() returns (r: Outcome<()>)
      modifies browser`trace
      ensures Run(r, browser.trace) == SubmitBookingRun(browser.env, old(browser.trace), page)
    {
      r := browser.Click(page, SubmitButton);
    }

    method MakePayment(password: string) returns (r: Outcome<PaymentResult>)
      modifies browser`trace
      ensures Run(r, browser.trace) == MakePaymentRun(browser.env, old(browser.trace), page, password)
    {
      var step := browser.Click(page, UnpaidTab);
      if step.Raise? { return Raise(step.error); }
      step := browser.WaitFor(page, PayButton);
      if step.Raise? { return Raise(step.error); }
      var payments := browser.All(page, PayLabels);
      if |VisibleIndices(payments)| == 1 {
        step := browser.Click(page, BalancePayButton);
        if step.Raise? { return Raise(step.error); }
        return Ok(ReturnedSelf);
      }
      ghost var scanned := browser.trace;
      var payPage := new Pay.PayPage(browser, page);
      step := payPage.PayWithSportsFund();
      if step.Raise? { return Raise(step.error); }
      ghost var popupRun := Pay.PayWithFundRun(browser.env, scanned, page);
      assert payPage.page == popupRun.out.value;
      step := payPage.ClickNextStep();
      if step.Raise? { return Raise(step.error); }
      step := payPage.EnterPassword(password);
      if step.Raise? { return Raise(step.error); }
      r := Ok(ReturnedTrue);
    }
  }
}
