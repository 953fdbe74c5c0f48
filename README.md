# gym-ticket-autobuy, modelled in Dafny

gym-ticket-autobuy books sports-venue time slots on a university reservation
site. It drives a browser through the site's pages. It logs in, with a saved
session when one is available. Then it picks the campus, the venue type
(gym, badminton or basketball), the date, the time slot and a concrete
court. It submits the booking and pays for it, either from the balance or
from the sports fund on a numeric keypad. A second script runs the same
chain up to the date and reports which time slots are still free. A Tk GUI
keeps the settings per user and launches the scripts.

This project models that core:

- the page objects (`pages/ticket_page.py`, `pages/pay_page.py`,
  `pages/login_page.py`);
- the two entry scripts (`scripts/main_script.py`,
  `scripts/leftover_script.py`);
- the configuration logic of the GUI in `main.py`.

It then proves properties of the model.

How the model is built:

- **The browser** (`web.dfy`, module `Web`) stands in for Playwright.
  - Everything the program reads from the page is an oracle of the history
    of events so far: whether an element is visible, the items a locator
    lists, the random draw, today's date, the context cookies and the
    local-storage snapshot.
  - Everything it does is appended to `Browser.trace`: clicks, missed clicks,
    waits, fills, probes, reloads, scans, opened pop-ups, added cookies and
    `setItem` calls.
  - An auto-waiting action on an element that never shows up records a missed
    click and raises `Timeout`, as Playwright's `TimeoutError` does.
- **Page objects** are classes with methods, as in the source; the two
  scripts' `main` functions are module-level methods of `Scripts`.
  - Each method is proved equal to a function of the environment and the
    history before it: `Run(r, browser.trace) == XRun(env, old(trace), ...)`.
  - The lemmas then state the properties of those functions.
  - The date-polling loop of `select_date` and the keypad loop of
    `enter_password` are `while` loops with invariants.
  - `date_events.dfy` and `date_loop.dfy` count and order what the polling
    loop does.
- **Files.** The config directory (`disk.dfy`, module `Disk`) is a class
  with one field per file: `cookies.json`, `storage.json`,
  `leftover_result.json` and the `settings_<user>.json` files. A file is
  absent, or holds JSON of the expected shape, or holds text that does not
  decode.
- **Text** (`text.dfy`, module `Text`) models Python's `str.strip`, the
  decimal rendering of numbers, `:02d` and the case-insensitive "yes" test.

Behaviour of the code worth noting:

- A credential login that does not end up logged in only logs the failure.
  It does not raise.
- `leftover_timeslot` returns `None`, written as JSON `null`, when no slot is
  visible. It does not return an empty list.
- A storage file that does not decode makes `load_cookies` return false after
  the cookies were already added to the context.

## Model

| member | source | states |
|---|---|---|
| Ticket.ImageId | pages/ticket_page.py:14-18 | a venue code has an image id exactly when it is A, B or C, and that id is non-empty |
| Ticket.SelectVenueContract | pages/ticket_page.py:25-34 | an unknown code raises `UnsupportedVenue` before touching the page; a known code waits for its own image and then clicks it, and fails only with a time-out on that image |
| Ticket.TicketPage.SelectCampus | pages/ticket_page.py:20-23 | clicks the campus button, as `SelectCampusRun` says: a time-out when the button never shows up |
| Ticket.TicketPage.SelectVenue | pages/ticket_page.py:25-34 | does what `SelectVenueRun` says: the unknown-code error before any page action, else wait for and click the venue's image |
| Ticket.DateResolution | pages/ticket_page.py:36-46 | "today" resolves to today, "tomorrow" to the next day and every other string to the day after; the loop polls the resolved day |
| Ticket.TicketPage.SelectDate | pages/ticket_page.py:36-70 | the polling loop does what `DateAttempts` says: reload and re-select before every attempt but the first, return on the first click of the date, raise after the last time-out |
| DateLoop.RetryShape | pages/ticket_page.py:51-57 | a re-selection either adds exactly reload, campus click, venue wait and venue click, or stops at one of those stages with a campus, venue-code or venue-image error |
| DateLoop.SearchShape | pages/ticket_page.py:59-64 | a search adds its wait first and then a click exactly when it succeeds, and fails only with a time-out naming the date cell |
| DateLoop.AttemptShape | pages/ticket_page.py:50-69 | one pass of the loop yields true exactly when the date was clicked, false when the search timed out, and a setup error when the re-selection failed; the first pass never re-selects |
| DateLoop.DateShape | pages/ticket_page.py:50-70 | the whole loop: one ending per attempt, at most `max` of them; it returns exactly when the last attempt clicked; the RuntimeError comes exactly when all `max` attempts timed out; any other error is a setup error |
| DateLoop.NoAttempt | pages/ticket_page.py:50-70 | with no attempt allowed the loop does nothing and returns the page |
| DateLoop.LoopCounts | pages/ticket_page.py:50-70 | counted: success after k <= max searches with k-1 reloads and re-selections and one date click; the RuntimeError after exactly `max` searches and no date click; a setup error after the k-th reload, k < max |
| DateLoop.LoopOrder | pages/ticket_page.py:50-63 | the loop's first action is the wait for the date cell, with no reload before it, and a successful loop ends with the click of that cell |
| DateEvents.RunCount | pages/ticket_page.py:50-69 | the events of a run of attempts add up to the closed-form tally of reloads, waits, clicks and re-selections |
| DateEvents.LoopEdges | pages/ticket_page.py:50-63 | a run from the first attempt starts with the date wait, and a run whose last attempt clicked ends with that click |
| Ticket.TimeSlotSwallows | pages/ticket_page.py:72-78 | `select_time_slot` never raises; it adds one event, a click when the slot is visible and a missed click when it is not |
| Ticket.TicketPage.SelectTimeSlot | pages/ticket_page.py:72-78 | does what `SelectTimeSlotRun` says: one click attempt, never an error |
| Ticket.VisibleIndices | pages/ticket_page.py:84 | the indices of exactly the visible items, in increasing (page) order |
| Ticket.StrippedVisible | pages/ticket_page.py:84-89 | the list `leftover_timeslot` builds is the reference list of the visible items' stripped texts, in page order |
| Ticket.LeftoverOfContract | pages/ticket_page.py:80-89 | the result is `None` exactly when nothing is visible; otherwise it is the non-empty list of the visible items' stripped texts |
| Ticket.LeftoverReadsOnly | pages/ticket_page.py:80-89 | `leftover_timeslot` never raises and only reads the page: its single event is the scan of the bookable slots |
| Ticket.TicketPage.LeftoverTimeslot | pages/ticket_page.py:80-89 | returns what `LeftoverRun` says: the stripped visible slot texts, or `None`, after one scan |
| Ticket.ChosenEntry | pages/ticket_page.py:108 | the random choice always picks a visible entry |
| Ticket.ChosenEntryCovers | pages/ticket_page.py:103-110 | every visible badminton entry is the choice of some draw |
| Ticket.GymChoice | pages/ticket_page.py:94-101 | for the gym the only error is `NoGymVenue`; success waits for the gym entry and clicks it once |
| Ticket.BadmintonChoice | pages/ticket_page.py:102-111 | badminton raises `NoBadmintonVenue`, after nothing but the scan, exactly when no entry is visible; otherwise it clicks one visible entry and nothing else |
| Ticket.CourtFor | pages/ticket_page.py:114-119 | the outdoor court exactly for the preference "out", the indoor court for anything else, a missing preference included |
| Ticket.BasketballChoice | pages/ticket_page.py:112-119 | for basketball, after the court list shows up, the outdoor court is clicked exactly for "out" and the indoor court otherwise; the only errors are time-outs on the list or on that court |
| Ticket.UnknownCodeNoop | pages/ticket_page.py:91-120 | any other venue code selects nothing and leaves the page untouched |
| Ticket.TicketPage.SelectSpecificVenue | pages/ticket_page.py:91-120 | records the venue code and does what `SpecificVenueRun` says |
| Ticket.TicketPage.SubmitBooking | pages/ticket_page.py:122-126 | clicks the submit button, as `SubmitBookingRun` says |
| Ticket.PaymentStopsEarly | pages/ticket_page.py:128-131 | when the unpaid tab or the first pay button does not show up, payment fails on the first of them that is missing and clicks no pay button |
| Ticket.PaymentSingleButton | pages/ticket_page.py:132-135 | with exactly one visible pay label the balance button is clicked and the page itself is returned (or that click times out); nothing else happens after the scan |
| Ticket.PaymentByFund | pages/ticket_page.py:136-144 | with any other number of labels a successful payment returns `True` after the fund button, the pop-up, next step, the password field, the password's keys in order and the confirm key |
| Ticket.PaymentResultByCount | pages/ticket_page.py:132-146 | a successful payment returns the page exactly in the one-label case and `True` otherwise |
| Ticket.TicketPage.MakePayment | pages/ticket_page.py:128-146 | does what `MakePaymentRun` says, building the pay page on the same tab |
| Pay.PayPage.PayWithSportsFund | pages/pay_page.py:7-12 | clicks the fund button and moves the pay page to the pop-up it opened |
| Pay.PayPage.ClickNextStep | pages/pay_page.py:14-18 | does what `NextStepRun` says: wait for the next-step button on the pay page's tab, then click it |
| Pay.KeysRunSucceeds | pages/pay_page.py:25-26 | typing a password that goes through clicks exactly the keys of its digits, in order |
| Pay.KeysRunFails | pages/pay_page.py:25-26 | a failed keypad entry stops at the first key j that is not there: keys before j clicked, key j missed, its time-out raised |
| Pay.EnterPasswordSucceeds | pages/pay_page.py:20-29 | a successful password entry is: wait for the field, click it, the digit keys, the confirm key; an empty password clicks no key |
| Pay.FieldBeforeKeys | pages/pay_page.py:22-26 | the password field is waited for first and clicked before any key is clicked |
| Pay.PayPage.EnterPassword | pages/pay_page.py:20-29 | the keypad loop does what `EnterPasswordRun` says |
| Pay.LaterStepsOnPopup | pages/pay_page.py:7-29 | after the fund button opens a pop-up distinct from the page, every later step of a successful fund payment acts on the pop-up |
| Pay.FundPaymentSucceeds | pages/pay_page.py:7-29 | a successful fund payment is exactly fund click, pop-up, next-step wait and click, field wait and click, the digit keys and the confirm key, on that pop-up |
| Login.LoadCookiesContract | pages/login_page.py:58-77 | `load_cookies` is true exactly when the cookie file holds JSON and the storage file is absent or holds JSON; cookies are added whenever the cookie file decodes; entries are restored only when both files decode |
| Login.ItemSets | pages/login_page.py:70-74 | one `setItem` per storage entry, in the entries' order |
| Login.ReplayItemSets | pages/login_page.py:70-74 | replaying the restore calls turns local storage `m` into `m` updated with the entries' dictionary |
| Login.ToMapEntries | pages/login_page.py:68-69 | every key of the stored object is in the dictionary read from it, and without repeated keys each maps to its own value |
| Login.ToMapKeys | pages/login_page.py:68-69 | the dictionary read from the stored object has no key the object does not list |
| Login.LoginPage.LoadCookies | pages/login_page.py:58-77 | the restore loop does what `LoadCookiesRun` says |
| Login.SaveCookiesContract | pages/login_page.py:32-56 | `save_cookies` succeeds exactly when the campus button is visible, and then writes the cookies and storage read at that moment; on the failed expectation it writes nothing |
| Login.LoginPage.SaveCookies | pages/login_page.py:32-56 | writes both session files exactly when `SaveCookiesRun` saved a session |
| Login.LoginPage.Navigate | pages/login_page.py:26-30 | adds exactly one navigation of its tab to the history |
| Login.LoginPage.IsLoggedIn | pages/login_page.py:79-85 | answers what `IsLoggedInRun` says: whether the campus button is visible, with one probe event and never an error |
| Login.SaveThenLoad | pages/login_page.py:32-77 | round trip: after a save, a later load succeeds, adds the saved cookies, and issues one `setItem` per saved entry, and replaying them on any store gives every saved key its saved value, leaving other keys as they were |
| Login.FastPath | pages/login_page.py:87-95 | a restored session that shows the campus button after navigating returns at once: nothing filled, clicked or saved |
| Login.CredentialOrder | pages/login_page.py:97-120 | a credential login that stops before submitting has raised and saved nothing; one that gets past submitting did navigate, form checks, username, password, remember-me and submit in that order, then the check for the campus button; if the check misses the button it returns and saves nothing; if it sees it, `save_cookies` expects the button again and then saves, or raises `AssertionError` and saves nothing |
| Login.SavedOnlyAfterLogin | pages/login_page.py:112-119 | a session is saved only after the post-submit check saw the campus button, and it is what the context held then |
| Login.LoginSaves | pages/login_page.py:87-121 | whichever path `login` takes, a session is saved only by the credential path |
| Login.LoginPage.Login | pages/login_page.py:87-121 | does what `LoginRun` says and changes the session files only when a session was saved |
| Text.StripIsTrimmed | pages/ticket_page.py:89 | `strip` removes only whitespace, only at the two ends, and leaves no whitespace at either end |
| Text.StripIdempotent | main.py:389-392 | stripping twice is stripping once |
| Text.StripEmptyIffBlank | main.py:376-378 | a stripped field is empty exactly when the field holds only whitespace |
| Text.NatToString | main.py:864-865 | the number is rendered as a non-empty string of digits with no leading zero |
| Text.DecimalRoundTrip | main.py:864-865 | reading the rendered number back gives the number |
| Text.TwoDigits | main.py:616-617 | `:02d` of an hour below 100 is two digits that read back as the hour |
| Text.IsYesSpellings | main.py:768 | `.lower() == 'yes'` holds exactly for the eight upper/lower-case spellings of "yes" |
| Gui.ConfigPathRoundTrip | main.py:98-100 | the user read back from a user's settings path is that user |
| Gui.ConfigPathOfUser | main.py:98-100 | every path a user is read back from is that user's settings path |
| Gui.ConfigPathShape | main.py:98-100 | a settings path is under config/, contains the username and ends in .json; two users never share one |
| Gui.VenueChoices | main.py:394-396 | the three venue choices of the form store codes the booking page accepts; any display value stores at most one character, and none exactly for an empty box |
| Gui.CourtChoices | main.py:398-400 | "外场" is the only choice that stores "out" and so the only one that books the outdoor court; "内场" stores "in"; anything else stores "" |
| Gui.MissingRequiredIff | main.py:403-417 | the form is refused exactly when one of the five required stored values is empty; the court may be empty |
| Gui.SaveSettingsContract | main.py:370-432 | the chosen file is the current one, else the stripped username's, and it stays current even when a later step fails; the save succeeds exactly when that file is readable and the form complete, fails with unreadable exactly when the file is garbled and with missing field exactly when the form is incomplete; a successful save writes only that file, with the six appointment settings overwritten and all others kept; a failed one writes nothing |
| Gui.App.SaveSettings | main.py:370-432 | does what `SaveSettingsEffect` says |
| Gui.SaveAccountContract | main.py:295-358 | an empty username is refused; the save succeeds exactly when the username is not blank and the current file, if any, is readable, and fails as unreadable exactly when it is garbled; a failed save changes nothing; a successful one writes the current file's settings, with the three account settings overwritten, to the new user's file, which becomes current |
| Gui.App.SaveAccount | main.py:295-358 | does what `SaveAccountEffect` says |
| Gui.SlotLabelHours | main.py:615-618 | a slot label is 11 characters and reads back as its start hour and the next hour |
| Gui.TimeSlotOptions | main.py:614-618 | the append loop builds the fourteen labels for hours 8 to 21, in order |
| Gui.TimeSlotChoices | main.py:614-618 | the choices run from 08:00-09:00 to 21:00-22:00, are distinct, and each ends one hour after it starts |
| Gui.ScriptDispatch | main.py:741-750 | modes 1, 2 and 3 select the booking, login and leftover scripts; every other mode is refused |
| Gui.ArgvContract | main.py:767-769 | the arguments are the program name and `--config=<path>`, plus `--headed` exactly when viewable reads "yes" in any case (default "yes") and the mode is 1 or 2 |
| Gui.LaunchContract | main.py:714-769 | the file used is the current one, else the stripped username's, and becomes current; "no username" exactly when there is neither; "missing" exactly when the username's file does not exist; "unreadable" exactly when the file is missing or garbled otherwise; "invalid mode" exactly for a readable file and a mode outside 1-3; a script starts exactly for a readable file and mode 1-3, with the script of that mode and `Argv` of that file's path and settings |
| Gui.App.RunScript | main.py:714-769 | does what `LaunchFor` says, including the current file it leaves behind |
| Gui.ParseNumberedLine | main.py:864-865 | a numbered result line reads back as its number and its slot |
| Gui.DisplayContract | main.py:838-870 | a missing file, `null` and an empty list each give one message; otherwise a header and one numbered line per slot, in order, from 1 |
| Gui.App.DisplayLeftover | main.py:838-877 | shows what `DisplayLines` says and removes the result file |
| Scripts.StagesCompose | scripts/main_script.py:45-53 | running a chain `a + b` is running `a` and then `b` from where `a` stopped, unless `a` raised |
| Scripts.FailFast | scripts/main_script.py:45-61 | once a prefix of the chain raises, the later calls never run: neither the outcome nor the history depends on them |
| Scripts.EndsInPayment | scripts/main_script.py:52-57 | a chain that ends with `make_payment` and does not raise yields a payment result |
| Scripts.Perform | scripts/main_script.py:45-53 | one chain call, after looking up its arguments in the order Python evaluates them |
| Scripts.BookingExit | scripts/main_script.py:37-61 | the booking script returns 0 exactly when login and every call of the chain went through and 1 otherwise; the fall-through `None` is unreachable |
| Scripts.LogIn | scripts/main_script.py:38-40 | does what `LoginPhase` says: `KeyError` for a missing username or password before the page is touched, then `login` with them |
| Scripts.Book | scripts/main_script.py:37-61 | the try block of the booking script: log in, then each chain call in order, stopping at the first exception, as `BookingEnd` says |
| Scripts.BookingMain | scripts/main_script.py:18-64 | does what `BookingEnd` says and closes the browser on every path |
| Scripts.LeftoverChain | scripts/leftover_script.py:45-50 | the query chain is campus, venue and date, then `leftover_timeslot` on the history they left |
| Scripts.SharedPrefix | scripts/leftover_script.py:45-48 | when campus, venue or date raises, both scripts' chains end there with the same outcome and history |
| Scripts.LeftoverExit | scripts/leftover_script.py:37-64 | the query returns 0 exactly when it wrote the result file, and what it wrote is what `leftover_timeslot` read; on any exception it returns 1 and writes nothing |
| Scripts.Query | scripts/leftover_script.py:37-64 | the try block of the query script: log in, the chain up to the date, `leftover_timeslot`, then the result file, as `LeftoverEnd` says |
| Scripts.LeftoverMain | scripts/leftover_script.py:18-67 | does what `LeftoverEnd` says, writes the result file only on success and closes the browser on every path |
| Scripts.QueryDisplay | scripts/leftover_script.py:55-57 | hand-off to the GUI: the result box says "no slots" exactly when no slot was visible; otherwise it shows a header and one numbered line per visible slot, in page order, with its stripped text |

## Left out

- Load-state waits (`wait_for_page_ready`, `wait_for_load_state`) and the
  fixed 300 ms pause in `leftover_timeslot`. The model assumes these waits
  succeed and does not model the `TimeoutError` Playwright raises when a load
  state is not reached in time. In `select_date`
  (pages/ticket_page.py:53-55) those waits sit outside the `try`, so such an
  error would end the loop instead of being retried. In `navigate`,
  `save_cookies` and `login` (pages/login_page.py:21-23, 29, 34, 92, 113) it
  would escape `login`. The oracle's answers already depend on the full
  history.
- Login.SaveThenLoad and Login.LoadCookiesContract: local storage is one
  store with no tab and no origin. In the source the restore runs on the
  page that `browser.new_page()` just opened, before the first navigation
  (`load_cookies` at pages/login_page.py:90, `navigate` at :91), so its
  `setItem` calls (pages/login_page.py:70-74) land on the blank page rather
  than on the booking site. The round trip is therefore proved about the
  store the calls are replayed on, not about the site's storage. A browser
  error from either `page.evaluate` (pages/login_page.py:45, :70) is not
  modelled either; the one at :70 would escape the narrow
  `except (FileNotFoundError, json.JSONDecodeError)` at :76.
- Time-out values (`timeout=10000`, `wait_timeout_seconds * 1000`, 5000 ms).
  Whether an element shows up in time is the oracle's answer. The scripts
  model only the `KeyError` and `ValueError` of reading `wait_timeout_seconds`.
  Which texts `float` accepts is a parameter of the model.
- Network failures of `goto` and `reload`, and a pop-up that never opens.
  The model assumes navigation, reloads and the pop-up always succeed.
- Dates are day numbers; the `%Y-%m-%d` formatting and the XPath text match
  are not modelled.
- JSON files of the wrong shape, for example a list where an object is
  expected, and configuration values that are not strings. Each file
  decodes to the expected shape or fails to decode.
- `sync_settings_files`, `last_used.json`, `load_settings`, the settings
  watcher, `clear_cookies`, `clear_logs` and `select_config_file`. These
  copy files between the per-user and shared settings. They are outside the
  modelled core.
- The Tk widgets, message boxes and logging. Each save, launch and display
  returns the outcome the GUI shows instead.
- Calling the script's `main` from `run_script`, and the mode-1 message box
  chosen from its exit code. `Gui.App.RunScript` stops at the `Start`
  decision. The scripts are modelled on their own in `Scripts`.
- `PermissionError` and `IOError` while writing a settings file, and the
  creation of the `config` directory.
- Paths use `/` as separator. The GUI reads the result file under the
  directory of `main.py`, but the query script writes it relative to the
  working directory. The model has one config directory, so it does not
  capture a run where the two differ.
- Reading the settings file and parsing the command line happen before the
  scripts' `try` block, so their exceptions are not mapped to an exit code.
  The model starts from the decoded configuration record.
- Launching Playwright and the browser. The scripts' methods receive the
  launched browser and its first page, modelled as the main tab.
- `scripts/login_script.py` is not part of this model. Its core is an
  unbounded hold-open loop.
- `Login.ToMapEntries`: a stored object with a repeated key keeps the last
  value. Only the repeat-free case states the value.
- `Login.ItemSets`: the restore replays the file's entries in their stored
  order, one `setItem` each. The source first decodes the file into a
  dictionary and replays `Object.entries` of it. That drops repeated keys
  and puts integer-like keys first, which the model does not capture.
- Per-element reads are folded into one scan event. `leftover_timeslot`,
  `select_specific_venue` (badminton) and `make_payment` call `is_visible()`,
  and `leftover_timeslot` calls `text_content()`, on each listed element.
  The model records one `Scanned` event with every item's visibility and
  text. It does not capture the page changing between those reads.
- `Ticket.BadmintonChoice`: the two `text_content()` reads of the chosen
  badminton entry (pages/ticket_page.py:109, before the click, and :111,
  after it) are only logged, and the model leaves them out. The read at :111
  runs on the `nth` locator after the click has changed the page. If the
  chosen label no longer matches "可预约", or the list has shrunk, that read
  waits out Playwright's default time-out and raises `TimeoutError`. The
  model's badminton branch ends `Ok` with the click and does not capture
  that failure, nor the exit code 1 it would give the booking script.
- Playwright's strict mode. A locator that matches more than one element
  makes `wait_for`, `click`, `fill`, `check` and `expect` raise a
  strict-mode `Error`, not a `TimeoutError`. In the model an `Element` is
  always one element, so this failure cannot occur. That covers the date
  cell (pages/ticket_page.py:59-61), whose error would escape the
  `except TimeoutError` at :64 and end the date loop instead of retrying it.
  It also covers the keypad keys (pages/pay_page.py:26, 28) and the login
  form's locators.
- `random.choice` is the oracle's draw taken modulo the number of visible
  entries. Uniformity is not modelled; `Ticket.ChosenEntryCovers` states
  that every visible entry can be chosen.
- `Text.Strip` strips the whitespace of Python's `str.isspace` as a fixed set
  of code points. There is no Unicode database.
