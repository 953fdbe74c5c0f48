/** The date-polling loop of `select_date` in pages/ticket_page.py, taken
    apart: what one attempt and the whole loop add to the history, whatever the
    page answers, and what that means for its reloads, waits and clicks. */
module DateLoop {
  import opened Web
  import opened Ticket
  import opened DateEvents

  /** The image id of a venue code, "" for an unknown code. */
  function VenueId(code: string): string {
    match ImageId(code)
    case Some(id) => id
    case None => ""
  }

  /** The errors re-selecting campus and venue can raise. */
  predicate SetupError(e: Error, code: string) {
    e == Timeout(CampusButton) || e == UnsupportedVenue(code) || (e.Timeout? && e.target.VenueImage?)
  }

  /** A re-selection either completes with exactly `RetryEvents` or is cut short
      at one of the stages of `AbortEvents`, with a setup error. */
  lemma RetryShape(env: Env, h: History, tab: Tab, code: string) returns (stage: nat)
    ensures var r := RetryRun(env, h, tab, code);
      (r.out.Ok? ==> r.trace == h + RetryEvents(tab, VenueId(code)))
      && (r.out.Raise? ==> (stage < 4 && r.trace == h + AbortEvents(tab, VenueId(code), stage) && SetupError(r.out.error, code)))
  {
    var img := VenueImage(VenueId(code));
    var h1 := h + [Reloaded(tab)];
    var h2 := h1 + [Clicked(tab, CampusButton)];
    if !env.visible(h1, tab, CampusButton) {
      stage := 0;
    } else if ImageId(code).None? {
      stage := 1;
    } else if !env.visible(h2, tab, img) {
      stage := 2;
    } else {
      stage := 3;
    }
  }

  /** A search adds its wait first, a click of the cell exactly when it succeeds,
      and fails only with a time-out naming the cell. */
  lemma SearchShape(env: Env, h: History, tab: Tab, day: int) returns (seen: bool, clicked: bool)
    ensures var s := SearchRun(env, h, tab, day);
      s.trace == h + SearchEvents(tab, day, seen, clicked)
      && (s.out.Ok? <==> seen && clicked)
      && (s.out.Raise? ==> s.out.error == Timeout(DateCell(day)))
  {
    seen := env.visible(h, tab, DateCell(day));
    clicked := seen && env.visible(h + [Waited(tab, DateCell(day), true)], tab, DateCell(day));
  }

  /** One pass of the loop body adds the events of how it ended: true exactly for
      `DateClicked`, false for `DateMissed`, a setup error for `CutShort`. */
  lemma AttemptShape(env: Env, h: History, tab: Tab, day: int, code: string, a: nat) returns (e: AttemptEnd)
    ensures a == 0 ==> !e.CutShort?
    ensures var t := AttemptRun(env, h, tab, day, code, a);
      t.trace == h + AttemptEvents(tab, day, VenueId(code), a == 0, e)
      && (t.out == Ok(true) <==> e == DateClicked)
      && (t.out == Ok(false) <==> e.DateMissed?)
      && (t.out.Raise? <==> e.CutShort?)
      && (t.out.Raise? ==> SetupError(t.out.error, code))
  {
    var prep := if a > 0 then RetryRun(env, h, tab, code) else Run(Ok(()), h);
    if a > 0 {
      var stage := RetryShape(env, h, tab, code);
      if prep.out.Raise? {
        return CutShort(stage);
      }
    }
    var seen, clicked := SearchShape(env, prep.trace, tab, day);
    e := if seen && clicked then DateClicked else DateMissed(seen);
  }

  /** The whole loop from attempt `a` on: the events it adds are those of the
      attempts it made, one end per attempt, at most `max - a` of them; it
      returns exactly when the last attempt clicked the date, raises the
      RuntimeError exactly when every attempt up to the last one allowed timed
      out, and otherwise raises what cut the last re-selection short. */
  lemma {:induction false} DateShape(env: Env, h: History, tab: Tab, day: int, code: string, a: nat, max: int)
    returns (ends: seq<AttemptEnd>)
    requires a < max
    ensures ValidEnds(a, ends) && |ends| <= max - a
    ensures var r := DateAttempts(env, h, tab, day, code, a, max);
      var last := ends[|ends| - 1];
      r.trace == h + LoopEvents(tab, day, VenueId(code), a, ends)
      && (r.out.Ok? <==> last == DateClicked)
      && (last.DateMissed? <==> r.out == Raise(DateNotFound(day, max)))
      && (last.DateMissed? ==> |ends| == max - a)
      && (last.CutShort? ==> SetupError(r.out.error, code))
    decreases max - a
  {
    var id := VenueId(code);
    var t := AttemptRun(env, h, tab, day, code, a);
    var e := AttemptShape(env, h, tab, day, code, a);
    if t.out.Raise? || t.out.value || a >= max - 1 {
      ends := [e];
      return;
    }
    var rest := DateShape(env, t.trace, tab, day, code, a + 1, max);
    ends := [e] + rest;
    assert ends[1..] == rest;
    var here := AttemptEvents(tab, day, id, a == 0, e);
    AppendAssoc(h, here, LoopEvents(tab, day, id, a + 1, rest));
  }

  /** With no attempt allowed, the loop does nothing and returns. */
  lemma NoAttempt(env: Env, h: History, tab: Tab, day: int, code: string, max: int)
    requires max <= 0
    ensures DateAttempts(env, h, tab, day, code, 0, max) == Run(Ok(()), h)
  {
  }

  /** What the loop of `select_date` adds to the history, counted, for the
      resolved `day` and a positive `max`, with `k` the number of searches made:
      - on success the date was clicked once, after a reload and a re-selection of
        campus and venue before each of the k <= max searches but the first;
      - the RuntimeError names the day and `max` and comes after exactly `max`
        searches, reloaded and re-selected as on success, with no date click;
      - any other error is a setup error raised while re-selecting, right after
        the k-th reload, k < max, with no date click and one venue re-selection
        fewer than reloads (the campus click may or may not have happened). */
  lemma {:induction false} LoopCounts(env: Env, h: History, tab: Tab, day: int, code: string, max: int)
    returns (k: nat, campus: nat)
    requires max > 0
    ensures var r := DateAttempts(env, h, tab, day, code, 0, max);
      var id := VenueId(code);
      && (r.out.Ok? ==> (1 <= k <= max
            && Count(r.trace, tab, day, id) == Plus(Count(h, tab, day, id), Tally(k - 1, k, 1, k - 1, k - 1))))
      && (r.out == Raise(DateNotFound(day, max)) ==>
            Count(r.trace, tab, day, id) == Plus(Count(h, tab, day, id), Tally(max - 1, max, 0, max - 1, max - 1)))
      && (r.out.Raise? && r.out.error != DateNotFound(day, max) ==> (SetupError(r.out.error, code)
            && 1 <= k < max && k - 1 <= campus <= k
            && Count(r.trace, tab, day, id) == Plus(Count(h, tab, day, id), Tally(k, k, 0, campus, k - 1))))
  {
    var id := VenueId(code);
    var ends := DateShape(env, h, tab, day, code, 0, max);
    var r := DateAttempts(env, h, tab, day, code, 0, max);
    var last := ends[|ends| - 1];
    RunCount(tab, day, id, ends);
    CountAdded(r.trace, h, LoopEvents(tab, day, id, 0, ends), tab, day, id, RunTally(0, |ends|, last));
    if last.CutShort? {
      k := |ends| - 1;
      campus := if last.stage == 0 then k - 1 else k;
    } else {
      k := |ends|;
      campus := 0;
    }
  }

  /** The order of what the loop does, for a positive `max`: the first thing it
      does is wait for the date's cell, with no reload before it, and on success
      the last thing it does is click that cell. */
  lemma LoopOrder(env: Env, h: History, tab: Tab, day: int, code: string, max: int)
    requires max > 0
    ensures var r := DateAttempts(env, h, tab, day, code, 0, max);
      |h| < |r.trace|
      && r.trace[|h|].Waited? && r.trace[|h|].tab == tab && r.trace[|h|].target == DateCell(day)
      && (r.out.Ok? ==> r.trace[|r.trace| - 1] == Clicked(tab, DateCell(day)))
  {
    var ends := DateShape(env, h, tab, day, code, 0, max);
    LoopEdges(tab, day, VenueId(code), 0, ends);
  }
}
