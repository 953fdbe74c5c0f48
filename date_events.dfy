/** The events one run of the date-polling loop of `select_date` adds to the
    history, written out attempt by attempt, and what they add up to: how many
    reloads, date waits, date clicks and re-selections they hold. Nothing here
    reads the page; `DateLoop` ties these histories to the loop itself. */
module DateEvents {
  import opened Web

  /** The events of a completed re-selection. */
  function RetryEvents(tab: Tab, id: string): History {
    var img := VenueImage(id);
    [Reloaded(tab), Clicked(tab, CampusButton), Waited(tab, img, true), Clicked(tab, img)]
  }

  /** The events of a re-selection cut short at stage 0, 1, 2 or 3: at the
      campus button, at an unknown venue code, at the wait for the venue's image,
      or at its click. */
  function AbortEvents(tab: Tab, id: string, stage: nat): History {
    var img := VenueImage(id);
    if stage == 0 then [Reloaded(tab), Missed(tab, CampusButton)]
    else if stage == 1 then [Reloaded(tab), Clicked(tab, CampusButton)]
    else if stage == 2 then [Reloaded(tab), Clicked(tab, CampusButton), Waited(tab, img, false)]
    else [Reloaded(tab), Clicked(tab, CampusButton), Waited(tab, img, true), Missed(tab, img)]
  }

  /** The events of one search: the wait, then the click or the missed click. */
  function SearchEvents(tab: Tab, day: int, seen: bool, clicked: bool): History {
    if seen then [Waited(tab, DateCell(day), true), if clicked then Clicked(tab, DateCell(day)) else Missed(tab, DateCell(day))]
    else [Waited(tab, DateCell(day), false)]
  }

  /** How one attempt ended, as the page answered it. */
  datatype AttemptEnd =
    | CutShort(stage: nat)    // re-selection failed at this stage of `AbortEvents`
    | DateMissed(seen: bool)  // the search timed out, at the wait or at the click
    | DateClicked

  /** The events of one attempt, given how it ended. */
  function AttemptEvents(tab: Tab, day: int, id: string, first: bool, e: AttemptEnd): History {
    var prep := if first then [] else RetryEvents(tab, id);
    match e
    case CutShort(i) => AbortEvents(tab, id, i)
    case DateMissed(seen) => prep + SearchEvents(tab, day, seen, false)
    case DateClicked => prep + SearchEvents(tab, day, true, true)
  }

  /** The ends of a run of attempts from attempt `a` on: at least one; the first
      attempt is never cut short, as it does not re-select; every attempt but the
      last is a timed-out search. */
  predicate ValidEnds(a: nat, ends: seq<AttemptEnd>)
    decreases |ends|
  {
    && ends != []
    && (a == 0 ==> !ends[0].CutShort?)
    && (|ends| > 1 ==> ends[0].DateMissed? && ValidEnds(a + 1, ends[1..]))
  }

  /** The events of the attempts from attempt `a` on, given how each ended. */
  function LoopEvents(tab: Tab, day: int, id: string, a: nat, ends: seq<AttemptEnd>): History
    decreases |ends|
  {
    if ends == [] then []
    else AttemptEvents(tab, day, id, a == 0, ends[0]) + LoopEvents(tab, day, id, a + 1, ends[1..])
  }

  lemma AppendAssoc(t: History, u: History, v: History)
    ensures t + u + v == t + (u + v)
  {
  }

  // ----- counting the events of the loop -----

  /** How many events of each kind the date loop cares about a history holds, on
      one tab, for one day and one venue image id. */
  datatype Tally = Tally(reloads: nat, dateWaits: nat, dateClicks: nat, campusClicks: nat, venueClicks: nat)

  function Plus(x: Tally, y: Tally): Tally {
    Tally(x.reloads + y.reloads, x.dateWaits + y.dateWaits, x.dateClicks + y.dateClicks,
          x.campusClicks + y.campusClicks, x.venueClicks + y.venueClicks)
  }

  function Count(t: History, tab: Tab, day: int, id: string): Tally {
    var m := multiset(t);
    Tally(m[Reloaded(tab)], m[Waited(tab, DateCell(day), true)] + m[Waited(tab, DateCell(day), false)],
          m[Clicked(tab, DateCell(day))], m[Clicked(tab, CampusButton)], m[Clicked(tab, VenueImage(id))])
  }

  lemma CountAppend(t: History, u: History, tab: Tab, day: int, id: string)
    ensures Count(t + u, tab, day, id) == Plus(Count(t, tab, day, id), Count(u, tab, day, id))
  {
    assert multiset(t + u) == multiset(t) + multiset(u);
  }

  /** The tally of one attempt, by how it ended, with k = 1 for every attempt but
      the first: a re-selection cut short reloads once, clicks the campus button
      unless that very click failed, and does nothing with the date; a search adds
      k reloads, campus clicks and venue clicks, one date wait and, when it
      succeeds, the date click. */
  function EndTally(first: bool, e: AttemptEnd): Tally {
    var k := if first then 0 else 1;
    match e
    case CutShort(i) => Tally(1, 0, 0, if i == 0 then 0 else 1, 0)
    case DateMissed(_) => Tally(k, 1, 0, k, k)
    case DateClicked => Tally(k, 1, 1, k, k)
  }

  /** The tally of the attempts from attempt `a` on, by how each ended. */
  function EndsTally(a: nat, ends: seq<AttemptEnd>): Tally
    decreases |ends|
  {
    if ends == [] then Tally(0, 0, 0, 0, 0)
    else Plus(EndTally(a == 0, ends[0]), EndsTally(a + 1, ends[1..]))
  }

  lemma RetryTally(tab: Tab, day: int, id: string)
    ensures Count(RetryEvents(tab, id), tab, day, id) == Tally(1, 0, 0, 1, 1)
  {
  }

  lemma CampusMissedTally(tab: Tab, day: int, id: string)
    ensures Count(AbortEvents(tab, id, 0), tab, day, id) == Tally(1, 0, 0, 0, 0)
  {
  }

  lemma UnknownVenueTally(tab: Tab, day: int, id: string)
    ensures Count(AbortEvents(tab, id, 1), tab, day, id) == Tally(1, 0, 0, 1, 0)
  {
  }

  lemma ImageMissedTally(tab: Tab, day: int, id: string)
    ensures Count(AbortEvents(tab, id, 2), tab, day, id) == Tally(1, 0, 0, 1, 0)
  {
  }

  lemma ImageClickMissedTally(tab: Tab, day: int, id: string)
    ensures Count(AbortEvents(tab, id, 3), tab, day, id) == Tally(1, 0, 0, 1, 0)
  {
  }

  lemma SearchTally(tab: Tab, day: int, id: string, seen: bool, clicked: bool)
    ensures Count(SearchEvents(tab, day, seen, clicked), tab, day, id)
      == Tally(0, 1, if seen && clicked then 1 else 0, 0, 0)
  {
  }

  /** The events of one attempt add up to the tally of how it ended. */
  lemma AttemptTally(tab: Tab, day: int, id: string, first: bool, e: AttemptEnd)
    ensures Count(AttemptEvents(tab, day, id, first, e), tab, day, id) == EndTally(first, e)
  {
    var prep: History := if first then [] else RetryEvents(tab, id);
    match e
    case CutShort(i) =>
      if i == 0 {
        CampusMissedTally(tab, day, id);
      } else if i == 1 {
        UnknownVenueTally(tab, day, id);
      } else if i == 2 {
        ImageMissedTally(tab, day, id);
      } else {
        ImageClickMissedTally(tab, day, id);
      }
    case DateMissed(seen) =>
      if !first {
        RetryTally(tab, day, id);
      }
      SearchTally(tab, day, id, seen, false);
      CountAppend(prep, SearchEvents(tab, day, seen, false), tab, day, id);
    case DateClicked =>
      if !first {
        RetryTally(tab, day, id);
      }
      SearchTally(tab, day, id, true, true);
      CountAppend(prep, SearchEvents(tab, day, true, true), tab, day, id);
  }

  /** The events of the attempts add up to the tally of how they ended. */
  lemma {:induction false} LoopTally(tab: Tab, day: int, id: string, a: nat, ends: seq<AttemptEnd>)
    ensures Count(LoopEvents(tab, day, id, a, ends), tab, day, id) == EndsTally(a, ends)
    decreases |ends|
  {
    if ends != [] {
      LoopTally(tab, day, id, a + 1, ends[1..]);
      AttemptTally(tab, day, id, a == 0, ends[0]);
      CountAppend(AttemptEvents(tab, day, id, a == 0, ends[0]), LoopEvents(tab, day, id, a + 1, ends[1..]), tab, day, id);
    }
  }

  /** The tally of a run of `n` attempts from attempt `a` on, every one but the
      last a timed-out search, in closed form by how the last one ended (r is the
      number of reloads before searches: one per search but the first attempt's):
      a search that timed out or clicked the date; or a re-selection cut short,
      after one more reload, at a stage where the campus click may have failed
      and no venue was clicked. */
  function RunTally(a: nat, n: nat, last: AttemptEnd): Tally
    requires n >= 1 && (a == 0 ==> !last.CutShort? || n > 1)
  {
    var r: nat := if a == 0 then n - 1 else n;
    match last
    case DateMissed(_) => Tally(r, n, 0, r, r)
    case DateClicked => Tally(r, n, 1, r, r)
    case CutShort(i) =>
      var s: nat := r - 1;
      Tally(s + 1, n - 1, 0, s + (if i == 0 then 0 else 1), s)
  }

  /** The tallies of the attempts add up to the closed form. */
  lemma {:induction false} EndsTallyClosed(a: nat, ends: seq<AttemptEnd>)
    requires ValidEnds(a, ends)
    ensures EndsTally(a, ends) == RunTally(a, |ends|, ends[|ends| - 1])
    decreases |ends|
  {
    if |ends| > 1 {
      assert ends[1..][|ends[1..]| - 1] == ends[|ends| - 1];
      EndsTallyClosed(a + 1, ends[1..]);
    }
  }

  /** The events of a whole run, from the first attempt, add up to the closed form. */
  lemma RunCount(tab: Tab, day: int, id: string, ends: seq<AttemptEnd>)
    requires ValidEnds(0, ends)
    ensures Count(LoopEvents(tab, day, id, 0, ends), tab, day, id) == RunTally(0, |ends|, ends[|ends| - 1])
  {
    LoopTally(tab, day, id, 0, ends);
    EndsTallyClosed(0, ends);
  }

  /** Counting what a step appended to a history. */
  lemma CountAdded(t: History, h: History, added: History, tab: Tab, day: int, id: string, n: Tally)
    requires t == h + added && Count(added, tab, day, id) == n
    ensures Count(t, tab, day, id) == Plus(Count(h, tab, day, id), n)
  {
    CountAppend(h, added, tab, day, id);
  }

  /** The first event of a run that starts at the first attempt is the wait for
      the date cell, and a run whose last attempt clicked the date ends with that
      click. */
  lemma {:induction false} LoopEdges(tab: Tab, day: int, id: string, a: nat, ends: seq<AttemptEnd>)
    requires ValidEnds(a, ends)
    ensures var t := LoopEvents(tab, day, id, a, ends);
      t != []
      && (a == 0 ==> t[0] == Waited(tab, DateCell(day), ends[0] != DateMissed(false)))
      && (ends[|ends| - 1] == DateClicked ==> t[|t| - 1] == Clicked(tab, DateCell(day)))
    decreases |ends|
  {
    if |ends| > 1 {
      LoopEdges(tab, day, id, a + 1, ends[1..]);
    }
  }
}
