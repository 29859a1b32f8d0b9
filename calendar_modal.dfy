/** The date-range picker (src/components/CalendarModal.tsx): a local start
    and end chosen by clicks on the days of the shown month, written to the
    workspace store on apply and cleared on reset. A date is the integer
    number of its day, so later days are larger. */
module CalendarModal {
  import opened Wrappers
  import opened Domain
  import AppSlice

  /** The local `startDate` and `endDate`, each a date or null. */
  datatype Selection = Selection(start: Option<int>, end: Option<int>)

  /** When both bounds are chosen the start is not after the end. */
  predicate Ordered(sel: Selection) {
    sel.start.Some? && sel.end.Some? ==> sel.start.value <= sel.end.value
  }

  /** `handleDateClick` on the date `clicked`. After any click a start is
      chosen and the selection is ordered, whatever it was before; a click
      either sets the end to the clicked date and keeps the start, or makes
      the clicked date the start of a range without end. */
  function Click(sel: Selection, clicked: int): (r: Selection)
    ensures r.start.Some? && Ordered(r)
    ensures r.end.Some? ==> r.end == Some(clicked) && r.start == sel.start && sel.end.None?
    ensures r.end.None? ==> r.start == Some(clicked)
  {
    if sel.start.None? || sel.end.Some? then Selection(Some(clicked), None)
    else if clicked < sel.start.value then sel.(start := Some(clicked))
    else sel.(end := Some(clicked))
  }

  /** The three branches: no start, or a complete range, starts afresh; with
      only a start, an earlier date moves the start and a later or equal one
      completes the range. */
  lemma ClickCases(sel: Selection, clicked: int)
    ensures sel.start.None? || sel.end.Some? ==> Click(sel, clicked) == Selection(Some(clicked), None)
    ensures sel.start.Some? && sel.end.None? && clicked < sel.start.value ==>
      Click(sel, clicked) == Selection(Some(clicked), None)
    ensures sel.start.Some? && sel.end.None? && clicked >= sel.start.value ==>
      Click(sel, clicked) == Selection(sel.start, Some(clicked))
  {
  }

  /** Any run of clicks, from any selection, ends in an ordered selection
      with a start, unless there were no clicks. */
  function Clicks(sel: Selection, days: seq<int>): Selection
    decreases |days|
  {
    if days == [] then sel else Clicks(Click(sel, days[0]), days[1..])
  }

  lemma {:induction false} ClicksOrdered(sel: Selection, days: seq<int>)
    requires Ordered(sel)
    ensures Ordered(Clicks(sel, days))
    ensures days != [] ==> Clicks(sel, days).start.Some?
    decreases |days|
  {
    if days != [] {
      ClicksOrdered(Click(sel, days[0]), days[1..]);
    }
  }

  /** Two clicks on a fresh picker, the second not earlier, choose exactly
      that range; a third click starts over. */
  lemma TwoClicksChooseRange(first: int, second: int, third: int)
    requires first <= second
    ensures Clicks(Selection(None, None), [first, second]) == Selection(Some(first), Some(second))
    ensures Clicks(Selection(None, None), [first, second, third]) == Selection(Some(third), None)
  {
    var s1 := Click(Selection(None, None), first);
    var s2 := Click(s1, second);
    var s3 := Click(s2, third);
    assert s1 == Selection(Some(first), None);
    assert s2 == Selection(Some(first), Some(second));
    assert Clicks(s1, [second]) == Clicks(s2, []) == s2 by {
      assert [second][1..] == [];
    }
    assert Clicks(s2, [third]) == s3 by {
      assert [third][1..] == [];
    }
    assert [first, second][1..] == [second];
    assert [first, second, third][1..] == [second, third];
    assert Clicks(s1, [second, third]) == Clicks(s2, [third]) by {
      assert [second, third][1..] == [third];
    }
  }

  /** `(firstDayOfMonth + 6) % 7`: the column of the first day in a week that
      starts on Monday, from JavaScript's `getDay()` (Sunday 0 … Saturday 6).
      Monday is column 0, Sunday column 6, and the column determines the
      weekday back. */
  function StartDay(firstDay: int): (d: int)
    requires 0 <= firstDay < 7
    ensures 0 <= d < 7
    ensures (d + 1) % 7 == firstDay
    ensures firstDay == 1 ==> d == 0
    ensures firstDay == 0 ==> d == 6
  {
    (firstDay + 6) % 7
  }

  /** The day cell's highlight tests: `isStart` and `isEnd` compare for
      equality, `isInRange` is strictly inside a complete range, and the hover
      shading runs from after the start up to the hovered date while no end
      is chosen. */
  predicate IsStart(date: int, sel: Selection) {
    sel.start == Some(date)
  }

  predicate IsEnd(date: int, sel: Selection) {
    sel.end == Some(date)
  }

  predicate IsInRange(date: int, sel: Selection) {
    sel.start.Some? && sel.end.Some? && sel.start.value < date < sel.end.value
  }

  predicate IsHoverInRange(date: int, sel: Selection, hover: Option<int>) {
    sel.start.Some? && sel.end.None? && hover.Some? && sel.start.value < date <= hover.value
  }

  /** For a complete ordered range the marked cells are exactly the days from
      start to end inclusive, a cell strictly inside is neither end, and no
      hover shading is shown. */
  lemma HighlightCoversRange(date: int, sel: Selection, hover: Option<int>)
    requires Ordered(sel) && sel.start.Some? && sel.end.Some?
    ensures IsStart(date, sel) || IsEnd(date, sel) || IsInRange(date, sel) <==>
      sel.start.value <= date <= sel.end.value
    ensures IsInRange(date, sel) ==> !IsStart(date, sel) && !IsEnd(date, sel)
    ensures !IsHoverInRange(date, sel, hover)
  {
  }

  class Modal {
    /** The date of day 1 of the month on show (`currentDate`). */
    var monthStart: int
    var startDate: Option<int>
    var endDate: Option<int>

    function Selected(): Selection
      reads this
    {
      Selection(startDate, endDate)
    }

    /** `useState(new Date())`: the month on show is the current one. Only
        its year and month are ever read, so the field keeps day 1 of it:
        `today` less the days before it in its month. */
    constructor (today: int, dayOfMonth: int)
      requires 1 <= dayOfMonth
      ensures monthStart == today - dayOfMonth + 1 && startDate.None? && endDate.None?
      ensures monthStart + dayOfMonth - 1 == today
    {
      monthStart, startDate, endDate := today - dayOfMonth + 1, None, None;
    }

    /** The effect on `isCalendarOpen`: the local bounds are copied from the
        store's date range, a missing bound giving null. */
    method Sync(store: AppSlice.AppStore)
      modifies this
      ensures Selected() == Selection(store.dateRange.startDate, store.dateRange.endDate)
      ensures monthStart == old(monthStart)
    {
      startDate, endDate := store.dateRange.startDate, store.dateRange.endDate;
    }

    /** `handleDateClick(day)` on the day `day` of the shown month. */
    method DateClick(day: int)
      modifies this
      ensures Selected() == Click(old(Selected()), old(monthStart) + day - 1)
      ensures monthStart == old(monthStart)
    {
      var clicked := monthStart + day - 1;
      if startDate.None? || endDate.Some? {
        startDate, endDate := Some(clicked), None;
      } else if clicked < startDate.value {
        startDate := Some(clicked);
      } else {
        endDate := Some(clicked);
      }
    }

    /** `handleApplyFilter`: both local bounds, nulls included, become the
        store's date range, and then the calendar closes. */
    method ApplyFilter(store: AppSlice.AppStore)
      modifies store
      ensures store.State() == AppSlice.Reduce(
        AppSlice.Reduce(old(store.State()), AppSlice.SetDateRange(DateRange(startDate, endDate)), 0),
        AppSlice.CloseCalendar, 0)
      ensures store.dateRange == DateRange(startDate, endDate) && !store.isCalendarOpen
      ensures store.patient == old(store.patient) && store.messages == old(store.messages)
    {
      store.SetDateRange(DateRange(startDate, endDate));
      store.CloseCalendar();
    }

    /** `handleReset`: both local bounds and both store bounds become null;
        the calendar stays open. */
    method Reset(store: AppSlice.AppStore)
      modifies this, store
      ensures startDate.None? && endDate.None? && monthStart == old(monthStart)
      ensures store.State() == AppSlice.Reduce(old(store.State()), AppSlice.SetDateRange(NoRange), 0)
      ensures store.dateRange == NoRange && store.isCalendarOpen == old(store.isCalendarOpen)
    {
      startDate, endDate := None, None;
      store.SetDateRange(NoRange);
    }
  }
}
