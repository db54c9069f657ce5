/**
 * The month calendar beside the exhibition list
 * (src/components/exhibitions/ExhibitionsCalendar.tsx): which days have an
 * exhibition, how many, which day is selected, selecting and deselecting a
 * day, moving between months and the grid of day buttons.
 */
module ExhibitionsCalendar {
  import opened Wrappers
  import opened Seqs
  import opened Dates
  import Database
  import opened Exhibitions

  /** `exhibitions.some(...)`: some exhibition runs on `date`, both ends included. */
  predicate HasExhibition(list: seq<Exhibition>, date: Day) {
    exists i | 0 <= i < |list| :: OnDate(list[i], Some(date))
  }

  /** `exhibitions.filter(...).length`: how many exhibitions run on `date`. */
  function ExhibitionCount(list: seq<Exhibition>, date: Day): (n: nat)
    ensures n <= |list|
    ensures n > 0 <==> HasExhibition(list, date)
  {
    CountPositive(list, DateOk(Some(date)));
    Count(list, DateOk(Some(date)))
  }

  /**
   * A day's count is the number of exhibitions the page lists once that day is
   * selected with every status and no search text.
   */
  lemma CountMatchesPageFilter(list: seq<Exhibition>, date: Day, now: int)
    ensures ExhibitionCount(list, date) == |FilterView(list, Some(date), All, "", now)|
  {
    FilterExtensional(list, DateOk(Some(date)), Admit(Some(date), All, "", now));
  }

  /** The day is selected: same day of the month, same month, same year. */
  function IsSelectedDate(date: Day, selected: Option<Day>): (r: bool)
    ensures r <==> selected == Some(date)
  {
    selected.Some?
    && date.day == selected.value.day
    && date.month == selected.value.month
    && date.year == selected.value.year
  }

  /**
   * A cell of the month grid: a blank before the first day, or a day button.
   * `count` is the exhibition count the page computes for the day; the button
   * renders only the day number, so the count is never shown.
   */
  datatype Cell = Blank | DayButton(day: int, disabled: bool, count: nat, selected: bool)

  /**
   * The calendar of the month shown. The selected day and the exhibitions are
   * inputs owned by the page; moving between months changes only `year` and
   * `month`.
   */
  class Calendar {
    var year: int
    var month: int

    predicate Valid()
      reads this
    {
      0 <= month < 12
    }

    /** Opens on the month of `today`. */
    constructor(today: Day)
      ensures Valid()
      ensures year == today.year && month == today.month
    {
      year := today.year;
      month := today.month;
    }

    /** Moves to the month before, going back from January to December of the year before. */
    method PrevMonth()
      requires Valid()
      modifies this
      ensures Valid()
      ensures 12 * year + month == 12 * old(year) + old(month) - 1
    {
      var p := PrevMonthOf(year, month);
      year, month := p.0, p.1;
    }

    /** Moves to the month after, going on from December to January of the year after. */
    method NextMonth()
      requires Valid()
      modifies this
      ensures Valid()
      ensures 12 * year + month == 12 * old(year) + old(month) + 1
    {
      var n := NextMonthOf(year, month);
      year, month := n.0, n.1;
    }

    /** The date of button `day` of the month shown. */
    function DateOf(day: int): (d: Day)
      reads this
      requires Valid() && 1 <= day <= DaysInMonth(year, month)
      ensures d.year == year && d.month == month && d.day == day
    {
      CivilDate(year, month, day)
    }

    /**
     * Clicking day `day`: `None` when the day has no exhibition (nothing is
     * reported), otherwise the new selection, which clears the day when it is
     * the selected one and selects it otherwise.
     */
    function SelectDate(list: seq<Exhibition>, selected: Option<Day>, day: int): (r: Option<Option<Day>>)
      reads this
      requires Valid() && 1 <= day <= DaysInMonth(year, month)
      ensures r.None? <==> !HasExhibition(list, DateOf(day))
      ensures r.Some? ==> (r.value.None? <==> selected == Some(DateOf(day)))
      ensures r.Some? && r.value.Some? ==> r.value.value == DateOf(day)
    {
      var date := DateOf(day);
      if HasExhibition(list, date) then
        Some(if IsSelectedDate(date, selected) then None else Some(date))
      else None
    }

    /** Clicking a day that was not selected selects it; clicking it again clears the selection. */
    lemma SelectTwiceClears(list: seq<Exhibition>, selected: Option<Day>, day: int)
      requires Valid() && 1 <= day <= DaysInMonth(year, month)
      requires HasExhibition(list, DateOf(day)) && selected != Some(DateOf(day))
      ensures SelectDate(list, selected, day) == Some(Some(DateOf(day)))
      ensures SelectDate(list, SelectDate(list, selected, day).value, day) == Some(None)
    {
    }

    /**
     * The button of day `day`: disabled when no exhibition runs that day and
     * marked when it is the selected day. It also carries the count the page
     * computes for the day, which the button does not render.
     */
    function DayCell(list: seq<Exhibition>, selected: Option<Day>, day: int): (c: Cell)
      reads this
      requires Valid() && 1 <= day <= DaysInMonth(year, month)
      ensures c.DayButton? && c.day == day
      ensures c.count == ExhibitionCount(list, DateOf(day))
      ensures c.disabled <==> !HasExhibition(list, DateOf(day))
      ensures c.selected <==> selected == Some(DateOf(day))
    {
      var date := DateOf(day);
      DayButton(day, !HasExhibition(list, date), ExhibitionCount(list, date), IsSelectedDate(date, selected))
    }

    /** The buttons for days `from` to the last day of the month shown. */
    function DayButtons(list: seq<Exhibition>, selected: Option<Day>, from: int): (cells: seq<Cell>)
      reads this
      requires Valid() && 1 <= from
      ensures |cells| == if from <= DaysInMonth(year, month) then DaysInMonth(year, month) - from + 1 else 0
      ensures forall k :: 0 <= k < |cells| ==> cells[k] == DayCell(list, selected, from + k)
      decreases DaysInMonth(year, month) - from
    {
      if from > DaysInMonth(year, month) then []
      else [DayCell(list, selected, from)] + DayButtons(list, selected, from + 1)
    }

    /** The weekday of the first of the month shown: 0 for Sunday. */
    function FirstDayOfMonth(): (w: int)
      reads this
      requires Valid()
      ensures 0 <= w < 7
    {
      Weekday(CivilDate(year, month, 1))
    }

    /**
     * The grid: one blank per weekday before the first of the month, then one
     * button per day of the month.
     */
    function Grid(list: seq<Exhibition>, selected: Option<Day>): (cells: seq<Cell>)
      reads this
      requires Valid()
      ensures |cells| == FirstDayOfMonth() + DaysInMonth(year, month)
      ensures forall k :: 0 <= k < FirstDayOfMonth() ==> cells[k] == Blank
      ensures forall k :: FirstDayOfMonth() <= k < |cells| ==>
        cells[k].DayButton? && cells[k].day == k - FirstDayOfMonth() + 1
    {
      seq(FirstDayOfMonth(), _ => Blank) + DayButtons(list, selected, 1)
    }

    /** Each day's button sits in the column of its weekday. */
    lemma GridColumnIsWeekday(list: seq<Exhibition>, selected: Option<Day>, k: int)
      requires Valid() && FirstDayOfMonth() <= k < |Grid(list, selected)|
      ensures k % 7 == Weekday(DateOf(Grid(list, selected)[k].day))
    {
      var first := FirstDayOfMonth();
      var d := k - first + 1;
      assert Grid(list, selected)[k].day == d;
      WeekdayInMonth(year, month, d);
    }

    /** A day button is disabled exactly when no exhibition runs on that day. */
    lemma DisabledIffNoExhibition(list: seq<Exhibition>, selected: Option<Day>, k: int)
      requires Valid() && FirstDayOfMonth() <= k < |Grid(list, selected)|
      ensures var c := Grid(list, selected)[k];
        c.disabled <==> c.count == 0
    {
      var cells := DayButtons(list, selected, 1);
      assert Grid(list, selected)[k] == cells[k - FirstDayOfMonth()];
      assert cells[k - FirstDayOfMonth()] == DayCell(list, selected, k - FirstDayOfMonth() + 1);
    }
  }

  /**
   * An exhibition whose last day is `d` and whose end is stored as the start of
   * that day: the calendar marks `d` and the page keeps it when `d` is
   * selected, yet from the first millisecond of `d` on it is classified ended.
   */
  lemma EndDayBoundary(e: Exhibition, d: Day)
    requires e.start <= e.end && e.end == MidnightOf(d)
    ensures HasExhibition([e], d)
    ensures StatusOf(e, MidnightOf(d) + 1) == Database.Ended
  {
    assert OnDate([e][0], Some(d));
  }
}
