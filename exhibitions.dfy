/**
 * The public exhibitions page (src/app/exhibitions/page.tsx): the status
 * classifier, the status-rank sort applied in place to the fetched rows,
 * the three-stage filter and the per-status counts.
 *
 * Instants are integers on one millisecond timeline; a selected calendar day
 * is compared as the instant it begins. `now` is a parameter
 * in place of the clock read the page makes on every classification.
 */
module Exhibitions {
  import opened Wrappers
  import opened Strings
  import opened Seqs
  import opened Database
  import opened Dates

  /** One row of the `exhibitions` table, with its dates read as instants. */
  datatype Exhibition = Exhibition(
    id: string,
    title: string,
    location: string,
    description: Option<string>,
    start: int,
    end: int,
    thumbnailUrl: Option<string>,
    createdAt: string)

  // ---------------------------------------------------------------------------
  // Status

  /** Before the start an exhibition is upcoming, after the end it has ended, otherwise it is on. */
  function Classify(start: int, end: int, now: int): (s: ExhibitionStatus)
    ensures s == Upcoming <==> now < start
    ensures s == Ended <==> start <= now && end < now
    ensures s == Ongoing <==> start <= now <= end
  {
    if now < start then Upcoming
    else if now > end then Ended
    else Ongoing
  }

  function StatusOf(e: Exhibition, now: int): ExhibitionStatus {
    Classify(e.start, e.end, now)
  }

  /** Position of a status in an exhibition's life: upcoming, then ongoing, then ended. */
  function Phase(s: ExhibitionStatus): nat {
    match s
    case Upcoming => 0
    case Ongoing => 1
    case Ended => 2
  }

  /** As time passes an exhibition's status only moves forward, never back. */
  lemma ClassifyMonotone(start: int, end: int, now1: int, now2: int)
    requires now1 <= now2
    ensures Phase(Classify(start, end, now1)) <= Phase(Classify(start, end, now2))
  {
  }

  /** The label shown for a status name; any other text is shown as it is. */
  function StatusLabel(status: string): (shown: string)
    ensures ParseStatus(status).None? ==> shown == status
    ensures ParseStatus(status).Some? ==> shown != status
  {
    if status == "ongoing" then "진행중"
    else if status == "upcoming" then "예정"
    else if status == "ended" then "종료"
    else status
  }

  /** The three statuses get three different labels. */
  lemma StatusLabelsDistinct(s: ExhibitionStatus, t: ExhibitionStatus)
    requires s != t
    ensures StatusLabel(StatusName(s)) != StatusLabel(StatusName(t))
  {
  }

  // ---------------------------------------------------------------------------
  // Sort order

  /** Sort rank: ongoing exhibitions first, then upcoming, then ended. */
  function StatusRank(s: ExhibitionStatus): (k: nat)
    ensures k < 3
    ensures s == Ongoing <==> k == 0
    ensures s == Upcoming <==> k == 1
  {
    match s
    case Ongoing => 0
    case Upcoming => 1
    case Ended => 2
  }

  function Rank(e: Exhibition, now: int): nat {
    StatusRank(StatusOf(e, now))
  }

  /** The sort comparator: a negative result puts `a` first. */
  function Compare(a: Exhibition, b: Exhibition, now: int): int {
    var statusDiff := Rank(a, now) - Rank(b, now);
    if statusDiff != 0 then statusDiff else b.start - a.start
  }

  /** `a` goes first iff its status ranks lower, or the ranks tie and `a` starts later. */
  lemma CompareMeaning(a: Exhibition, b: Exhibition, now: int)
    ensures Compare(a, b, now) < 0 <==>
      Rank(a, now) < Rank(b, now) || (Rank(a, now) == Rank(b, now) && a.start > b.start)
    ensures Compare(a, b, now) == 0 <==> Rank(a, now) == Rank(b, now) && a.start == b.start
    ensures Compare(a, b, now) > 0 <==> Compare(b, a, now) < 0
  {
  }

  predicate Sorted(s: seq<Exhibition>, now: int) {
    forall i, j :: 0 <= i < j < |s| ==> Compare(s[i], s[j], now) <= 0
  }

  /**
   * In a sorted list every ongoing exhibition comes before every upcoming one,
   * every upcoming one before every ended one, and within one status the later
   * start comes first.
   */
  lemma SortedMeaning(s: seq<Exhibition>, now: int, i: int, j: int)
    requires Sorted(s, now) && 0 <= i < j < |s|
    ensures Rank(s[i], now) <= Rank(s[j], now)
    ensures StatusOf(s[i], now) == StatusOf(s[j], now) ==> s[i].start >= s[j].start
  {
    assert Compare(s[i], s[j], now) <= 0;
    CompareMeaning(s[i], s[j], now);
  }

  /**
   * `Array.prototype.sort` as insertion sort: `x` goes after the last element
   * that does not compare greater than it, so equal keys keep their order.
   */
  function Insert(s: seq<Exhibition>, x: Exhibition, now: int): (r: seq<Exhibition>)
    ensures |r| == |s| + 1
  {
    if s == [] then [x]
    else if Compare(s[|s| - 1], x, now) <= 0 then s + [x]
    else Insert(s[..|s| - 1], x, now) + [s[|s| - 1]]
  }

  /** The fetched rows in the order the page shows them. */
  function SortedView(s: seq<Exhibition>, now: int): (r: seq<Exhibition>)
    ensures |r| == |s|
  {
    if s == [] then []
    else Insert(SortedView(s[..|s| - 1], now), s[|s| - 1], now)
  }

  lemma {:induction false} InsertPermutes(s: seq<Exhibition>, x: Exhibition, now: int)
    ensures multiset(Insert(s, x, now)) == multiset(s) + multiset{x}
  {
    if s != [] && Compare(s[|s| - 1], x, now) > 0 {
      InsertPermutes(s[..|s| - 1], x, now);
      assert s == s[..|s| - 1] + [s[|s| - 1]];
    }
  }

  /** Sorting neither loses nor duplicates an exhibition: it is a permutation. */
  lemma {:induction false} SortedViewPermutes(s: seq<Exhibition>, now: int)
    ensures multiset(SortedView(s, now)) == multiset(s)
  {
    if s != [] {
      SortedViewPermutes(s[..|s| - 1], now);
      InsertPermutes(SortedView(s[..|s| - 1], now), s[|s| - 1], now);
      assert s == s[..|s| - 1] + [s[|s| - 1]];
    }
  }

  lemma CompareTransitive(a: Exhibition, b: Exhibition, c: Exhibition, now: int)
    requires Compare(a, b, now) <= 0 && Compare(b, c, now) <= 0
    ensures Compare(a, c, now) <= 0
  {
    CompareMeaning(a, b, now);
    CompareMeaning(b, c, now);
    CompareMeaning(a, c, now);
  }

  lemma {:induction false} InsertSorted(s: seq<Exhibition>, x: Exhibition, now: int)
    requires Sorted(s, now)
    ensures Sorted(Insert(s, x, now), now)
  {
    if s != [] {
      var last := s[|s| - 1];
      var init := s[..|s| - 1];
      if Compare(last, x, now) <= 0 {
        var r := s + [x];
        forall i, j | 0 <= i < j < |r| ensures Compare(r[i], r[j], now) <= 0 {
          if j == |s| && i < |s| - 1 {
            CompareTransitive(s[i], last, x, now);
          }
        }
      } else {
        InsertSorted(init, x, now);
        InsertPermutes(init, x, now);
        var r := Insert(init, x, now);
        forall k | 0 <= k < |r| ensures Compare(r[k], last, now) <= 0 {
          assert r[k] in multiset(r);
          if r[k] != x {
            assert r[k] in multiset(init);
            var m :| 0 <= m < |init| && init[m] == r[k];
            assert Compare(s[m], s[|s| - 1], now) <= 0;
          }
        }
        var t := r + [last];
        forall i, j | 0 <= i < j < |t| ensures Compare(t[i], t[j], now) <= 0 {
          if j == |r| {
            assert t[i] == r[i];
          }
        }
      }
    }
  }

  /** The page's order: ongoing, upcoming, ended, and the later start first within each. */
  lemma {:induction false} SortedViewSorted(s: seq<Exhibition>, now: int)
    ensures Sorted(SortedView(s, now), now)
  {
    if s != [] {
      SortedViewSorted(s[..|s| - 1], now);
      InsertSorted(SortedView(s[..|s| - 1], now), s[|s| - 1], now);
    }
  }

  /** The exhibitions that share `x`'s sort key. */
  function SameKey(x: Exhibition, now: int): Exhibition -> bool {
    e => Compare(e, x, now) == 0
  }

  lemma FilterSingleton(z: Exhibition, p: Exhibition -> bool)
    ensures Filter([z], p) == if p(z) then [z] else []
  {
    assert [z][1..] == [];
  }

  /** Two exhibitions that share `x`'s key share each other's key. */
  lemma SameKeyShared(a: Exhibition, b: Exhibition, x: Exhibition, now: int)
    requires SameKey(x, now)(a) && SameKey(x, now)(b)
    ensures Compare(a, b, now) == 0
  {
    CompareMeaning(a, x, now);
    CompareMeaning(b, x, now);
    CompareMeaning(a, b, now);
  }

  lemma FilterSwap(y: Exhibition, z: Exhibition, p: Exhibition -> bool)
    requires !(p(y) && p(z))
    ensures Filter([y], p) + Filter([z], p) == Filter([z], p) + Filter([y], p)
  {
    FilterSingleton(y, p);
    FilterSingleton(z, p);
  }

  /** Insertion keeps the relative order of any group of exhibitions that share one key. */
  lemma {:induction false} InsertStable(s: seq<Exhibition>, y: Exhibition, p: Exhibition -> bool, now: int)
    requires forall a, b :: p(a) && p(b) ==> Compare(a, b, now) == 0
    ensures Filter(Insert(s, y, now), p) == Filter(s + [y], p)
  {
    if s != [] && Compare(s[|s| - 1], y, now) > 0 {
      var last := s[|s| - 1];
      var init := s[..|s| - 1];
      InsertStable(init, y, p, now);
      assert !(p(y) && p(last));
      FilterSwap(y, last, p);
      assert Insert(s, y, now) == Insert(init, y, now) + [last];
      calc {
        Filter(Insert(s, y, now), p);
        { FilterConcat(Insert(init, y, now), [last], p); }
        Filter(init + [y], p) + Filter([last], p);
        { FilterConcat(init, [y], p); }
        Filter(init, p) + Filter([y], p) + Filter([last], p);
        Filter(init, p) + Filter([last], p) + Filter([y], p);
        { FilterConcat(init, [last], p); assert init + [last] == s; }
        Filter(s, p) + Filter([y], p);
        { FilterConcat(s, [y], p); }
        Filter(s + [y], p);
      }
    }
  }

  /**
   * The sort is stable: exhibitions with the same status and the same start
   * keep the order in which the server returned them.
   */
  lemma {:induction false} SortedViewStable(s: seq<Exhibition>, x: Exhibition, now: int)
    ensures Filter(SortedView(s, now), SameKey(x, now)) == Filter(s, SameKey(x, now))
  {
    var p := SameKey(x, now);
    if s != [] {
      var init := s[..|s| - 1];
      forall a, b | p(a) && p(b) ensures Compare(a, b, now) == 0 {
        SameKeyShared(a, b, x, now);
      }
      SortedViewStable(init, x, now);
      InsertStable(SortedView(init, now), s[|s| - 1], p, now);
      FilterConcat(SortedView(init, now), [s[|s| - 1]], p);
      FilterConcat(init, [s[|s| - 1]], p);
      assert s == init + [s[|s| - 1]];
    }
  }

  /** One shift of the insertion loop: `x` belongs before `sorted[j - 1]`. */
  lemma InsertShift(sorted: seq<Exhibition>, x: Exhibition, j: int, now: int)
    requires 0 < j <= |sorted| && Compare(sorted[j - 1], x, now) > 0
    ensures Insert(sorted[..j], x, now) + sorted[j..] == Insert(sorted[..j - 1], x, now) + sorted[j - 1..]
  {
    assert sorted[..j][..j - 1] == sorted[..j - 1];
    assert Insert(sorted[..j], x, now) == Insert(sorted[..j - 1], x, now) + [sorted[j - 1]];
    assert [sorted[j - 1]] + sorted[j..] == sorted[j - 1..];
  }

  /** The insertion loop stops where `x` belongs: after the prefix it scanned past. */
  lemma InsertStop(sorted: seq<Exhibition>, x: Exhibition, j: int, now: int)
    requires 0 <= j <= |sorted| && (j == 0 || Compare(sorted[j - 1], x, now) <= 0)
    ensures Insert(sorted[..j], x, now) == sorted[..j] + [x]
  {
  }

  /**
   * Scans the sorted prefix `a[..i]` from its end for the place of `x`: just
   * after the last element that does not compare greater than `x`.
   */
  method FindSlot(a: array<Exhibition>, i: int, x: Exhibition, now: int) returns (j: int)
    requires 0 <= i <= a.Length
    ensures 0 <= j <= i
    ensures Insert(a[..i], x, now) == a[..j] + [x] + a[j..i]
  {
    ghost var sorted := a[..i];
    j := i;
    assert sorted[..j] == sorted && sorted[j..] == [];
    while j > 0 && Compare(a[j - 1], x, now) > 0
      invariant 0 <= j <= i
      invariant Insert(sorted, x, now) == Insert(sorted[..j], x, now) + sorted[j..]
    {
      InsertShift(sorted, x, j, now);
      j := j - 1;
    }
    InsertStop(sorted, x, j, now);
    assert sorted[..j] == a[..j] && sorted[j..] == a[j..i];
  }

  /** Moves `a[j..i]` one place to the right, onto `a[j + 1..i + 1]`; the rest stays. */
  method ShiftRight(a: array<Exhibition>, j: int, i: int)
    requires 0 <= j <= i < a.Length
    modifies a
    ensures forall m :: 0 <= m <= j ==> a[m] == old(a[m])
    ensures forall m :: j <= m < i ==> a[m + 1] == old(a[m])
    ensures forall m :: i < m < a.Length ==> a[m] == old(a[m])
  {
    var k := i;
    while k > j
      invariant j <= k <= i
      invariant forall m :: 0 <= m <= k ==> a[m] == old(a[m])
      invariant forall m :: k <= m < i ==> a[m + 1] == old(a[m])
      invariant forall m :: i < m < a.Length ==> a[m] == old(a[m])
    {
      a[k] := a[k - 1];
      k := k - 1;
    }
  }

  /** Moves `a[i]` left past the greater elements of the sorted prefix `a[..i]`. */
  method InsertAt(a: array<Exhibition>, i: int, now: int)
    requires 0 <= i < a.Length
    modifies a
    ensures a[..i + 1] == Insert(old(a[..i]), old(a[i]), now)
    ensures a[i + 1..] == old(a[i + 1..])
  {
    var x := a[i];
    var j := FindSlot(a, i, x, now);
    ghost var before := a[..];
    ShiftRight(a, j, i);
    a[j] := x;
    assert a[..i + 1] == before[..j] + [x] + before[j..i] by {
      forall m | 0 <= m <= i
        ensures a[m] == (before[..j] + [x] + before[j..i])[m]
      {
        if m > j {
          assert a[(m - 1) + 1] == before[m - 1];
        }
      }
    }
    assert a[i + 1..] == before[i + 1..];
  }

  /** Sorts the fetched rows in place, as `data.sort(comparator)` does. */
  method SortInPlace(a: array<Exhibition>, now: int)
    modifies a
    ensures a[..] == SortedView(old(a[..]), now)
  {
    ghost var original := a[..];
    var i := 0;
    while i < a.Length
      invariant 0 <= i <= a.Length
      invariant a[..i] == SortedView(original[..i], now)
      invariant a[i..] == original[i..]
    {
      assert original[..i + 1][..i] == original[..i];
      InsertAt(a, i, now);
      i := i + 1;
    }
    assert a[..] == a[..a.Length] && original == original[..a.Length];
  }
  // ---------------------------------------------------------------------------
  // Filters

  /** The status choice of the page: all statuses, or one. */
  datatype StatusFilter = All | Only(status: ExhibitionStatus)

  /** `e.title`, `e.location` or a present `e.description` contains `term`, ignoring case. */
  predicate Matches(e: Exhibition, term: string) {
    ContainsIgnoringCase(e.title, term)
    || ContainsIgnoringCase(e.location, term)
    || (e.description.Some? && ContainsIgnoringCase(e.description.value, term))
  }

  /** Date stage: with a selected day, the exhibition runs on it, both ends included. */
  predicate OnDate(e: Exhibition, date: Option<Day>) {
    date.None? || e.start <= MidnightOf(date.value) <= e.end
  }

  /** Status stage: with a chosen status, the exhibition has it now. */
  predicate HasChosenStatus(e: Exhibition, status: StatusFilter, now: int) {
    status.All? || StatusOf(e, now) == status.status
  }

  /** Search stage: with a non-empty term, the exhibition matches it. */
  predicate Found(e: Exhibition, term: string) {
    term == "" || Matches(e, term)
  }

  function DateOk(date: Option<Day>): Exhibition -> bool {
    e => OnDate(e, date)
  }

  function StatusOk(status: StatusFilter, now: int): Exhibition -> bool {
    e => HasChosenStatus(e, status, now)
  }

  function SearchOk(term: string): Exhibition -> bool {
    e => Found(e, term)
  }

  function DateStatusOk(date: Option<Day>, status: StatusFilter, now: int): Exhibition -> bool {
    e => OnDate(e, date) && HasChosenStatus(e, status, now)
  }

  /** An exhibition passes all three stages. */
  function Admit(date: Option<Day>, status: StatusFilter, term: string, now: int): Exhibition -> bool {
    e => OnDate(e, date) && HasChosenStatus(e, status, now) && Found(e, term)
  }

  /** What the page lists: the exhibitions that pass every stage, in their order. */
  function FilterView(list: seq<Exhibition>, date: Option<Day>, status: StatusFilter, term: string, now: int): seq<Exhibition> {
    Filter(list, Admit(date, status, term, now))
  }

  /** The filtered list is an order-preserving subsequence of the fetched list. */
  lemma FilterViewSubseq(list: seq<Exhibition>, date: Option<Day>, status: StatusFilter, term: string, now: int)
    ensures Subseq(FilterView(list, date, status, term, now), list)
  {
    FilterIsSubseq(list, Admit(date, status, term, now));
  }

  /** With no day, every status and no search text, the whole list is shown. */
  lemma FilterViewNoFilters(list: seq<Exhibition>, now: int)
    ensures FilterView(list, None, All, "", now) == list
  {
    FilterKeepsAll(list, Admit(None, All, "", now));
  }

  /**
   * An exhibition is listed iff it was fetched, runs on the selected day (both
   * ends included), has the selected status, and matches the search text.
   */
  lemma FilterViewMembers(list: seq<Exhibition>, date: Option<Day>, status: StatusFilter, term: string, now: int, e: Exhibition)
    ensures e in FilterView(list, date, status, term, now) <==>
      e in list
      && (date.Some? ==> e.start <= MidnightOf(date.value) <= e.end)
      && (status.Only? ==> StatusOf(e, now) == status.status)
      && (term != "" ==> Matches(e, term))
  {
    FilterMembership(list, Admit(date, status, term, now), e);
  }

  /** A missing description never matches: such an exhibition is found by title or location only. */
  lemma NoDescriptionNeverMatches(e: Exhibition, term: string)
    requires e.description.None?
    ensures Matches(e, term) <==> ContainsIgnoringCase(e.title, term) || ContainsIgnoringCase(e.location, term)
  {
  }

  // ---------------------------------------------------------------------------
  // Counts

  function HasStatus(st: ExhibitionStatus, now: int): Exhibition -> bool {
    e => StatusOf(e, now) == st
  }

  /** `exhibitions.filter(e => status(e) === st).length`. */
  function CountStatus(list: seq<Exhibition>, st: ExhibitionStatus, now: int): nat {
    Count(list, HasStatus(st, now))
  }

  /** Every exhibition has exactly one status, so the three counts add up to the total. */
  lemma {:induction false} CountsSumToTotal(list: seq<Exhibition>, now: int)
    ensures CountStatus(list, Ongoing, now) + CountStatus(list, Upcoming, now)
            + CountStatus(list, Ended, now) == |list|
  {
    if list != [] {
      CountsSumToTotal(list[1..], now);
    }
  }

  // ---------------------------------------------------------------------------
  // Page state

  class ExhibitionsPage {
    var exhibitions: seq<Exhibition>
    var filteredExhibitions: seq<Exhibition>
    var searchTerm: string
    var selectedStatus: StatusFilter
    var selectedDate: Option<Day>
    var loading: bool

    constructor()
      ensures exhibitions == [] && filteredExhibitions == []
      ensures searchTerm == "" && selectedStatus == All && selectedDate == None
      ensures loading
    {
      exhibitions := [];
      filteredExhibitions := [];
      searchTerm := "";
      selectedStatus := All;
      selectedDate := None;
      loading := true;
    }

    /**
     * Stores the fetched rows after sorting them in place; a failed fetch keeps
     * the current list, a fetch with no rows stores the empty list.
     */
    method FetchExhibitions(failed: bool, data: array?<Exhibition>, now: int)
      modifies this, data
      ensures !loading
      ensures filteredExhibitions == old(filteredExhibitions) && searchTerm == old(searchTerm)
      ensures selectedStatus == old(selectedStatus) && selectedDate == old(selectedDate)
      ensures failed ==> exhibitions == old(exhibitions)
      ensures failed && data != null ==> data[..] == old(data[..])
      ensures !failed && data == null ==> exhibitions == []
      ensures !failed && data != null ==> data[..] == SortedView(old(data[..]), now) && exhibitions == data[..]
    {
      loading := true;
      if !failed {
        if data == null {
          exhibitions := [];
        } else {
          SortInPlace(data, now);
          exhibitions := data[..];
        }
      }
      loading := false;
    }

    /** Runs the three stages in order over `exhibitions` and stores the result. */
    method FilterExhibitions(now: int)
      modifies this
      ensures filteredExhibitions == FilterView(exhibitions, selectedDate, selectedStatus, searchTerm, now)
      ensures exhibitions == old(exhibitions) && searchTerm == old(searchTerm)
      ensures selectedStatus == old(selectedStatus) && selectedDate == old(selectedDate)
      ensures loading == old(loading)
    {
      var filtered := exhibitions;
      if selectedDate.Some? {
        filtered := Filter(filtered, DateOk(selectedDate));
      } else {
        FilterKeepsAll(filtered, DateOk(selectedDate));
      }
      if selectedStatus.Only? {
        filtered := Filter(filtered, StatusOk(selectedStatus, now));
      } else {
        FilterKeepsAll(filtered, StatusOk(selectedStatus, now));
      }
      FilterFusion(exhibitions, DateOk(selectedDate), StatusOk(selectedStatus, now),
                   DateStatusOk(selectedDate, selectedStatus, now));
      if searchTerm != "" {
        filtered := Filter(filtered, SearchOk(searchTerm));
      } else {
        FilterKeepsAll(filtered, SearchOk(searchTerm));
      }
      FilterFusion(exhibitions, DateStatusOk(selectedDate, selectedStatus, now), SearchOk(searchTerm),
                   Admit(selectedDate, selectedStatus, searchTerm, now));
      filteredExhibitions := filtered;
    }
  }
}
