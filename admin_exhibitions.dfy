/**
 * The exhibition management page (src/app/admin/exhibitions/page.tsx): the
 * status is recomputed from the dates with the public page's rule, the list
 * is filtered by that status and by title or location, the badges and labels
 * follow the computed status, and a delete needs confirming.
 */
module AdminExhibitions {
  import opened Wrappers
  import opened Strings
  import opened Seqs
  import opened Database
  import opened Exhibitions
  import opened Display

  /** A row as the management page reads it: the exhibition plus its stored `status` text. */
  datatype AdminExhibition = AdminExhibition(info: Exhibition, status: string)

  /** The badge of a status name: any text that is not a status gets the outline badge. */
  function StatusBadgeVariant(status: string): (v: BadgeVariant)
    ensures ParseStatus(status).None? ==> v == Outline
    ensures v == Default <==> status == "ongoing"
    ensures v == Secondary <==> status == "upcoming"
  {
    if status == "ongoing" then Default
    else if status == "upcoming" then Secondary
    else if status == "ended" then Outline
    else Outline
  }

  /** The three statuses get three different badges. */
  lemma StatusBadgesDistinct(s: ExhibitionStatus, t: ExhibitionStatus)
    requires s != t
    ensures StatusBadgeVariant(StatusName(s)) != StatusBadgeVariant(StatusName(t))
  {
  }

  /** What the status column shows for a row: the label and badge of the status computed now. */
  function StatusCell(a: AdminExhibition, now: int): (cell: (string, BadgeVariant))
    ensures cell.0 == StatusLabel(StatusName(StatusOf(a.info, now)))
    ensures cell.1 == StatusBadgeVariant(StatusName(StatusOf(a.info, now)))
  {
    var current := StatusName(StatusOf(a.info, now));
    (StatusLabel(current), StatusBadgeVariant(current))
  }

  /** The stored `status` text never shows: rows that differ only there show the same status cell. */
  lemma StoredStatusNotShown(a: AdminExhibition, stored: string, now: int)
    ensures StatusCell(a.(status := stored), now) == StatusCell(a, now)
  {
  }

  /** The management search: title or location contains the term, ignoring case. */
  predicate AdminMatches(a: AdminExhibition, term: string) {
    ContainsIgnoringCase(a.info.title, term) || ContainsIgnoringCase(a.info.location, term)
  }

  /** Anything the management search finds, the public search finds too. */
  lemma AdminMatchesArePublicMatches(a: AdminExhibition, term: string)
    ensures AdminMatches(a, term) ==> Matches(a.info, term)
  {
  }

  /** The description is never searched: changing it changes no search result. */
  lemma DescriptionNotSearched(a: AdminExhibition, d: Option<string>, term: string)
    ensures AdminMatches(AdminExhibition(a.info.(description := d), a.status), term) == AdminMatches(a, term)
  {
  }

  predicate AdminAdmits(a: AdminExhibition, status: StatusFilter, term: string, now: int) {
    HasChosenStatus(a.info, status, now) && (term == "" || AdminMatches(a, term))
  }

  function StatusStage(status: StatusFilter, now: int): AdminExhibition -> bool {
    (a: AdminExhibition) => HasChosenStatus(a.info, status, now)
  }

  function SearchStage(term: string): AdminExhibition -> bool {
    a => term == "" || AdminMatches(a, term)
  }

  function AdminAdmit(status: StatusFilter, term: string, now: int): AdminExhibition -> bool {
    a => AdminAdmits(a, status, term, now)
  }

  /** The rows the table lists: those passing both stages, in their order. */
  function AdminFilterView(list: seq<AdminExhibition>, status: StatusFilter, term: string, now: int): seq<AdminExhibition> {
    Filter(list, AdminAdmit(status, term, now))
  }

  /**
   * A row is listed iff it was fetched, its computed status is the chosen one
   * (whatever its stored status says), and its title or location matches.
   */
  lemma AdminFilterMembers(list: seq<AdminExhibition>, status: StatusFilter, term: string, now: int, a: AdminExhibition)
    ensures a in AdminFilterView(list, status, term, now) <==>
      a in list
      && (status.Only? ==> StatusOf(a.info, now) == status.status)
      && (term != "" ==> AdminMatches(a, term))
  {
    FilterMembership(list, AdminAdmit(status, term, now), a);
  }

  /** The listed rows are an order-preserving subsequence of the fetched rows. */
  lemma AdminFilterSubseq(list: seq<AdminExhibition>, status: StatusFilter, term: string, now: int)
    ensures Subseq(AdminFilterView(list, status, term, now), list)
  {
    FilterIsSubseq(list, AdminAdmit(status, term, now));
  }

  function HasComputedStatus(st: ExhibitionStatus, now: int): AdminExhibition -> bool {
    (a: AdminExhibition) => StatusOf(a.info, now) == st
  }

  /** A stat card: the rows whose status computed now is `st`. */
  function AdminCount(list: seq<AdminExhibition>, st: ExhibitionStatus, now: int): nat {
    Count(list, HasComputedStatus(st, now))
  }

  /** The ongoing, upcoming and ended cards add up to the total card. */
  lemma {:induction false} AdminCountsSumToTotal(list: seq<AdminExhibition>, now: int)
    ensures AdminCount(list, Ongoing, now) + AdminCount(list, Upcoming, now)
            + AdminCount(list, Ended, now) == |list|
  {
    if list != [] {
      AdminCountsSumToTotal(list[1..], now);
    }
  }

  class AdminExhibitionsPage {
    var exhibitions: seq<AdminExhibition>
    var filteredExhibitions: seq<AdminExhibition>
    var searchTerm: string
    var selectedStatus: StatusFilter
    var loadingExhibitions: bool

    constructor()
      ensures exhibitions == [] && filteredExhibitions == []
      ensures searchTerm == "" && selectedStatus == All && loadingExhibitions
    {
      exhibitions := [];
      filteredExhibitions := [];
      searchTerm := "";
      selectedStatus := All;
      loadingExhibitions := true;
    }

    /** Loads the rows; a failed or empty fetch leaves an empty list. */
    method Fetch(failed: bool, data: Option<seq<AdminExhibition>>)
      modifies this
      ensures exhibitions == if failed then [] else data.GetOr([])
      ensures !loadingExhibitions
      ensures filteredExhibitions == old(filteredExhibitions)
      ensures searchTerm == old(searchTerm) && selectedStatus == old(selectedStatus)
    {
      loadingExhibitions := true;
      if failed {
        exhibitions := [];
      } else {
        exhibitions := data.GetOr([]);
      }
      loadingExhibitions := false;
    }

    /** The filter effect: the status stage, then the search stage. */
    method ApplyFilters(now: int)
      modifies this
      ensures filteredExhibitions == AdminFilterView(exhibitions, selectedStatus, searchTerm, now)
      ensures exhibitions == old(exhibitions) && searchTerm == old(searchTerm)
      ensures selectedStatus == old(selectedStatus) && loadingExhibitions == old(loadingExhibitions)
    {
      var filtered := exhibitions;
      if selectedStatus.Only? {
        filtered := Filter(filtered, StatusStage(selectedStatus, now));
      } else {
        FilterKeepsAll(filtered, StatusStage(selectedStatus, now));
      }
      if searchTerm != "" {
        filtered := Filter(filtered, SearchStage(searchTerm));
      } else {
        FilterKeepsAll(filtered, SearchStage(searchTerm));
      }
      FilterFusion(exhibitions, StatusStage(selectedStatus, now), SearchStage(searchTerm),
                   AdminAdmit(selectedStatus, searchTerm, now));
      filteredExhibitions := filtered;
    }

    /**
     * Deletes a row once the dialog is confirmed and reloads the list when the
     * delete succeeds. Returns whether a delete was sent.
     */
    method DeleteExhibition(id: string, confirmed: bool, deleteFailed: bool,
                            refetchFailed: bool, refetched: Option<seq<AdminExhibition>>)
      returns (deleteSent: bool)
      modifies this
      ensures deleteSent == confirmed
      ensures !confirmed || deleteFailed ==>
        exhibitions == old(exhibitions) && loadingExhibitions == old(loadingExhibitions)
      ensures confirmed && !deleteFailed ==>
        exhibitions == (if refetchFailed then [] else refetched.GetOr([])) && !loadingExhibitions
      ensures filteredExhibitions == old(filteredExhibitions)
      ensures searchTerm == old(searchTerm) && selectedStatus == old(selectedStatus)
    {
      if !confirmed {
        return false;
      }
      deleteSent := true;
      if deleteFailed {
        return;
      }
      Fetch(refetchFailed, refetched);
    }
  }
}
