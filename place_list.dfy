/**
 * The place management page (src/app/admin/places/page.tsx): the category
 * and search filters, the removal of a deleted place from the list, and the
 * category stat cards.
 *
 * The fetches and the delete are backend calls; their outcomes are
 * parameters.
 */
module PlaceList {
  import opened Wrappers
  import opened Strings
  import opened Seqs
  import opened Database

  /** A row of `places` as the list reads it; an absent address or description is `None`. */
  datatype Place = Place(
    id: string,
    name: string,
    categoryId: string,
    address: Option<string>,
    description: Option<string>)

  /** The category filter's value that selects every category. */
  const AllCategories: string := "all"

  /** `text?.toLowerCase().includes(term.toLowerCase())`: a missing text never matches. */
  predicate OptionalMatches(text: Option<string>, term: string) {
    text.Some? && ContainsIgnoringCase(text.value, term)
  }

  /** The search: name, address or description contains the term, ignoring case. */
  predicate PlaceMatches(p: Place, term: string) {
    ContainsIgnoringCase(p.name, term) || OptionalMatches(p.address, term)
    || OptionalMatches(p.description, term)
  }

  predicate InCategory(p: Place, selected: string) {
    selected == AllCategories || p.categoryId == selected
  }

  predicate PlaceAdmits(p: Place, selected: string, term: string) {
    InCategory(p, selected) && (term == "" || PlaceMatches(p, term))
  }

  function CategoryStage(selected: string): Place -> bool {
    p => InCategory(p, selected)
  }

  function SearchStage(term: string): Place -> bool {
    p => term == "" || PlaceMatches(p, term)
  }

  function PlaceAdmit(selected: string, term: string): Place -> bool {
    p => PlaceAdmits(p, selected, term)
  }

  /** The places the table lists. */
  function PlaceFilterView(places: seq<Place>, selected: string, term: string): seq<Place> {
    Filter(places, PlaceAdmit(selected, term))
  }

  /**
   * A place is listed iff it was fetched, it is in the chosen category (any
   * category for "all"), and its name, address or description matches.
   */
  lemma PlaceFilterMembers(places: seq<Place>, selected: string, term: string, p: Place)
    ensures p in PlaceFilterView(places, selected, term) <==>
      p in places
      && (selected != AllCategories ==> p.categoryId == selected)
      && (term != "" ==> PlaceMatches(p, term))
  {
    FilterMembership(places, PlaceAdmit(selected, term), p);
  }

  /** The listed places are an order-preserving subsequence of the fetched places. */
  lemma PlaceFilterSubseq(places: seq<Place>, selected: string, term: string)
    ensures Subseq(PlaceFilterView(places, selected, term), places)
  {
    FilterIsSubseq(places, PlaceAdmit(selected, term));
  }

  /** With every category and no search text, the table lists every place. */
  lemma PlaceFilterNoFilters(places: seq<Place>)
    ensures PlaceFilterView(places, AllCategories, "") == places
  {
    FilterKeepsAll(places, PlaceAdmit(AllCategories, ""));
  }

  /** A place without an address or description is found by its name alone. */
  lemma MissingFieldsNeverMatch(p: Place, term: string)
    requires p.address.None? && p.description.None?
    ensures PlaceMatches(p, term) <==> ContainsIgnoringCase(p.name, term)
  {
  }

  function HasId(id: string): Place -> bool {
    (p: Place) => p.id == id
  }

  function KeepsId(id: string): Place -> bool {
    (p: Place) => p.id != id
  }

  /** `prev.filter(place => place.id !== id)`. */
  function WithoutId(places: seq<Place>, id: string): seq<Place> {
    Filter(places, KeepsId(id))
  }

  /**
   * Removing `id` drops exactly the places with that id: the others stay, in
   * their order, and the list shrinks by the number of places with that id.
   */
  lemma WithoutIdDropsExactly(places: seq<Place>, id: string, p: Place)
    ensures p in WithoutId(places, id) <==> p in places && p.id != id
    ensures Subseq(WithoutId(places, id), places)
    ensures |WithoutId(places, id)| == |places| - Count(places, HasId(id))
  {
    FilterMembership(places, KeepsId(id), p);
    FilterIsSubseq(places, KeepsId(id));
    CountSplit(places, HasId(id), KeepsId(id));
  }

  /** `p => p.category_id === id`. */
  function InCategoryId(id: string): Place -> bool {
    (p: Place) => p.categoryId == id
  }

  /** A stat card: a category's name and the number of places in it. */
  datatype CategoryCard = CategoryCard(name: string, count: nat)

  /** `categories.slice(0, 3).map(...)`: a card for each of the first three categories. */
  function CategoryCards(categories: seq<Category>, places: seq<Place>): (cards: seq<CategoryCard>)
    ensures |cards| == if |categories| < 3 then |categories| else 3
    ensures forall k :: 0 <= k < |cards| ==>
      cards[k] == CategoryCard(categories[k].name, Count(places, InCategoryId(categories[k].id)))
  {
    var shown := if |categories| < 3 then categories else categories[..3];
    seq(|shown|, k requires 0 <= k < |shown| =>
      CategoryCard(shown[k].name, Count(places, InCategoryId(shown[k].id))))
  }

  /** A card counts exactly the places the category filter lists for that category. */
  lemma CardCountIsCategoryFilter(categories: seq<Category>, places: seq<Place>, k: int)
    requires 0 <= k < |CategoryCards(categories, places)| && categories[k].id != AllCategories
    ensures CategoryCards(categories, places)[k].count
      == |PlaceFilterView(places, categories[k].id, "")|
  {
    FilterExtensional(places, InCategoryId(categories[k].id), PlaceAdmit(categories[k].id, ""));
  }

  class PlacesPage {
    var places: seq<Place>
    var categories: seq<Category>
    var filteredPlaces: seq<Place>
    var loading: bool
    var searchTerm: string
    var selectedCategory: string
    var error: Option<string>

    constructor()
      ensures places == [] && categories == [] && filteredPlaces == []
      ensures loading && searchTerm == "" && selectedCategory == AllCategories && error.None?
    {
      places := [];
      categories := [];
      filteredPlaces := [];
      loading := true;
      searchTerm := "";
      selectedCategory := AllCategories;
      error := None;
    }

    /**
     * Loads the places, then the categories. A failure of either records the
     * message and keeps both lists; otherwise both are stored, an absent
     * result as the empty list.
     */
    method FetchPlaces(placesFailed: bool, placesData: Option<seq<Place>>,
                       categoriesFailed: bool, categoriesData: Option<seq<Category>>,
                       message: string)
      modifies this`places, this`categories, this`loading, this`error
      ensures placesFailed || categoriesFailed ==>
        places == old(places) && categories == old(categories) && error == Some(message)
      ensures !placesFailed && !categoriesFailed ==>
        places == placesData.GetOr([]) && categories == categoriesData.GetOr([]) && error == old(error)
      ensures !loading
    {
      loading := true;
      if placesFailed || categoriesFailed {
        error := Some(message);
      } else {
        places := placesData.GetOr([]);
        categories := categoriesData.GetOr([]);
      }
      loading := false;
    }

    /** The filter effect: the category stage, then the search stage. */
    method ApplyFilters()
      modifies this`filteredPlaces
      ensures filteredPlaces == PlaceFilterView(places, selectedCategory, searchTerm)
    {
      var filtered := places;
      if selectedCategory != AllCategories {
        filtered := Filter(filtered, CategoryStage(selectedCategory));
      } else {
        FilterKeepsAll(filtered, CategoryStage(selectedCategory));
      }
      if searchTerm != "" {
        filtered := Filter(filtered, SearchStage(searchTerm));
      } else {
        FilterKeepsAll(filtered, SearchStage(searchTerm));
      }
      FilterFusion(places, CategoryStage(selectedCategory), SearchStage(searchTerm),
                   PlaceAdmit(selectedCategory, searchTerm));
      filteredPlaces := filtered;
    }

    /**
     * Deletes a place once the dialog is confirmed; after a successful delete
     * the place is dropped from the list. Returns whether a delete was sent.
     */
    method HandleDelete(id: string, confirmed: bool, deleteFailed: bool) returns (deleteSent: bool)
      modifies this`places
      ensures deleteSent == confirmed
      ensures !confirmed || deleteFailed ==> places == old(places)
      ensures confirmed && !deleteFailed ==> places == WithoutId(old(places), id)
    {
      if !confirmed {
        return false;
      }
      deleteSent := true;
      if !deleteFailed {
        places := WithoutId(places, id);
      }
    }
  }
}
