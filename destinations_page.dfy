/**
 * The destinations listing page: which of the three fetched lists is shown
 * (search results, one category, or everything), which loading flag goes
 * with it, and how the active category and the `category` URL parameter
 * follow each other.
 */
module DestinationsPage {
  import opened Wrappers
  import opened Text
  import opened DestinationTypes

  const All := "All"

  /** The category buttons, in display order. */
  const Categories: seq<string> := ["All", "Nature", "Culture", "Beaches", "Adventure", "Cities"]

  /** The name of the URL search parameter that carries the category. */
  const CategoryKey := "category"

  // ---------------------------------------------------------------------------
  // What is displayed
  // ---------------------------------------------------------------------------

  /** The three lists the page can show. */
  datatype Source = SearchResults | CategoryResults | AllResults

  /** The list to show: a non-blank search wins over the category, and "All" shows everything. */
  function DisplaySource(searchTerm: string, activeCategory: string): Source {
    if !IsBlank(searchTerm) then SearchResults
    else if activeCategory != All then CategoryResults
    else AllResults
  }

  /** The category passed to the category query: empty for "All". */
  function CategoryQuery(activeCategory: string): (r: string)
    ensures r == "" <==> activeCategory == All || activeCategory == ""
    ensures r != "" ==> r == activeCategory
  {
    if activeCategory != All then activeCategory else ""
  }

  /** `getDisplayDestinations`. */
  function DisplayDestinations(searchTerm: string, activeCategory: string,
                               all: seq<Destination>, byCategory: seq<Destination>, bySearch: seq<Destination>): (r: seq<Destination>)
    ensures r == match DisplaySource(searchTerm, activeCategory)
                 case SearchResults => bySearch
                 case CategoryResults => byCategory
                 case AllResults => all
  {
    if !IsBlank(searchTerm) then bySearch
    else if activeCategory != All then byCategory
    else all
  }

  /** The page's `loading` flag, chosen by its own nested conditional. */
  function Loading(searchTerm: string, activeCategory: string,
                   allLoading: bool, categoryLoading: bool, searchLoading: bool): (r: bool)
    ensures r == match DisplaySource(searchTerm, activeCategory)
                 case SearchResults => searchLoading
                 case CategoryResults => categoryLoading
                 case AllResults => allLoading
  {
    if !IsBlank(searchTerm) then searchLoading
    else if activeCategory != All then categoryLoading
    else allLoading
  }

  /** While a search is typed the category has no effect on what is shown or on the loading flag. */
  lemma SearchOverridesCategory(searchTerm: string, c1: string, c2: string,
                                all: seq<Destination>, byCategory: seq<Destination>, bySearch: seq<Destination>,
                                allLoading: bool, categoryLoading: bool, searchLoading: bool)
    requires !AllSpace(searchTerm)
    ensures DisplayDestinations(searchTerm, c1, all, byCategory, bySearch) == bySearch
    ensures DisplayDestinations(searchTerm, c1, all, byCategory, bySearch)
         == DisplayDestinations(searchTerm, c2, all, byCategory, bySearch)
    ensures Loading(searchTerm, c1, allLoading, categoryLoading, searchLoading) == searchLoading
  {
    BlankIffAllSpace(searchTerm);
  }

  /** A search term of only white space is no search: the category decides. */
  lemma BlankSearchIgnored(searchTerm: string, activeCategory: string,
                           all: seq<Destination>, byCategory: seq<Destination>, bySearch: seq<Destination>)
    requires AllSpace(searchTerm)
    ensures DisplayDestinations(searchTerm, activeCategory, all, byCategory, bySearch)
         == DisplayDestinations("", activeCategory, all, byCategory, bySearch)
    ensures DisplayDestinations(searchTerm, activeCategory, all, byCategory, bySearch)
         == if activeCategory == All then all else byCategory
  {
    BlankIffAllSpace(searchTerm);
    BlankIffAllSpace("");
  }

  // ---------------------------------------------------------------------------
  // The `category` URL parameter
  // ---------------------------------------------------------------------------

  /** `charAt(0).toUpperCase() + slice(1)`. */
  function Capitalize(s: string): (r: string)
    ensures |r| == |s|
    ensures s != [] ==> r[0] == UpperChar(s[0]) && r[1..] == s[1..]
  {
    if s == [] then [] else [UpperChar(s[0])] + s[1..]
  }

  /**
   * The category the page adopts from the URL on load: a present, non-empty
   * parameter whose capitalised form is one of the buttons; anything else
   * keeps the current category.
   */
  function CategoryFromParam(param: Option<string>, activeCategory: string): (r: string)
    ensures r == activeCategory || r in Categories
    ensures param.None? ==> r == activeCategory
    ensures param.Some? && Capitalize(param.value) in Categories ==> r == Capitalize(param.value)
    ensures param.Some? && Capitalize(param.value) !in Categories ==> r == activeCategory
  {
    match param
    case None => activeCategory
    case Some(p) =>
      if p != "" && Capitalize(p) in Categories then Capitalize(p) else activeCategory
  }

  /** Capitalising undoes lowercasing for a word that starts with a capital and has no other. */
  lemma CapitalizeLower(c: string)
    requires c != [] && IsAsciiUpper(c[0])
    requires forall i | 1 <= i < |c| :: !IsAsciiUpper(c[i])
    ensures Capitalize(Lower(c)) == c
  {
    var r := Capitalize(Lower(c));
    assert r[0] == c[0];
    forall i | 1 <= i < |c| ensures r[i] == c[i] {
      assert r[1..][i - 1] == Lower(c)[i];
    }
  }

  /** Every category button is a capitalised word. */
  lemma CategoriesCapitalised(c: string)
    requires c in Categories
    ensures c != [] && IsAsciiUpper(c[0])
    ensures forall i | 1 <= i < |c| :: !IsAsciiUpper(c[i])
  {
  }

  /**
   * The value written to the URL for a category other than "All" is read back
   * as that same category, whatever was active before.
   */
  lemma CategoryParamRoundTrip(c: string, activeCategory: string)
    requires c in Categories && c != All
    ensures CategoryFromParam(Some(Lower(c)), activeCategory) == c
  {
    CategoriesCapitalised(c);
    CapitalizeLower(c);
  }

  /** The parameter's value, if present. */
  function Lookup(params: map<string, string>, key: string): (r: Option<string>)
    ensures r.Some? <==> key in params
    ensures r.Some? ==> r.value == params[key]
  {
    if key in params then Some(params[key]) else None
  }

  // ---------------------------------------------------------------------------
  // The page state
  // ---------------------------------------------------------------------------

  class Page {
    var activeCategory: string
    var searchTerm: string
    /** The URL search parameters. */
    var params: map<string, string>

    /** The page opens on "All" with no search, under the URL it was opened with. */
    constructor(urlParams: map<string, string>)
      ensures activeCategory == All && searchTerm == "" && params == urlParams
    {
      activeCategory := All;
      searchTerm := "";
      params := urlParams;
    }

    /** The effect that takes the category from the URL parameters. */
    method AdoptUrlCategory()
      modifies this
      ensures activeCategory == CategoryFromParam(Lookup(params, CategoryKey), old(activeCategory))
      ensures old(activeCategory) in Categories ==> activeCategory in Categories
      ensures Lookup(params, CategoryKey).Some? && Capitalize(params[CategoryKey]) !in Categories ==>
        activeCategory == old(activeCategory)
      ensures unchanged(this`searchTerm, this`params)
    {
      var param := Lookup(params, CategoryKey);
      if param.Some? && param.value != "" {
        var formatted := Capitalize(param.value);
        if formatted in Categories {
          activeCategory := formatted;
        }
      }
    }

    /** Typing in the search box. */
    method SetSearchTerm(term: string)
      modifies this
      ensures searchTerm == term
      ensures unchanged(this`activeCategory, this`params)
    {
      searchTerm := term;
    }

    /**
     * `handleCategoryChange`: the search is cleared, "All" removes the URL
     * parameter and any other category is written to it in lower case, so
     * that reading the URL back yields the category just chosen and the
     * page shows that category's list.
     */
    method ChangeCategory(category: string)
      modifies this
      ensures activeCategory == category && searchTerm == ""
      ensures category == All ==> params == old(params) - {CategoryKey}
      ensures category != All ==> params == old(params)[CategoryKey := Lower(category)]
      ensures category in Categories ==> CategoryFromParam(Lookup(params, CategoryKey), activeCategory) == category
      ensures DisplaySource(searchTerm, activeCategory) == if category == All then AllResults else CategoryResults
    {
      activeCategory := category;
      searchTerm := "";
      if category == All {
        params := params - {CategoryKey};
      } else {
        params := params[CategoryKey := Lower(category)];
        if category in Categories {
          CategoryParamRoundTrip(category, activeCategory);
        }
      }
      BlankIffAllSpace(searchTerm);
    }

    /** "Reset Filters": back to "All" with no search and no `category` parameter. */
    method ResetFilters()
      modifies this
      ensures activeCategory == All && searchTerm == ""
      ensures params == old(params) - {CategoryKey}
      ensures CategoryKey !in params
      ensures DisplaySource(searchTerm, activeCategory) == AllResults
    {
      activeCategory := All;
      searchTerm := "";
      params := params - {CategoryKey};
      BlankIffAllSpace(searchTerm);
    }
  }
}
