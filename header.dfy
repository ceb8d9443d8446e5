/**
 * The header's search box: a case-insensitive title search over the list it is
 * given (the visible list), and the query/results/menu state its handlers update.
 */
module Header {
  import opened Types
  import opened Seqs
  import LocationStore

  /** ASCII lower-casing of one character (other characters are left as they are). */
  function LowerChar(c: char): (r: char)
    ensures 'A' <= c <= 'Z' ==> r as int == c as int + 32
    ensures !('A' <= c <= 'Z') ==> r == c
  {
    if 'A' <= c <= 'Z' then (c as int + 32) as char else c
  }

  /** `s.toLowerCase()`, restricted to ASCII letters. */
  function Lower(s: string): (r: string)
    ensures |r| == |s| && forall i :: 0 <= i < |s| ==> r[i] == LowerChar(s[i])
  {
    seq(|s|, i requires 0 <= i < |s| => LowerChar(s[i]))
  }

  /** `needle` occurs in `hay` starting at position `i`. */
  predicate OccursAt(hay: string, needle: string, i: int)
  {
    0 <= i <= |hay| - |needle| && hay[i..i + |needle|] == needle
  }

  /** `hay.includes(needle)`. */
  predicate Includes(hay: string, needle: string)
  {
    exists i :: 0 <= i <= |hay| - |needle| && OccursAt(hay, needle, i)
  }

  /** The search's match test on one title. */
  predicate TitleMatches(title: string, query: string)
  {
    Includes(Lower(title), Lower(query))
  }

  /**
   * `filteredLocations`: nothing for an empty query; otherwise the locations whose
   * lower-cased title contains the lower-cased query, in input order.
   */
  function SearchResults(locations: seq<Location>, query: string): (r: seq<Location>)
    ensures query == "" ==> r == []
    ensures query != "" ==> forall l :: l in r <==> l in locations && TitleMatches(l.title, query)
    ensures |r| <= |locations|
  {
    if |query| > 0 then Filter(locations, (l: Location) => TitleMatches(l.title, query)) else []
  }

  /** Results come from the list given; fed the guest view, they never include a PENDING record. */
  lemma GuestSearchFindsOnlyApproved(locations: seq<Location>, query: string)
    ensures forall l :: l in SearchResults(LocationStore.Visible(locations, false), query) ==>
      l in locations && l.status == APPROVED
  {
  }

  /** Results keep the order of the list they are drawn from. */
  lemma SearchPreservesOrder(a: seq<Location>, b: seq<Location>, query: string)
    ensures SearchResults(a + b, query) == SearchResults(a, query) + SearchResults(b, query)
  {
    if query != "" {
      FilterAppend(a, b, (l: Location) => TitleMatches(l.title, query));
    }
  }

  /** On a single record a non-empty query keeps it exactly when its title matches; with `SearchPreservesOrder` this fixes every result. */
  lemma SearchSingle(l: Location, query: string)
    requires query != ""
    ensures SearchResults([l], query) == if TitleMatches(l.title, query) then [l] else []
  {
    assert [l][1..] == [];
  }

  /** Searching for a title itself, in any ASCII capitalisation, finds that location. */
  lemma {:induction false} TitleFindsItself(locations: seq<Location>, l: Location, query: string)
    requires l in locations && query != "" && Lower(query) == Lower(l.title)
    ensures l in SearchResults(locations, query)
  {
    var t := Lower(l.title);
    assert t[0..|t|] == t;
    assert OccursAt(t, Lower(query), 0);
  }

  /** The header's own state. */
  class HeaderState {
    var searchQuery: string
    var showSearchResults: bool
    var isMenuOpen: bool

    constructor ()
      ensures searchQuery == "" && !showSearchResults && !isMenuOpen
    {
      searchQuery, showSearchResults, isMenuOpen := "", false, false;
    }

    /** The results panel is rendered when it is shown and the query is non-empty. */
    predicate ResultsPanelOpen()
      reads this
    {
      showSearchResults && searchQuery != ""
    }

    /** Typing: the query becomes the input's value and the results are shown. */
    method Type(value: string)
      modifies this`searchQuery, this`showSearchResults
      ensures searchQuery == value && showSearchResults
    {
      searchQuery := value;
      showSearchResults := true;
    }

    /** Focusing the input shows the results. */
    method Focus()
      modifies this`showSearchResults
      ensures showSearchResults
    {
      showSearchResults := true;
    }

    /** A mouse-down outside the search box hides the results. */
    method ClickOutside()
      modifies this`showSearchResults
      ensures !showSearchResults
    {
      showSearchResults := false;
    }

    /** The clear button empties the query. */
    method ClearQuery()
      modifies this`searchQuery
      ensures searchQuery == ""
    {
      searchQuery := "";
    }

    /** `handleSearchResultClick`: report the id to `onLocate`, hide the results and clear the query. */
    method ChooseResult(id: string) returns (located: string)
      modifies this`searchQuery, this`showSearchResults
      ensures located == id && !showSearchResults && searchQuery == ""
      ensures !ResultsPanelOpen()
    {
      located := id;
      showSearchResults := false;
      searchQuery := "";
    }

    /** The mobile menu button. */
    method ToggleMenu()
      modifies this`isMenuOpen
      ensures isMenuOpen == !old(isMenuOpen)
    {
      isMenuOpen := !isMenuOpen;
    }

    /** The menu's admin entry also closes the menu (the flip of `isAdmin` itself is the component's `ToggleAdmin`). */
    method MenuAdminEntry()
      modifies this`isMenuOpen
      ensures !isMenuOpen
    {
      isMenuOpen := false;
    }
  }
}
