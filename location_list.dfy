/** The location list's view state: the local copy of the collection, the
    country tabs derived from it, the one page cursor all tabs share, the
    seven-entry page slices and the row of page buttons. */
module LocationList {
  import opened Records

  /** `locationsPerPage`. */
  const LocationsPerPage: nat := 7

  function Min(a: int, b: int): int { if a <= b then a else b }

  // ---------------------------------------------------------------------------
  // Array.prototype.slice
  // ---------------------------------------------------------------------------

  /** How `slice` reads one of its index arguments: a negative index counts back
      from the end, and the result is clamped to `[0, n]`. */
  function SliceIndex(i: int, n: nat): (k: nat)
    ensures k <= n
    ensures 0 <= i ==> k == Min(i, n)
    ensures i < 0 ==> k == if n + i < 0 then 0 else n + i
  {
    if i < 0 then (if n + i < 0 then 0 else n + i)
    else if i > n then n
    else i
  }

  /** `s.slice(start, end)`. */
  function JsSlice<T>(s: seq<T>, start: int, end: int): (r: seq<T>)
    ensures |r| <= |s|
    ensures 0 <= start <= end ==>
              r == s[Min(start, |s|)..Min(end, |s|)]
  {
    var from, to := SliceIndex(start, |s|), SliceIndex(end, |s|);
    if from < to then s[from..to] else []
  }

  // ---------------------------------------------------------------------------
  // Page slices and page count
  // ---------------------------------------------------------------------------

  /** `renderLocationList(list)`'s slice for the current page `page`:
      `list.slice(page * 7 - 7, page * 7)`. */
  function PageSlice<T>(list: seq<T>, page: int): (r: seq<T>)
    ensures 1 <= page ==> |r| <= LocationsPerPage
    ensures 1 <= page ==>
              |r| == Min(LocationsPerPage, if |list| < (page - 1) * LocationsPerPage then 0 else |list| - (page - 1) * LocationsPerPage)
    ensures 1 <= page ==>
              forall k :: 0 <= k < |r| ==> r[k] == list[(page - 1) * LocationsPerPage + k]
  {
    var last := page * LocationsPerPage;
    JsSlice(list, last - LocationsPerPage, last)
  }

  /** `Math.ceil(n / locationsPerPage)`: the least number of seven-entry pages
      that hold `n` entries. */
  function PageCount(n: nat): (c: nat)
    ensures c * LocationsPerPage >= n
    ensures c > 0 ==> (c - 1) * LocationsPerPage < n
    ensures c == 0 <==> n == 0
  {
    (n + LocationsPerPage - 1) / LocationsPerPage
  }

  /** A page past the last one shows nothing; a page within the count shows at
      least one entry. */
  lemma PageSliceEmptyIffPastEnd<T>(list: seq<T>, page: int)
    requires 1 <= page
    ensures PageSlice(list, page) == [] <==> page > PageCount(|list|)
  {
  }

  /** The pages `first..last` laid end to end. */
  function ConcatPages<T>(list: seq<T>, first: nat, last: nat): seq<T>
    decreases last + 1 - first
  {
    if first > last then [] else PageSlice(list, first) + ConcatPages(list, first + 1, last)
  }

  lemma {:induction false} ConcatPagesFrom<T>(list: seq<T>, first: nat)
    requires 1 <= first <= PageCount(|list|) + 1
    ensures ConcatPages(list, first, PageCount(|list|)) == list[Min((first - 1) * LocationsPerPage, |list|)..]
    decreases PageCount(|list|) + 1 - first
  {
    var c := PageCount(|list|);
    if first > c {
      assert (first - 1) * LocationsPerPage >= |list|;
    } else {
      ConcatPagesFrom(list, first + 1);
      var lo := (first - 1) * LocationsPerPage;
      var hi := Min(first * LocationsPerPage, |list|);
      assert lo < |list| by {
        assert lo <= (c - 1) * LocationsPerPage;
      }
      assert PageSlice(list, first) == list[lo..hi];
      assert list[lo..] == list[lo..hi] + list[hi..];
    }
  }

  /** The pages `1..PageCount(|list|)` together are the list itself: every
      entry is on exactly one page, in list order. */
  lemma {:induction false} PagesPartitionList<T>(list: seq<T>)
    ensures ConcatPages(list, 1, PageCount(|list|)) == list
  {
    ConcatPagesFrom(list, 1);
  }

  // ---------------------------------------------------------------------------
  // Page buttons
  // ---------------------------------------------------------------------------

  /** A `Pagination.Item`: its number and whether it is drawn as active. */
  datatype PageButton = PageButton(number: nat, active: bool)

  /** The `pageNumbers` loop: one button per page of `count` entries, numbered
      from 1, the one equal to `currentPage` active. */
  method PageButtons(count: nat, currentPage: nat) returns (buttons: seq<PageButton>)
    ensures |buttons| == PageCount(count)
    ensures forall k :: 0 <= k < |buttons| ==> buttons[k].number == k + 1
    ensures forall k :: 0 <= k < |buttons| ==> (buttons[k].active <==> k + 1 == currentPage)
    ensures (exists k :: 0 <= k < |buttons| && buttons[k].active) <==> 1 <= currentPage <= PageCount(count)
  {
    buttons := [];
    var i := 1;
    while i <= PageCount(count)
      invariant 1 <= i <= PageCount(count) + 1
      invariant |buttons| == i - 1
      invariant forall k :: 0 <= k < |buttons| ==> buttons[k].number == k + 1
      invariant forall k :: 0 <= k < |buttons| ==> (buttons[k].active <==> k + 1 == currentPage)
    {
      buttons := buttons + [PageButton(i, i == currentPage)];
      i := i + 1;
    }
    if 1 <= currentPage <= PageCount(count) {
      assert buttons[currentPage - 1].active;
    }
  }

  // ---------------------------------------------------------------------------
  // Country tabs
  // ---------------------------------------------------------------------------

  /** `[...new Set(s)]`: the distinct values of `s`, each where it first occurs.
      Built the way a Set is filled, one element at a time from the left. */
  function Distinct<T(==,!new)>(s: seq<T>): (r: seq<T>)
    ensures forall x :: x in r <==> x in s
    ensures forall i, j :: 0 <= i < j < |r| ==> r[i] != r[j]
  {
    if s == [] then []
    else
      var r := Distinct(s[..|s| - 1]);
      assert forall x :: x in s[..|s| - 1] ==> x in s;
      assert forall x :: x in s ==> x in s[..|s| - 1] || x == s[|s| - 1];
      if s[|s| - 1] in r then r else r + [s[|s| - 1]]
  }

  /** The distinct values keep first-occurrence order: whenever `r[i]` comes
      before `r[j]`, `r[i]` already occurs before any occurrence of `r[j]`. */
  lemma {:induction false} DistinctFirstOccurrenceOrder<T(!new)>(s: seq<T>)
    ensures forall i, j, b :: 0 <= i < j < |Distinct(s)| && 0 <= b < |s| && s[b] == Distinct(s)[j] ==>
              Distinct(s)[i] in s[..b]
  {
    if s != [] {
      var init := s[..|s| - 1];
      var last := s[|s| - 1];
      var r0 := Distinct(init);
      DistinctFirstOccurrenceOrder(init);
      var r := Distinct(s);
      forall i, j, b | 0 <= i < j < |r| && 0 <= b < |s| && s[b] == r[j]
        ensures r[i] in s[..b]
      {
        assert r[i] == r0[i];
        if b < |s| - 1 {
          assert s[b] == init[b];
          assert s[..b] == init[..b];
          assert init[b] in init;
          assert s[b] in r0;
          assert j < |r0|;
          assert r[j] == r0[j];
        } else {
          assert r0[i] in init;
          assert s[..b] == init;
        }
      }
    }
  }

  /** The `country` value of every entry, in list order. */
  function CountryColumn(ls: seq<Location>): (cs: seq<Option<string>>)
    ensures |cs| == |ls| && forall k :: 0 <= k < |ls| ==> cs[k] == ls[k].country()
  {
    seq(|ls|, k requires 0 <= k < |ls| => ls[k].country())
  }

  /** `countries`: one tab key per distinct country value of the list,
      including "unset", in first-occurrence order. */
  function Countries(ls: seq<Location>): (cs: seq<Option<string>>)
    ensures forall c :: c in cs <==> exists k :: 0 <= k < |ls| && ls[k].country() == c
    ensures forall i, j :: 0 <= i < j < |cs| ==> cs[i] != cs[j]
  {
    var column := CountryColumn(ls);
    assert forall c :: c in column <==> exists k :: 0 <= k < |ls| && column[k] == c;
    Distinct(column)
  }

  /** `list.filter(location => location.country === country)`, element by
      element from the left. */
  function WithCountry(ls: seq<Location>, country: Option<string>): (r: seq<Location>)
    ensures |r| <= |ls|
    ensures forall k :: 0 <= k < |r| ==> r[k].country() == country
  {
    if ls == [] then []
    else
      var r := WithCountry(ls[..|ls| - 1], country);
      if ls[|ls| - 1].country() == country then r + [ls[|ls| - 1]] else r
  }

  /** The positions `WithCountry` keeps, in increasing order. */
  function MatchingPositions(ls: seq<Location>, country: Option<string>): seq<nat>
  {
    if ls == [] then []
    else
      var ps := MatchingPositions(ls[..|ls| - 1], country);
      if ls[|ls| - 1].country() == country then ps + [|ls| - 1] else ps
  }

  /** A country tab's list is exactly the entries with that country, in list
      order: it picks the positions whose entry has the country, every one of
      them, each once, from left to right. */
  lemma {:induction false} WithCountrySelectsInOrder(ls: seq<Location>, country: Option<string>)
    ensures |MatchingPositions(ls, country)| == |WithCountry(ls, country)|
    ensures forall i, j :: 0 <= i < j < |MatchingPositions(ls, country)| ==>
              MatchingPositions(ls, country)[i] < MatchingPositions(ls, country)[j]
    ensures forall i :: 0 <= i < |MatchingPositions(ls, country)| ==>
              MatchingPositions(ls, country)[i] < |ls| &&
              WithCountry(ls, country)[i] == ls[MatchingPositions(ls, country)[i]]
    ensures forall k :: 0 <= k < |ls| ==> (k in MatchingPositions(ls, country) <==> ls[k].country() == country)
  {
    if ls != [] {
      var init := ls[..|ls| - 1];
      WithCountrySelectsInOrder(init, country);
      var ps := MatchingPositions(ls, country);
      var ps0 := MatchingPositions(init, country);
      assert forall i :: 0 <= i < |ps0| ==> ps0[i] < |init|;
      assert forall k :: 0 <= k < |init| ==> init[k] == ls[k];
      forall k | 0 <= k < |ls|
        ensures k in ps <==> ls[k].country() == country
      {
        if k < |init| {
          assert k in ps <==> k in ps0;
        }
      }
    }
  }

  /** Every entry of the list appears in the tab of its own country, and its
      country is one of the tabs. */
  lemma {:induction false} EveryLocationHasItsTab(ls: seq<Location>, k: nat)
    requires k < |ls|
    ensures ls[k].country() in Countries(ls)
    ensures ls[k] in WithCountry(ls, ls[k].country())
  {
    WithCountrySelectsInOrder(ls, ls[k].country());
    var ps := MatchingPositions(ls, ls[k].country());
    var i :| 0 <= i < |ps| && ps[i] == k;
    assert WithCountry(ls, ls[k].country())[i] == ls[k];
  }

  /** Because every tab shows the buttons of the whole list, a country with at
      most seven entries still offers the buttons of later pages, and those
      pages show it empty. */
  lemma SmallCountryTabLaterPagesEmpty(ls: seq<Location>, country: Option<string>, page: int)
    requires |WithCountry(ls, country)| <= LocationsPerPage
    requires 2 <= page <= PageCount(|ls|)
    ensures PageSlice(WithCountry(ls, country), page) == []
  {
  }

  /** A one-entry list in country "KR": page 1 of its "KR" tab shows that
      entry, and "KR" is the only country tab. */
  lemma OneKoreanLocation(fields: Fields)
    requires fields.country == Some("KR")
    ensures PageSlice(WithCountry([Location("a", fields)], Some("KR")), 1) == [Location("a", fields)]
    ensures Countries([Location("a", fields)]) == [Some("KR")]
  {
    var ls := [Location("a", fields)];
    assert ls[..0] == [];
    assert CountryColumn(ls) == [Some("KR")];
    assert CountryColumn(ls)[..0] == [];
    assert Distinct(CountryColumn(ls)) == [Some("KR")];
  }

  // ---------------------------------------------------------------------------
  // The component's state
  // ---------------------------------------------------------------------------

  /** Which tab a pane belongs to: "All" or one country value. */
  datatype TabKey = All | CountryTab(country: Option<string>)

  /** What one tab shows: its entries on the current page and its buttons. */
  datatype Pane = Pane(key: TabKey, shown: seq<Location>, buttons: seq<PageButton>)

  /** A request the component hands to the store. */
  datatype StoreRequest = DeleteDoc(id: string)

  /** The two state cells of the location list, `locations` and `currentPage`. */
  class ListView {
    var locations: seq<Location>
    var currentPage: nat

    /** The page cursor is never below 1: it starts at 1 and only a page
        button, numbered from 1, sets it. */
    ghost predicate Valid()
      reads this
    {
      currentPage >= 1
    }

    constructor ()
      ensures Valid()
      ensures locations == [] && currentPage == 1
    {
      locations := [];
      currentPage := 1;
    }

    /** A snapshot replaces the list entirely; the page cursor is kept as it
        is, even when the new list has fewer pages. */
    method ApplySnapshot(docs: seq<Doc>)
      requires Valid()
      modifies this
      ensures Valid()
      ensures locations == FromSnapshot(docs)
      ensures currentPage == old(currentPage)
    {
      locations := FromSnapshot(docs);
    }

    /** Clicking page button `i`, which exists only for `1 <= i <= ` the page
        count of the whole list. */
    method ClickPage(i: nat)
      requires Valid()
      requires 1 <= i <= PageCount(|locations|)
      modifies this
      ensures Valid()
      ensures currentPage == i
      ensures locations == old(locations)
    {
      currentPage := i;
    }

    /** `handleDeleteLocation`: forwards the id to the store, whatever the
        outcome of that request; the local list is left for the next snapshot
        to change. */
    method DeleteLocation(id: string) returns (request: StoreRequest)
      ensures request.id == id
    {
      request := DeleteDoc(id);
    }

    /** What the component renders: the "All" pane and one pane per country,
        every pane sliced at the same `currentPage` and showing the same
        buttons, which are counted from the whole list. */
    method Render() returns (all: Pane, countryPanes: seq<Pane>)
      requires Valid()
      ensures all.key == All && all.shown == PageSlice(locations, currentPage)
      ensures |all.buttons| == PageCount(|locations|)
      ensures forall k :: 0 <= k < |all.buttons| ==> all.buttons[k].number == k + 1
      ensures forall k :: 0 <= k < |all.buttons| ==> (all.buttons[k].active <==> k + 1 == currentPage)
      ensures locations != [] ==> all.buttons[0].number == 1
      ensures currentPage <= PageCount(|locations|) ==> all.buttons[currentPage - 1].active
      ensures |countryPanes| == |Countries(locations)|
      ensures forall k :: 0 <= k < |countryPanes| ==>
                countryPanes[k].key == CountryTab(Countries(locations)[k]) &&
                countryPanes[k].shown == PageSlice(WithCountry(locations, Countries(locations)[k]), currentPage) &&
                countryPanes[k].buttons == all.buttons
    {
      var list, page := locations, currentPage;
      var buttons := PageButtons(|list|, page);
      var countries := Countries(list);
      all := Pane(All, PageSlice(list, page), buttons);
      countryPanes := seq(|countries|, k requires 0 <= k < |countries| =>
        Pane(CountryTab(countries[k]), PageSlice(WithCountry(list, countries[k]), page), buttons));
    }
  }
}
