/** The state of the deputy search page, src/components/deputies/SearchPageComponent.tsx: the
    result list after filtering, and its pagination in pages of twelve. */
module SearchPage {
  import opened Js
  import opened Entities
  import opened Seqs

  const ItemsPerPage := 12

  /** The page's filter panel: an empty string means "any". */
  datatype PageFilters = PageFilters(partido: string, uf: string, situacao: string)

  const NoPageFilters := PageFilters("", "", "")

  // ---------------------------------------------------------------------
  // The filters of `fetchDeputies`

  /** The lower-cased name, party or state contains the lower-cased query. */
  predicate PageQueryMatch(lowerQuery: string, d: Deputy) {
    Includes(Lower(d.nome), lowerQuery) || Includes(Lower(d.partido), lowerQuery)
    || Includes(Lower(d.uf), lowerQuery)
  }

  /** Condition `n` (1: query, 2: party, 3: state, 4: status); true when unset. */
  predicate Condition(query: string, f: PageFilters, n: nat, d: Deputy) {
    if n == 1 then query == "" || PageQueryMatch(Lower(query), d)
    else if n == 2 then f.partido == "" || d.partido == f.partido
    else if n == 3 then f.uf == "" || d.uf == f.uf
    else if n == 4 then f.situacao == "" || DeputyStatusText(d.situacao) == f.situacao
    else true
  }

  predicate IsSet(query: string, f: PageFilters, n: nat) {
    if n == 1 then query != ""
    else if n == 2 then f.partido != ""
    else if n == 3 then f.uf != ""
    else if n == 4 then f.situacao != ""
    else false
  }

  /** The `n`-th condition each path applies: the fallback path applies all four in turn, the
      API path only the query and then the status. */
  function ConditionAt(fallback: bool, n: nat): nat {
    if fallback || n <= 1 then n else 4
  }

  /** The first `n` conditions the path applies. */
  predicate UpTo(query: string, f: PageFilters, fallback: bool, n: nat, d: Deputy) {
    if n == 0 then true
    else UpTo(query, f, fallback, n - 1, d) && Condition(query, f, ConditionAt(fallback, n), d)
  }

  function Kept(query: string, f: PageFilters, fallback: bool, n: nat): Deputy -> bool {
    d => UpTo(query, f, fallback, n, d)
  }

  // The callbacks passed to `filter`.

  function NamePartyOrStateContains(lowerQuery: string): Deputy -> bool {
    d => PageQueryMatch(lowerQuery, d)
  }

  function PartyIs(partido: string): Deputy -> bool {
    (d: Deputy) => d.partido == partido
  }

  function StateIs(uf: string): Deputy -> bool {
    (d: Deputy) => d.uf == uf
  }

  function StatusIs(situacao: string): Deputy -> bool {
    (d: Deputy) => DeputyStatusText(d.situacao) == situacao
  }

  function Step(query: string, f: PageFilters, n: nat): Deputy -> bool
    requires 1 <= n <= 4 && IsSet(query, f, n)
  {
    if n == 1 then NamePartyOrStateContains(Lower(query))
    else if n == 2 then PartyIs(f.partido)
    else if n == 3 then StateIs(f.uf)
    else StatusIs(f.situacao)
  }

  /** Applying the filter of condition `c`, the path's next one, or skipping it when unset,
      after the first `n`. */
  lemma Stage(deputies: seq<Deputy>, before: seq<Deputy>, query: string, f: PageFilters, fallback: bool, n: nat, c: nat)
    requires c == ConditionAt(fallback, n + 1) && 1 <= c <= 4
    requires before == Filter(deputies, Kept(query, f, fallback, n))
    ensures IsSet(query, f, c) ==> Filter(before, Step(query, f, c)) == Filter(deputies, Kept(query, f, fallback, n + 1))
    ensures !IsSet(query, f, c) ==> before == Filter(deputies, Kept(query, f, fallback, n + 1))
  {
    if IsSet(query, f, c) {
      FilterFilter(deputies, Kept(query, f, fallback, n), Step(query, f, c), Kept(query, f, fallback, n + 1));
    } else {
      FilterAgree(deputies, Kept(query, f, fallback, n), Kept(query, f, fallback, n + 1));
    }
  }

  /** What the API path keeps: the query over name, party and state, then the status. */
  predicate ApiKeeps(query: string, f: PageFilters, d: Deputy) {
    (query == "" || PageQueryMatch(Lower(query), d))
    && (f.situacao == "" || DeputyStatusText(d.situacao) == f.situacao)
  }

  /** What the fallback path keeps: the same query, then party, state and status. */
  predicate FallbackKeeps(query: string, f: PageFilters, d: Deputy) {
    && (query == "" || PageQueryMatch(Lower(query), d))
    && (f.partido == "" || d.partido == f.partido)
    && (f.uf == "" || d.uf == f.uf)
    && (f.situacao == "" || DeputyStatusText(d.situacao) == f.situacao)
  }

  function ApiMatching(query: string, f: PageFilters): Deputy -> bool {
    d => ApiKeeps(query, f, d)
  }

  function FallbackMatching(query: string, f: PageFilters): Deputy -> bool {
    d => FallbackKeeps(query, f, d)
  }

  lemma ApiStages(deputies: seq<Deputy>, query: string, f: PageFilters)
    ensures Filter(deputies, Kept(query, f, false, 2)) == Filter(deputies, ApiMatching(query, f))
  {
    forall d ensures UpTo(query, f, false, 2, d) == ApiKeeps(query, f, d) {
      assert UpTo(query, f, false, 1, d) == Condition(query, f, 1, d);
    }
    FilterAgree(deputies, Kept(query, f, false, 2), ApiMatching(query, f));
  }

  lemma FallbackStages(deputies: seq<Deputy>, query: string, f: PageFilters)
    ensures Filter(deputies, Kept(query, f, true, 4)) == Filter(deputies, FallbackMatching(query, f))
  {
    forall d ensures UpTo(query, f, true, 4, d) == FallbackKeeps(query, f, d) {
      assert UpTo(query, f, true, 1, d) == Condition(query, f, 1, d);
      assert UpTo(query, f, true, 2, d) == (UpTo(query, f, true, 1, d) && Condition(query, f, 2, d));
      assert UpTo(query, f, true, 3, d) == (UpTo(query, f, true, 2, d) && Condition(query, f, 3, d));
    }
    FilterAgree(deputies, Kept(query, f, true, 4), FallbackMatching(query, f));
  }

  /** The filters of the API path, applied one after another. */
  method ApiFilter(deputies: seq<Deputy>, query: string, f: PageFilters) returns (filtered: seq<Deputy>)
    ensures filtered == Filter(deputies, ApiMatching(query, f))
  {
    filtered := deputies;
    FilterKeepsAll(deputies, Kept(query, f, false, 0));
    Stage(deputies, filtered, query, f, false, 0, 1);
    if query != "" {
      filtered := Filter(filtered, NamePartyOrStateContains(Lower(query)));
    }
    Stage(deputies, filtered, query, f, false, 1, 4);
    if f.situacao != "" {
      filtered := Filter(filtered, StatusIs(f.situacao));
    }
    ApiStages(deputies, query, f);
  }

  /** The filters of the fallback path, applied one after another. */
  method FallbackFilter(deputies: seq<Deputy>, query: string, f: PageFilters) returns (filtered: seq<Deputy>)
    ensures filtered == Filter(deputies, FallbackMatching(query, f))
  {
    filtered := deputies;
    FilterKeepsAll(deputies, Kept(query, f, true, 0));
    Stage(deputies, filtered, query, f, true, 0, 1);
    if query != "" {
      filtered := Filter(filtered, NamePartyOrStateContains(Lower(query)));
    }
    Stage(deputies, filtered, query, f, true, 1, 2);
    if f.partido != "" {
      filtered := Filter(filtered, PartyIs(f.partido));
    }
    Stage(deputies, filtered, query, f, true, 2, 3);
    if f.uf != "" {
      filtered := Filter(filtered, StateIs(f.uf));
    }
    Stage(deputies, filtered, query, f, true, 3, 4);
    if f.situacao != "" {
      filtered := Filter(filtered, StatusIs(f.situacao));
    }
    FallbackStages(deputies, query, f);
  }

  /** The fallback never keeps a deputy the API path's filters would drop from the same list. */
  lemma FallbackNarrower(deputies: seq<Deputy>, query: string, f: PageFilters, d: Deputy)
    requires d in Filter(deputies, FallbackMatching(query, f))
    ensures d in Filter(deputies, ApiMatching(query, f))
  {
    FilterMembership(deputies, FallbackMatching(query, f), d);
    FilterMembership(deputies, ApiMatching(query, f), d);
  }

  /** Both paths keep the list's order. */
  lemma FiltersKeepOrder(deputies: seq<Deputy>, query: string, f: PageFilters)
    ensures IsSubsequence(Filter(deputies, ApiMatching(query, f)), deputies)
    ensures IsSubsequence(Filter(deputies, FallbackMatching(query, f)), deputies)
  {
    FilterIsSubsequence(deputies, ApiMatching(query, f));
    FilterIsSubsequence(deputies, FallbackMatching(query, f));
  }

  // ---------------------------------------------------------------------
  // Pagination arithmetic

  /** `Math.ceil(totalItems / 12)`. */
  function TotalPages(totalItems: nat): (r: nat)
    ensures r * ItemsPerPage >= totalItems
    ensures r > 0 ==> (r - 1) * ItemsPerPage < totalItems
  {
    (totalItems + ItemsPerPage - 1) / ItemsPerPage
  }

  /** `getCurrentPageItems`: the twelve items of page `page`. */
  function PageItems(filtered: seq<Deputy>, page: int): (r: seq<Deputy>)
    ensures |r| <= ItemsPerPage
    ensures 1 <= page && (page - 1) * ItemsPerPage <= |filtered| ==>
              r == filtered[(page - 1) * ItemsPerPage .. SliceBound(page * ItemsPerPage, |filtered|)]
  {
    var start := (page - 1) * ItemsPerPage;
    Slice(filtered, start, start + ItemsPerPage)
  }

  /** Reading the pages `page`, `page + 1`, ... in turn, up to the last. */
  function PagesFrom(filtered: seq<Deputy>, page: nat): seq<Deputy>
    requires page >= 1
    decreases |filtered| - (page - 1) * ItemsPerPage
  {
    if (page - 1) * ItemsPerPage >= |filtered| then []
    else PageItems(filtered, page) + PagesFrom(filtered, page + 1)
  }

  /** The pages, read in turn, are the whole list: every item is on exactly one page. */
  lemma {:induction false} PagesCoverList(filtered: seq<Deputy>, page: nat)
    requires page >= 1 && (page - 1) * ItemsPerPage <= |filtered|
    ensures PagesFrom(filtered, page) == filtered[(page - 1) * ItemsPerPage..]
    decreases |filtered| - (page - 1) * ItemsPerPage
  {
    var start := (page - 1) * ItemsPerPage;
    if start < |filtered| {
      var end := SliceBound(page * ItemsPerPage, |filtered|);
      if page * ItemsPerPage <= |filtered| {
        PagesCoverList(filtered, page + 1);
      } else {
        assert end == |filtered|;
        assert PagesFrom(filtered, page + 1) == [];
      }
      assert filtered[start..] == filtered[start..end] + filtered[end..];
    }
  }

  /** The last page is page `TotalPages`: it has items, and the page after it has none. */
  lemma LastPage(filtered: seq<Deputy>)
    requires |filtered| > 0
    ensures PageItems(filtered, TotalPages(|filtered|)) != []
    ensures PageItems(filtered, TotalPages(|filtered|) + 1) == []
  {
  }

  /** The range shown above the results: `(p - 1) * 12 + 1` to `min(p * 12, totalItems)`. */
  function DisplayedRange(currentPage: int, totalItems: nat): (r: (int, int))
    ensures r.0 - 1 == (currentPage - 1) * ItemsPerPage
    ensures r.1 <= totalItems && r.1 <= currentPage * ItemsPerPage
    ensures r.1 == totalItems || r.1 == currentPage * ItemsPerPage
  {
    ((currentPage - 1) * ItemsPerPage + 1,
     if currentPage * ItemsPerPage < totalItems then currentPage * ItemsPerPage else totalItems)
  }

  /** On a page that exists the range counts exactly the items shown, numbered from one. */
  lemma DisplayedRangeCountsItems(filtered: seq<Deputy>, currentPage: int)
    requires 1 <= currentPage <= TotalPages(|filtered|)
    ensures var (first, last) := DisplayedRange(currentPage, |filtered|);
            1 <= first <= last <= |filtered| && last - first + 1 == |PageItems(filtered, currentPage)|
  {
  }

  /** The page buttons: `min(5, totalPages)` numbers around the current page. */
  function PageWindow(currentPage: int, totalPages: nat): (r: seq<int>)
    ensures |r| == if totalPages < 5 then totalPages else 5
    ensures forall i :: 0 < i < |r| ==> r[i] == r[i - 1] + 1
  {
    var n := if totalPages < 5 then totalPages else 5;
    var first := if totalPages <= 5 then 1
                 else if currentPage <= 3 then 1
                 else if currentPage >= totalPages - 2 then totalPages - 4
                 else currentPage - 2;
    seq(n, i requires 0 <= i < n => first + i)
  }

  /** On a page that exists, every button is a page that exists, and one of them is the current page. */
  lemma PageWindowInRange(currentPage: int, totalPages: nat)
    requires 1 <= currentPage <= totalPages
    ensures var r := PageWindow(currentPage, totalPages);
            (forall i :: 0 <= i < |r| ==> 1 <= r[i] <= totalPages) && currentPage in r
  {
    var r := PageWindow(currentPage, totalPages);
    assert r[currentPage - r[0]] == currentPage;
  }

  // ---------------------------------------------------------------------
  // The component's state

  class SearchPageState {
    var allDeputies: seq<Deputy>
    var filteredDeputies: seq<Deputy>
    var currentPage: int
    var totalPages: nat
    var totalItems: nat
    var isLoading: bool

    /** The state the page starts in. */
    constructor ()
      ensures allDeputies == [] && filteredDeputies == []
      ensures currentPage == 1 && totalPages == 1 && totalItems == 0 && !isLoading
    {
      allDeputies := [];
      filteredDeputies := [];
      currentPage := 1;
      totalPages := 1;
      totalItems := 0;
      isLoading := false;
    }

    /** `fetchDeputies`: the API's answer filtered by query and status, or, when the request
        failed, the sample list filtered by query, party, state and status; then the
        pagination for the new list, on page `page`. */
    method FetchDeputies(query: string, filters: PageFilters, page: int,
                         apiResult: Result<seq<Deputy>, string>, sample: seq<Deputy>)
      modifies this
      ensures apiResult.Ok? ==> allDeputies == apiResult.value
                                && filteredDeputies == Filter(apiResult.value, ApiMatching(query, filters))
      ensures apiResult.Err? ==> allDeputies == sample
                                 && filteredDeputies == Filter(sample, FallbackMatching(query, filters))
      ensures totalItems == |filteredDeputies| && totalPages == TotalPages(totalItems)
      ensures currentPage == page && !isLoading
    {
      isLoading := true;
      match apiResult {
        case Ok(deputies) =>
          allDeputies := deputies;
          filteredDeputies := ApiFilter(deputies, query, filters);
        case Err(_) =>
          filteredDeputies := FallbackFilter(sample, query, filters);
          allDeputies := sample;
      }
      totalItems := |filteredDeputies|;
      totalPages := TotalPages(totalItems);
      currentPage := page;
      isLoading := false;
    }

    /** `changePage`: move to `newPage` only when it is one of the pages. */
    method ChangePage(newPage: int)
      modifies this
      ensures 1 <= newPage <= old(totalPages) ==> currentPage == newPage
      ensures !(1 <= newPage <= old(totalPages)) ==> currentPage == old(currentPage)
      ensures allDeputies == old(allDeputies) && filteredDeputies == old(filteredDeputies)
      ensures totalPages == old(totalPages) && totalItems == old(totalItems) && isLoading == old(isLoading)
    {
      if newPage >= 1 && newPage <= totalPages {
        currentPage := newPage;
      }
    }

    /** `getCurrentPageItems`. */
    function CurrentPageItems(): (r: seq<Deputy>)
      reads this
      ensures |r| <= ItemsPerPage
    {
      PageItems(filteredDeputies, currentPage)
    }
  }

  /** Once a list is loaded on page one, any sequence of page changes stays on a page that
      exists, or on page one of an empty list. */
  lemma ChangeKeepsPageValid(currentPage: int, totalPages: nat, newPage: int)
    requires currentPage == 1 || 1 <= currentPage <= totalPages
    ensures var next := if 1 <= newPage <= totalPages then newPage else currentPage;
            next == 1 || 1 <= next <= totalPages
  {
  }
}
