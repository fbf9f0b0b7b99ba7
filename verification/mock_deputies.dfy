/** The helpers of src/data/mockDeputies.ts over the sample deputy list, which is passed in. */
module MockDeputies {
  import opened Js
  import opened Entities
  import opened Seqs
  import opened Expenses

  /** `getDeputyById`: the first deputy with that id, if any. */
  function GetDeputyById(deputies: seq<Deputy>, id: string): (r: Option<Deputy>)
    ensures r.None? <==> forall i :: 0 <= i < |deputies| ==> deputies[i].id != id
    ensures r.Some? ==> exists i :: 0 <= i < |deputies| && deputies[i] == r.value && r.value.id == id
                                    && forall j :: 0 <= j < i ==> deputies[j].id != id
  {
    if deputies == [] then None
    else if deputies[0].id == id then Some(deputies[0])
    else
      var r := GetDeputyById(deputies[1..], id);
      assert forall i :: 1 <= i < |deputies| ==> deputies[i] == deputies[1..][i - 1];
      r
  }

  // ---------------------------------------------------------------------
  // searchDeputies

  datatype Filters = Filters(partido: Nullable<string>, uf: Nullable<string>, situacao: Nullable<string>)

  const NoFilters := Filters(Undefined, Undefined, Undefined)

  /** The lower-cased name, full name or party contains the lower-cased query. */
  predicate QueryMatch(lowerQuery: string, d: Deputy) {
    Includes(Lower(d.nome), lowerQuery) || Includes(Lower(d.nomeCompleto), lowerQuery)
    || Includes(Lower(d.partido), lowerQuery)
  }

  /** `filter` applied only when it is set, by exact equality. */
  predicate FieldMatch(filter: Nullable<string>, value: string) {
    !TruthyString(filter) || value == filter.v
  }

  /** What the successive filters of `searchDeputies` keep. */
  predicate Matches(query: string, f: Filters, d: Deputy) {
    && (query == "" || QueryMatch(Lower(query), d))
    && FieldMatch(f.partido, d.partido)
    && FieldMatch(f.uf, d.uf)
    && FieldMatch(f.situacao, DeputyStatusText(d.situacao))
  }

  /** The `n`-th condition of `searchDeputies` (1: query, 2: party, 3: state, 4: status); true when unset. */
  predicate Condition(query: string, f: Filters, n: nat, d: Deputy) {
    if n == 1 then query == "" || QueryMatch(Lower(query), d)
    else if n == 2 then FieldMatch(f.partido, d.partido)
    else if n == 3 then FieldMatch(f.uf, d.uf)
    else if n == 4 then FieldMatch(f.situacao, DeputyStatusText(d.situacao))
    else true
  }

  /** Whether the `n`-th condition is set. */
  predicate IsSet(query: string, f: Filters, n: nat) {
    if n == 1 then query != ""
    else if n == 2 then TruthyString(f.partido)
    else if n == 3 then TruthyString(f.uf)
    else if n == 4 then TruthyString(f.situacao)
    else false
  }

  /** The first `n` conditions together. */
  predicate UpTo(query: string, f: Filters, n: nat, d: Deputy) {
    if n == 0 then true else UpTo(query, f, n - 1, d) && Condition(query, f, n, d)
  }

  /** The filter that keeps what satisfies the first `n` conditions. */
  function Kept(query: string, f: Filters, n: nat): Deputy -> bool {
    d => UpTo(query, f, n, d)
  }

  /** The filter that keeps what `searchDeputies` returns. */
  function Matching(query: string, f: Filters): Deputy -> bool {
    d => Matches(query, f, d)
  }

  // The four callbacks `searchDeputies` passes to `filter`.

  function NameOrPartyContains(lowerQuery: string): Deputy -> bool {
    d => QueryMatch(lowerQuery, d)
  }

  function PartyIs(partido: string): Deputy -> bool {
    (d: Deputy) => d.partido == partido
  }

  function StateIs(uf: string): Deputy -> bool {
    (d: Deputy) => d.uf == uf
  }

  function StatusIs(situacao: string): Deputy -> bool {
    (d: Deputy) => DeputyStatusText(d.situacao) == situacao
  }

  /** The callback of the `n`-th filter, when that filter is set. */
  function Step(query: string, f: Filters, n: nat): Deputy -> bool
    requires 1 <= n <= 4 && IsSet(query, f, n)
  {
    if n == 1 then NameOrPartyContains(Lower(query))
    else if n == 2 then PartyIs(f.partido.v)
    else if n == 3 then StateIs(f.uf.v)
    else StatusIs(f.situacao.v)
  }

  /** Applying the `n`-th filter, or skipping it when unset, to what the first `n - 1` kept
      leaves what the first `n` conditions keep. */
  lemma Stage(deputies: seq<Deputy>, before: seq<Deputy>, query: string, f: Filters, n: nat)
    requires 1 <= n <= 4
    requires before == Filter(deputies, Kept(query, f, n - 1))
    ensures IsSet(query, f, n) ==> Filter(before, Step(query, f, n)) == Filter(deputies, Kept(query, f, n))
    ensures !IsSet(query, f, n) ==> before == Filter(deputies, Kept(query, f, n))
  {
    if IsSet(query, f, n) {
      FilterFilter(deputies, Kept(query, f, n - 1), Step(query, f, n), Kept(query, f, n));
    } else {
      FilterAgree(deputies, Kept(query, f, n - 1), Kept(query, f, n));
    }
  }

  /** `searchDeputies`: narrow the list step by step with each filter that is set. */
  method SearchDeputies(deputies: seq<Deputy>, query: string, filters: Filters) returns (results: seq<Deputy>)
    ensures results == Filter(deputies, Matching(query, filters))
  {
    results := deputies;
    FilterKeepsAll(deputies, Kept(query, filters, 0));
    Stage(deputies, results, query, filters, 1);
    if query != "" {
      var lowerQuery := Lower(query);
      results := Filter(results, NameOrPartyContains(lowerQuery));
    }
    Stage(deputies, results, query, filters, 2);
    if TruthyString(filters.partido) {
      results := Filter(results, PartyIs(filters.partido.v));
    }
    Stage(deputies, results, query, filters, 3);
    if TruthyString(filters.uf) {
      results := Filter(results, StateIs(filters.uf.v));
    }
    Stage(deputies, results, query, filters, 4);
    if TruthyString(filters.situacao) {
      results := Filter(results, StatusIs(filters.situacao.v));
    }
    AllStages(deputies, query, filters);
  }

  /** The four conditions together are `Matches`. */
  lemma AllStages(deputies: seq<Deputy>, query: string, f: Filters)
    ensures Filter(deputies, Kept(query, f, 4)) == Filter(deputies, Matching(query, f))
  {
    forall d ensures UpTo(query, f, 4, d) == Matches(query, f, d) {
      assert UpTo(query, f, 1, d) == Condition(query, f, 1, d);
      assert UpTo(query, f, 2, d) == (UpTo(query, f, 1, d) && Condition(query, f, 2, d));
      assert UpTo(query, f, 3, d) == (UpTo(query, f, 2, d) && Condition(query, f, 3, d));
    }
    FilterAgree(deputies, Kept(query, f, 4), Matching(query, f));
  }

  /** The result keeps the list's order and only drops deputies. */
  lemma SearchKeepsOrder(deputies: seq<Deputy>, query: string, filters: Filters)
    ensures IsSubsequence(Filter(deputies, Matching(query, filters)), deputies)
  {
    FilterIsSubsequence(deputies, Matching(query, filters));
  }

  /** An empty query and no filter return the whole list. */
  lemma SearchAll(deputies: seq<Deputy>)
    ensures Filter(deputies, Matching("", NoFilters)) == deputies
  {
    FilterKeepsAll(deputies, Matching("", NoFilters));
  }

  /** A deputy of the list is found exactly when every condition that is set holds for it. */
  lemma SearchMembership(deputies: seq<Deputy>, query: string, filters: Filters, i: nat)
    requires i < |deputies|
    ensures deputies[i] in Filter(deputies, Matching(query, filters)) <==> Matches(query, filters, deputies[i])
  {
    FilterMembership(deputies, Matching(query, filters), deputies[i]);
  }

  // ---------------------------------------------------------------------
  // getExpensesByCategory

  /** `getExpensesByCategory`: total each category in a record, then list its entries sorted by
      value, largest first. */
  method GetExpensesByCategory(despesas: seq<Despesa>) returns (r: seq<Group>)
    ensures r == SortDesc(GroupBy(despesas))
  {
    var keys, sums := CategoryRecord(despesas);
    EntriesAreGroups(despesas, keys, sums);
    r := SortDesc(Entries(keys, sums));
  }

  /** The `forEach` of `getExpensesByCategory`: the record of category totals, which keeps its
      keys in insertion order. */
  method CategoryRecord(despesas: seq<Despesa>) returns (keys: seq<string>, sums: map<string, int>)
    ensures RecordHolds(GroupBy(despesas), keys, sums)
  {
    keys, sums := [], map[];
    for i := 0 to |despesas|
      invariant RecordHolds(GroupBy(despesas[..i]), keys, sums)
    {
      var d := despesas[i];
      GroupByStep(despesas, i);
      if d.categoria in sums && sums[d.categoria] != 0 {
        RecordAddTo(GroupBy(despesas[..i]), d.categoria, d.valor, keys, sums);
        sums := sums[d.categoria := sums[d.categoria] + d.valor];
      } else {
        RecordSet(GroupBy(despesas[..i]), d.categoria, d.valor, keys, sums);
        if d.categoria !in sums {
          keys := keys + [d.categoria];
        }
        sums := sums[d.categoria := d.valor];
      }
    }
    assert despesas[..|despesas|] == despesas;
  }

  /** The record `sums`, whose keys in insertion order are `keys`, holds the totals of `groups`. */
  ghost predicate RecordHolds(groups: seq<Group>, keys: seq<string>, sums: map<string, int>) {
    && keys == Names(groups)
    && (forall k :: k in sums <==> k in keys)
    && (forall k :: k in sums ==> sums[k] == ValueOf(groups, k))
  }

  /** The truthy branch of the `forEach`: adding to a non-zero total keeps the record exact. */
  lemma RecordAddTo(groups: seq<Group>, c: string, v: int, keys: seq<string>, sums: map<string, int>)
    requires RecordHolds(groups, keys, sums)
    requires c in sums && sums[c] != 0
    ensures RecordHolds(Add(groups, c, v), keys, sums[c := sums[c] + v])
  {
    RecordUpdate(groups, c, v, sums[c] + v, keys, sums);
  }

  /** The other branch: a category that is new, or whose total is 0, restarts from the expense's
      value, which keeps the record exact; a new category becomes the last key. */
  lemma RecordSet(groups: seq<Group>, c: string, v: int, keys: seq<string>, sums: map<string, int>)
    requires RecordHolds(groups, keys, sums)
    requires !(c in sums && sums[c] != 0)
    ensures RecordHolds(Add(groups, c, v), if c in sums then keys else keys + [c], sums[c := v])
  {
    if c !in sums {
      ValueOfAbsent(groups, c);
    }
    RecordUpdate(groups, c, v, v, keys, sums);
  }

  /** Storing `w`, the category's new total, keeps the record exact. */
  lemma RecordUpdate(groups: seq<Group>, c: string, v: int, w: int, keys: seq<string>, sums: map<string, int>)
    requires RecordHolds(groups, keys, sums)
    requires w == ValueOf(groups, c) + v
    ensures RecordHolds(Add(groups, c, v), if c in sums then keys else keys + [c], sums[c := w])
  {
    forall k ensures ValueOf(Add(groups, c, v), k) == ValueOf(groups, k) + (if k == c then v else 0) {
      AddValueOf(groups, c, v, k);
    }
  }

  /** `Object.entries` of the record: its keys in insertion order, each with its value. */
  function Entries(keys: seq<string>, sums: map<string, int>): (r: seq<Group>)
    requires forall k :: k in keys ==> k in sums
    ensures Names(r) == keys
    ensures forall j :: 0 <= j < |r| ==> r[j].value == sums[keys[j]]
  {
    seq(|keys|, j requires 0 <= j < |keys| => Group(keys[j], sums[keys[j]]))
  }

  /** A record holding every category's total, keyed in first-seen order, lists the groups. */
  lemma EntriesAreGroups(despesas: seq<Despesa>, keys: seq<string>, sums: map<string, int>)
    requires RecordHolds(GroupBy(despesas), keys, sums)
    ensures Entries(keys, sums) == GroupBy(despesas)
  {
    var groups := GroupBy(despesas);
    var entries := Entries(keys, sums);
    GroupByNames(despesas);
    forall j | 0 <= j < |keys|
      ensures entries[j] == groups[j]
    {
      ValueOfDistinct(groups, j);
    }
  }

  /** Summarising by category keeps the grand total. */
  lemma CategoryTotal(despesas: seq<Despesa>)
    ensures Total(SortDesc(GroupBy(despesas))) == ValorSum(despesas)
  {
    TotalSort(GroupBy(despesas));
    GroupByTotal(despesas);
  }

  // ---------------------------------------------------------------------
  // getExpensesByMonth

  /** `getExpensesByMonth`: one entry per month, January first, each the total of that month of `year`. */
  function GetExpensesByMonth(despesas: seq<Despesa>, year: int): (r: seq<MonthTotal>)
    ensures |r| == 12
    ensures forall i :: 0 <= i < 12 ==> r[i].month == MonthNames[i]
  {
    seq(12, i requires 0 <= i < 12 => MonthTotal(MonthNames[i], MonthSum(despesas, year, i + 1)))
  }

  /** The twelve entries add up to the year's expenses; expenses of other years or outside months 1..12 are left out. */
  lemma MonthsCoverYear(despesas: seq<Despesa>, year: int)
    ensures MonthTotalsSum(GetExpensesByMonth(despesas, year)) == YearSum(despesas, year)
  {
    var r := GetExpensesByMonth(despesas, year);
    MonthSuffix(despesas, year, 0);
    assert r[0..] == r;
    YearIsSumOfMonths(despesas, year);
  }

  lemma {:induction false} MonthSuffix(despesas: seq<Despesa>, year: int, k: nat)
    requires k <= 12
    ensures MonthTotalsSum(GetExpensesByMonth(despesas, year)[k..]) == MonthsFrom(despesas, year, k + 1)
    decreases 12 - k
  {
    var r := GetExpensesByMonth(despesas, year);
    if k < 12 {
      MonthSuffix(despesas, year, k + 1);
      assert r[k..][1..] == r[k + 1..];
    }
  }

  /** A new expense adds its value to the entry of its own month of `year`, and to no other entry. */
  lemma {:induction false} ExpenseLandsInItsMonth(despesas: seq<Despesa>, e: Despesa, year: int, i: nat)
    requires i < 12
    ensures GetExpensesByMonth(despesas + [e], year)[i].valor
         == GetExpensesByMonth(despesas, year)[i].valor + (if e.ano == year && e.mes == i + 1 then e.valor else 0)
  {
    assert (despesas + [e])[..|despesas|] == despesas;
  }

  /** An expense from another year changes no month. */
  lemma OtherYearIgnored(despesas: seq<Despesa>, e: Despesa, year: int)
    requires e.ano != year
    ensures GetExpensesByMonth(despesas + [e], year) == GetExpensesByMonth(despesas, year)
  {
    assert (despesas + [e])[..|despesas|] == despesas;
  }
}
