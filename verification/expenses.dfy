/** Expense summaries shared by src/data/mockDeputies.ts and the expense charts: grouping by
    category in order of first appearance, sorting by value, and monthly totals. */
module Expenses {
  import opened Js
  import opened Entities

  /** A `{ name, value }` entry of a chart (the bar chart calls the name `category`). */
  datatype Group = Group(name: string, value: int)

  function Names(gs: seq<Group>): (r: seq<string>)
    ensures |r| == |gs| && forall i :: 0 <= i < |gs| ==> r[i] == gs[i].name
  {
    if gs == [] then [] else [gs[0].name] + Names(gs[1..])
  }

  predicate Distinct(names: seq<string>) {
    forall i, j :: 0 <= i < j < |names| ==> names[i] != names[j]
  }

  /** The total of the values of the groups called `n`. */
  function ValueOf(gs: seq<Group>, n: string): int {
    if gs == [] then 0 else (if gs[0].name == n then gs[0].value else 0) + ValueOf(gs[1..], n)
  }

  function Total(gs: seq<Group>): int {
    if gs == [] then 0 else gs[0].value + Total(gs[1..])
  }

  /** What `valor` the expenses of category `c` add up to. */
  function CategorySum(es: seq<Despesa>, c: string): int {
    if es == [] then 0
    else CategorySum(es[..|es| - 1], c) + (if es[|es| - 1].categoria == c then es[|es| - 1].valor else 0)
  }

  function ValorSum(es: seq<Despesa>): int {
    if es == [] then 0 else ValorSum(es[..|es| - 1]) + es[|es| - 1].valor
  }

  /** One step of the grouping: add `v` to the group called `c`, or append a new group at the end. */
  function Add(gs: seq<Group>, c: string, v: int): (r: seq<Group>)
    ensures Names(r) == if c in Names(gs) then Names(gs) else Names(gs) + [c]
  {
    if gs == [] then [Group(c, v)]
    else if gs[0].name == c then [gs[0].(value := gs[0].value + v)] + gs[1..]
    else [gs[0]] + Add(gs[1..], c, v)
  }

  /** The expenses grouped by category, groups in order of the first expense of each category. */
  function GroupBy(es: seq<Despesa>): seq<Group> {
    if es == [] then []
    else Add(GroupBy(es[..|es| - 1]), es[|es| - 1].categoria, es[|es| - 1].valor)
  }

  /** One more expense adds it to the groups of the ones before. */
  lemma GroupByStep(despesas: seq<Despesa>, i: nat)
    requires i < |despesas|
    ensures GroupBy(despesas[..i + 1]) == Add(GroupBy(despesas[..i]), despesas[i].categoria, despesas[i].valor)
  {
    assert despesas[..i + 1][..i] == despesas[..i];
  }

  // ---------------------------------------------------------------------
  // What grouping computes

  lemma {:induction false} AddValueOf(gs: seq<Group>, c: string, v: int, n: string)
    ensures ValueOf(Add(gs, c, v), n) == ValueOf(gs, n) + (if n == c then v else 0)
  {
    if gs != [] && gs[0].name != c {
      AddValueOf(gs[1..], c, v, n);
    }
  }

  lemma {:induction false} AddTotal(gs: seq<Group>, c: string, v: int)
    ensures Total(Add(gs, c, v)) == Total(gs) + v
  {
    if gs != [] && gs[0].name != c {
      AddTotal(gs[1..], c, v);
    }
  }

  /** The groups of a category hold exactly the sum of its expenses. */
  lemma {:induction false} GroupByValueOf(es: seq<Despesa>, n: string)
    ensures ValueOf(GroupBy(es), n) == CategorySum(es, n)
  {
    if es != [] {
      GroupByValueOf(es[..|es| - 1], n);
      AddValueOf(GroupBy(es[..|es| - 1]), es[|es| - 1].categoria, es[|es| - 1].valor, n);
    }
  }

  /** Grouping neither loses nor adds money. */
  lemma {:induction false} GroupByTotal(es: seq<Despesa>)
    ensures Total(GroupBy(es)) == ValorSum(es)
  {
    if es != [] {
      GroupByTotal(es[..|es| - 1]);
      AddTotal(GroupBy(es[..|es| - 1]), es[|es| - 1].categoria, es[|es| - 1].valor);
    }
  }

  /** Some expense has category `c`. */
  predicate HasCategory(es: seq<Despesa>, c: string) {
    exists j :: 0 <= j < |es| && es[j].categoria == c
  }

  /** The categories of the expenses are those of all but the last, and the last one's. */
  lemma HasCategoryLast(es: seq<Despesa>)
    requires es != []
    ensures forall c :: HasCategory(es, c) <==> HasCategory(es[..|es| - 1], c) || c == es[|es| - 1].categoria
  {
    var init := es[..|es| - 1];
    forall c
      ensures HasCategory(es, c) <==> HasCategory(init, c) || c == es[|es| - 1].categoria
    {
      if HasCategory(es, c) {
        var j :| 0 <= j < |es| && es[j].categoria == c;
        if j < |init| { assert init[j] == es[j]; }
      }
      if HasCategory(init, c) {
        var j :| 0 <= j < |init| && init[j].categoria == c;
        assert es[j] == init[j];
      }
    }
  }

  lemma DistinctAppend(names: seq<string>, c: string)
    requires Distinct(names) && c !in names
    ensures Distinct(names + [c])
  {
  }

  /** One group per category: the names are distinct and are exactly the categories that occur. */
  lemma {:induction false} GroupByNames(es: seq<Despesa>)
    ensures Distinct(Names(GroupBy(es)))
    ensures forall c :: c in Names(GroupBy(es)) <==> HasCategory(es, c)
  {
    if es != [] {
      var init := es[..|es| - 1];
      var c := es[|es| - 1].categoria;
      GroupByNames(init);
      HasCategoryLast(es);
      var names := Names(GroupBy(init));
      assert Names(GroupBy(es)) == if c in names then names else names + [c];
      if c !in names {
        DistinctAppend(names, c);
      }
    }
  }

  /** Later expenses never reorder the groups already formed: the groups of a prefix name a prefix. */
  lemma {:induction false} GroupOrderStable(es: seq<Despesa>, k: nat)
    requires k <= |es|
    ensures Names(GroupBy(es[..k])) <= Names(GroupBy(es))
    decreases |es| - k
  {
    if k < |es| {
      GroupByStep(es, k);
      GroupOrderStable(es, k + 1);
      PrefixTrans(Names(GroupBy(es[..k])), Names(GroupBy(es[..k + 1])), Names(GroupBy(es)));
    } else {
      assert es[..k] == es;
    }
  }

  lemma PrefixTrans(a: seq<string>, b: seq<string>, c: seq<string>)
    requires a <= b && b <= c
    ensures a <= c
  {
  }

  /** An expense whose category has not occurred before opens a new group right after the existing ones. */
  lemma NewCategoryAppended(es: seq<Despesa>, k: nat)
    requires k < |es|
    requires forall j :: 0 <= j < k ==> es[j].categoria != es[k].categoria
    ensures Names(GroupBy(es[..k + 1])) == Names(GroupBy(es[..k])) + [es[k].categoria]
  {
    GroupByNames(es[..k]);
    assert es[..k + 1][..k] == es[..k];
  }

  /** With distinct names, `ValueOf` reads the value of the one group of that name. */
  lemma {:induction false} ValueOfDistinct(gs: seq<Group>, i: nat)
    requires Distinct(Names(gs)) && i < |gs|
    ensures ValueOf(gs, gs[i].name) == gs[i].value
  {
    if i == 0 {
      ValueOfAbsent(gs[1..], gs[0].name);
    } else {
      assert Names(gs[1..]) == Names(gs)[1..];
      ValueOfDistinct(gs[1..], i - 1);
    }
  }

  lemma {:induction false} ValueOfAbsent(gs: seq<Group>, n: string)
    requires n !in Names(gs)
    ensures ValueOf(gs, n) == 0
  {
    if gs != [] {
      assert Names(gs[1..]) == Names(gs)[1..];
      ValueOfAbsent(gs[1..], n);
    }
  }

  /** Adding to an existing group updates it where it is. */
  lemma {:induction false} AddExisting(gs: seq<Group>, c: string, v: int, idx: nat)
    requires idx < |gs| && gs[idx].name == c
    requires forall k :: 0 <= k < idx ==> gs[k].name != c
    ensures Add(gs, c, v) == gs[idx := gs[idx].(value := gs[idx].value + v)]
  {
    var x := gs[idx].(value := gs[idx].value + v);
    if idx > 0 {
      var tail := gs[1..];
      assert gs[0].name != c;
      assert Add(gs, c, v) == [gs[0]] + Add(tail, c, v);
      forall k | 0 <= k < idx - 1 ensures tail[k].name != c {
        assert tail[k] == gs[k + 1];
      }
      AddExisting(tail, c, v, idx - 1);
      UpdateTail(gs, idx, x);
    } else {
      assert gs[0 := x] == [x] + gs[1..];
    }
  }

  lemma UpdateTail(gs: seq<Group>, idx: nat, x: Group)
    requires 0 < idx < |gs|
    ensures gs[idx := x] == [gs[0]] + gs[1..][idx - 1 := x]
  {
  }

  /** Adding a new category appends a group. */
  lemma {:induction false} AddNew(gs: seq<Group>, c: string, v: int)
    requires forall k :: 0 <= k < |gs| ==> gs[k].name != c
    ensures Add(gs, c, v) == gs + [Group(c, v)]
  {
    if gs != [] {
      AddNew(gs[1..], c, v);
    }
  }

  // ---------------------------------------------------------------------
  // Sorting by value, largest first

  predicate SortedDesc(gs: seq<Group>) {
    forall i, j :: 0 <= i < j < |gs| ==> gs[i].value >= gs[j].value
  }

  /** Insert `g`, which came before every element of `s` in the input, after the elements
      strictly larger than it: ahead of equal ones, where a stable sort keeps it. */
  function InsertDesc(g: Group, s: seq<Group>): (r: seq<Group>)
    ensures multiset(r) == multiset(s) + multiset{g}
    ensures |r| == |s| + 1
  {
    if s == [] then [g]
    else if s[0].value > g.value then
      assert s == [s[0]] + s[1..];
      [s[0]] + InsertDesc(g, s[1..])
    else [g] + s
  }

  lemma {:induction false} InsertDescSorted(g: Group, s: seq<Group>)
    requires SortedDesc(s)
    ensures SortedDesc(InsertDesc(g, s))
  {
    if s != [] && s[0].value > g.value {
      var rest := InsertDesc(g, s[1..]);
      InsertDescSorted(g, s[1..]);
      forall j | 0 <= j < |rest|
        ensures rest[j].value <= s[0].value
      {
        assert rest[j] in multiset(rest);
        if rest[j] != g {
          assert rest[j] in multiset(s[1..]);
          var k :| 0 <= k < |s[1..]| && s[1..][k] == rest[j];
          assert s[k + 1] == rest[j];
        }
      }
    }
  }

  /** `sort((a, b) => b.value - a.value)`: a sort by value, largest first. */
  function SortDesc(s: seq<Group>): (r: seq<Group>)
    ensures SortedDesc(r)
    ensures multiset(r) == multiset(s)
    ensures |r| == |s|
  {
    if s == [] then []
    else
      assert s == [s[0]] + s[1..];
      InsertDescSorted(s[0], SortDesc(s[1..]));
      InsertDesc(s[0], SortDesc(s[1..]))
  }

  lemma {:induction false} TotalInsert(g: Group, s: seq<Group>)
    ensures Total(InsertDesc(g, s)) == g.value + Total(s)
  {
    if s != [] && s[0].value > g.value {
      TotalInsert(g, s[1..]);
    }
  }

  /** Sorting keeps the total. */
  lemma {:induction false} TotalSort(s: seq<Group>)
    ensures Total(SortDesc(s)) == Total(s)
  {
    if s != [] {
      TotalSort(s[1..]);
      TotalInsert(s[0], SortDesc(s[1..]));
    }
  }

  lemma {:induction false} TotalSplit(a: seq<Group>, b: seq<Group>)
    ensures Total(a + b) == Total(a) + Total(b)
  {
    if a != [] {
      assert (a + b)[1..] == a[1..] + b;
      TotalSplit(a[1..], b);
    } else {
      assert a + b == b;
    }
  }

  // ---------------------------------------------------------------------
  // Monthly totals

  const MonthNames: seq<string> := ["Jan", "Fev", "Mar", "Abr", "Mai", "Jun", "Jul", "Ago", "Set", "Out", "Nov", "Dez"]

  datatype MonthTotal = MonthTotal(month: string, valor: int)

  /** The `valor` of the expenses of month `mes` of `year`. */
  function MonthSum(es: seq<Despesa>, year: int, mes: int): int {
    if es == [] then 0
    else MonthSum(es[..|es| - 1], year, mes)
         + (if es[|es| - 1].ano == year && es[|es| - 1].mes == mes then es[|es| - 1].valor else 0)
  }

  /** The `valor` of the expenses of `year` whose month is one of the twelve. */
  function YearSum(es: seq<Despesa>, year: int): int {
    if es == [] then 0
    else YearSum(es[..|es| - 1], year)
         + (if es[|es| - 1].ano == year && 1 <= es[|es| - 1].mes <= 12 then es[|es| - 1].valor else 0)
  }

  function MonthTotalsSum(r: seq<MonthTotal>): int {
    if r == [] then 0 else r[0].valor + MonthTotalsSum(r[1..])
  }

  /** The sum over months `m .. 12`. */
  function MonthsFrom(es: seq<Despesa>, year: int, m: int): int
    decreases 13 - m
  {
    if m > 12 then 0 else MonthSum(es, year, m) + MonthsFrom(es, year, m + 1)
  }

  /** Adding one expense adds its value to the months `m .. 12` when it falls in one of them. */
  lemma {:induction false} MonthsFromStep(es: seq<Despesa>, e: Despesa, year: int, m: int)
    ensures MonthsFrom(es + [e], year, m)
         == MonthsFrom(es, year, m) + (if e.ano == year && m <= e.mes <= 12 then e.valor else 0)
    decreases 13 - m
  {
    if m <= 12 {
      assert (es + [e])[..|es + [e]| - 1] == es;
      MonthsFromStep(es, e, year, m + 1);
    }
  }

  /** The twelve monthly totals add up to the year's total. */
  lemma {:induction false} YearIsSumOfMonths(es: seq<Despesa>, year: int)
    ensures YearSum(es, year) == MonthsFrom(es, year, 1)
  {
    if es == [] {
      MonthsFromEmpty(year, 1);
    } else {
      var init, e := es[..|es| - 1], es[|es| - 1];
      YearIsSumOfMonths(init, year);
      assert init + [e] == es;
      MonthsFromStep(init, e, year, 1);
    }
  }

  lemma {:induction false} MonthsFromEmpty(year: int, m: int)
    ensures MonthsFrom([], year, m) == 0
    decreases 13 - m
  {
    if m <= 12 {
      MonthsFromEmpty(year, m + 1);
    }
  }

  /** Every entry of the sorted groups is a category of the expenses, holding that category's total. */
  lemma SortedGroupsAreCategorySums(despesas: seq<Despesa>, i: nat)
    requires i < |SortDesc(GroupBy(despesas))|
    ensures var g := SortDesc(GroupBy(despesas))[i];
            g.value == CategorySum(despesas, g.name) && HasCategory(despesas, g.name)
  {
    var groups := GroupBy(despesas);
    var g := SortDesc(groups)[i];
    assert g in multiset(groups);
    var k :| 0 <= k < |groups| && groups[k] == g;
    GroupByNames(despesas);
    ValueOfDistinct(groups, k);
    GroupByValueOf(despesas, g.name);
  }
}
