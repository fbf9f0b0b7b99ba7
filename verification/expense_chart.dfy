/** The data behind the bar chart of src/components/charts/ExpenseChart.tsx: expenses grouped by
    category, the eight largest groups, and the axis labels. */
module ExpenseChart {
  import opened Entities
  import opened Expenses

  /** `acc.find(item => item.category === categoria)`, as the index of the first match, or
      `|acc|` when there is none. */
  method Find(acc: seq<Group>, categoria: string) returns (j: nat)
    ensures j <= |acc|
    ensures j < |acc| ==> acc[j].name == categoria
    ensures forall k :: 0 <= k < j ==> acc[k].name != categoria
  {
    j := 0;
    while j < |acc| && acc[j].name != categoria
      invariant j <= |acc|
      invariant forall k :: 0 <= k < j ==> acc[k].name != categoria
    {
      j := j + 1;
    }
  }

  /** Adding to the group `find` returned, or pushing a new one when it returned none, is `Add`. */
  lemma FoundOrNew(acc: seq<Group>, c: string, v: int, j: nat)
    requires j <= |acc| && (j < |acc| ==> acc[j].name == c)
    requires forall k :: 0 <= k < j ==> acc[k].name != c
    ensures j < |acc| ==> Add(acc, c, v) == acc[j := Group(acc[j].name, acc[j].value + v)]
    ensures j == |acc| ==> Add(acc, c, v) == acc + [Group(c, v)]
  {
    if j < |acc| {
      AddExisting(acc, c, v, j);
    } else {
      AddNew(acc, c, v);
    }
  }

  /** The callback of the grouping `reduce`: add the expense to the group `find` returns for
      its category, or push a new group when there is none. */
  method Accumulate(acc: seq<Group>, expense: Despesa) returns (next: seq<Group>)
    ensures next == Add(acc, expense.categoria, expense.valor)
  {
    var j := Find(acc, expense.categoria);
    FoundOrNew(acc, expense.categoria, expense.valor, j);
    if j < |acc| {
      next := acc[j := Group(acc[j].name, acc[j].value + expense.valor)];
    } else {
      next := acc + [Group(expense.categoria, expense.valor)];
    }
  }

  /** The grouping `reduce`, starting from no groups. */
  method GroupExpenses(expenses: seq<Despesa>) returns (acc: seq<Group>)
    ensures acc == GroupBy(expenses)
  {
    acc := [];
    assert expenses[..0] == [];
    for i := 0 to |expenses|
      invariant acc == GroupBy(expenses[..i])
    {
      GroupByStep(expenses, i);
      acc := Accumulate(acc, expenses[i]);
    }
    assert expenses[..|expenses|] == expenses;
  }

  const MaxBars := 8

  /** How many bars `slice(0, 8)` keeps. */
  function BarCount(groups: seq<Group>): nat {
    if |groups| < MaxBars then |groups| else MaxBars
  }

  /** `sort` by value, largest first, then `slice(0, 8)`. */
  function TopCategories(groups: seq<Group>): (r: seq<Group>)
    ensures |r| == BarCount(groups) <= MaxBars
  {
    SortDesc(groups)[..BarCount(groups)]
  }

  /** The bars are in order of value, largest first, and are drawn from the groups. */
  lemma TopCategoriesSorted(groups: seq<Group>)
    ensures SortedDesc(TopCategories(groups))
    ensures multiset(TopCategories(groups)) <= multiset(groups)
  {
    var sorted := SortDesc(groups);
    var n := BarCount(groups);
    assert sorted == sorted[..n] + sorted[n..];
  }

  /** No group left out has a larger value than a group shown. */
  lemma TopCategoriesAreLargest(groups: seq<Group>, i: nat, j: nat)
    requires i < BarCount(groups) <= j < |groups|
    ensures TopCategories(groups)[i].value >= SortDesc(groups)[j].value
  {
  }

  /** Every bar of the chart is a category of the expenses, holding that category's total
      (`TopCategoriesAreLargest` states that no category left out has a larger total). */
  lemma TopCategoriesOfExpenses(expenses: seq<Despesa>, i: nat)
    requires i < |TopCategories(GroupBy(expenses))|
    ensures var g := TopCategories(GroupBy(expenses))[i];
            g.value == CategorySum(expenses, g.name) && HasCategory(expenses, g.name)
  {
    SortedGroupsAreCategorySums(expenses, i);
  }

  /** With at most eight categories every one is shown. */
  lemma FewCategoriesAllShown(groups: seq<Group>)
    requires |groups| <= MaxBars
    ensures multiset(TopCategories(groups)) == multiset(groups)
  {
    var sorted := SortDesc(groups);
    assert sorted[..|sorted|] == sorted;
  }

  /** `truncateCategory`: names up to `maxLength` characters are kept; longer ones are cut to
      `maxLength` characters (none when `maxLength` is negative) followed by `...`. */
  function TruncateCategory(category: string, maxLength: int): (r: string)
    ensures |category| <= maxLength ==> r == category
    ensures |category| > maxLength ==>
              var keep := if maxLength < 0 then 0 else maxLength;
              |r| == keep + 3 && r[..keep] == category[..keep] && r[keep..] == "..."
  {
    if |category| <= maxLength then category
    else category[..if maxLength < 0 then 0 else maxLength] + "..."
  }

  const DefaultMaxLength := 20

  /** A label never runs past `maxLength` characters plus the ellipsis, and always begins with
      as much of the name as it shows. */
  lemma TruncateBounded(category: string, maxLength: nat)
    ensures |TruncateCategory(category, maxLength)| <= maxLength + 3
    ensures var r := TruncateCategory(category, maxLength);
            r == category || (category[..maxLength] <= r && maxLength < |category|)
  {
  }

  /** The tick label as the chart draws it: the axis calls its formatter with the tick value and
      the tick's index, so the index takes the place of `maxLength`. */
  function TickLabelAsWritten(category: string, index: nat): (r: string)
    ensures |r| <= index + 3
  {
    TruncateCategory(category, index)
  }

  /** The first bar of any category with a name is labelled just `...`. */
  lemma FirstTickLosesName(category: string)
    requires category != ""
    ensures TickLabelAsWritten(category, 0) == "..."
  {
  }

  /** The label with the default limit of 20 characters, independent of the tick's position. */
  function TickLabel(category: string): (r: string)
    ensures |category| <= DefaultMaxLength ==> r == category
    ensures |r| <= DefaultMaxLength + 3
  {
    TruncateCategory(category, DefaultMaxLength)
  }

  /** With the default limit, a short name is shown whole at every position, while the
      as-written label shows a name of up to 20 characters (not ending in a dot) whole only
      from the tick whose index reaches its length. */
  lemma TickLabelPositionIndependent(category: string, index: nat)
    requires 0 < |category| <= DefaultMaxLength && category[|category| - 1] != '.'
    ensures TickLabel(category) == category
    ensures TickLabelAsWritten(category, index) == category <==> |category| <= index
  {
    var r := TickLabelAsWritten(category, index);
    if index < |category| {
      assert r[|r| - 1] == '.';
    }
  }

  /** The labels under the bars. */
  function AxisLabels(top: seq<Group>): (r: seq<string>)
    ensures |r| == |top|
    ensures forall i :: 0 <= i < |top| ==> r[i] == TickLabel(top[i].name)
  {
    seq(|top|, i requires 0 <= i < |top| => TickLabel(top[i].name))
  }
}
