/** The data behind the pie chart of src/components/charts/ExpensesPieChart.tsx: the first six
    entries, and the rest rolled into one `Outros` slice. */
module PieChart {
  import opened Expenses

  const MaxSlices := 6
  const OthersName := "Outros"

  /** How many entries `slice(0, 6)` keeps. */
  function TopCount(data: seq<Group>): nat {
    if |data| < MaxSlices then |data| else MaxSlices
  }

  /** `othersValue`: the sum of the values after the sixth entry (`slice(6)` then `reduce`). */
  function OthersValue(data: seq<Group>): int {
    Total(data[TopCount(data)..])
  }

  /** `chartData`: the first six entries, then an `Outros` slice when the rest add up to more
      than zero. */
  function ChartData(data: seq<Group>): (r: seq<Group>)
    ensures |r| <= MaxSlices + 1
    ensures TopCount(data) <= |r| && r[..TopCount(data)] == data[..TopCount(data)]
    ensures |r| == TopCount(data) + 1 <==> OthersValue(data) > 0
    ensures |r| == TopCount(data) + 1 ==> r[TopCount(data)] == Group(OthersName, OthersValue(data))
  {
    var top := data[..TopCount(data)];
    if OthersValue(data) > 0 then top + [Group(OthersName, OthersValue(data))] else top
  }

  /** Six entries or fewer are charted as they are. */
  lemma FewEntriesUnchanged(data: seq<Group>)
    requires |data| <= MaxSlices
    ensures ChartData(data) == data
  {
    assert data[TopCount(data)..] == [];
    assert data[..TopCount(data)] == data;
  }

  lemma {:induction false} TotalNonNegative(gs: seq<Group>)
    requires forall i :: 0 <= i < |gs| ==> gs[i].value >= 0
    ensures Total(gs) >= 0
  {
    if gs != [] {
      TotalNonNegative(gs[1..]);
    }
  }

  /** The total of the entries is the total of the first `n` plus that of the rest. */
  lemma TotalAt(data: seq<Group>, n: nat)
    requires n <= |data|
    ensures Total(data) == Total(data[..n]) + Total(data[n..])
  {
    assert data == data[..n] + data[n..];
    TotalSplit(data[..n], data[n..]);
  }

  lemma RestNonNegative(data: seq<Group>, n: nat)
    requires n <= |data|
    requires forall i :: 0 <= i < |data| ==> data[i].value >= 0
    ensures Total(data[n..]) >= 0
  {
    var rest := data[n..];
    assert forall i :: 0 <= i < |rest| ==> rest[i] == data[n + i];
    TotalNonNegative(rest);
  }

  /** Appending one entry adds its value to the total. */
  lemma TotalAppendOne(gs: seq<Group>, g: Group)
    ensures Total(gs + [g]) == Total(gs) + g.value
  {
    TotalSplit(gs, [g]);
    assert [g][1..] == [];
  }

  /** The chart's total is that of the first six entries plus the `Outros` slice, when drawn. */
  lemma ChartTotal(data: seq<Group>)
    ensures Total(ChartData(data)) == Total(data[..TopCount(data)]) + (if OthersValue(data) > 0 then OthersValue(data) else 0)
  {
    var top := data[..TopCount(data)];
    if OthersValue(data) > 0 {
      var others := Group(OthersName, OthersValue(data));
      assert ChartData(data) == top + [others];
      TotalAppendOne(top, others);
    } else {
      assert ChartData(data) == top;
    }
  }

  /** With no negative values the pie shows the whole total. */
  lemma ChartKeepsTotal(data: seq<Group>)
    requires forall i :: 0 <= i < |data| ==> data[i].value >= 0
    ensures Total(ChartData(data)) == Total(data)
  {
    TotalAt(data, TopCount(data));
    RestNonNegative(data, TopCount(data));
    ChartTotal(data);
  }
}
