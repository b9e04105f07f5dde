/** The ranking of analysis.py (`perform_analysis`): the backlog is flattened
    into one row per task, the rows are sorted in place by descending weight,
    and a running total of the estimates is added as the calendar distance.
    Plotting and styling of the table are not modelled. */
module Analysis {
  import opened Wrappers
  import opened Units
  import opened Issues

  /** One row of the table. `index` is the row's index label, which is its
      position in encounter order and travels with the row when it is sorted. */
  datatype Row = Row(index: nat, summary: string, estimate: Uncertain, weight: real,
                     url: string, age: int, timebox: real)

  /** Why building the table raises: a zero divisor in some row's weight, or
      no rows at all (the column-less frame has no `weight` column). */
  datatype AnalysisError = ZeroDivision | NoRows

  /** Number of tasks over all PBIs. */
  function TaskCount(pbis: seq<PBI>): nat
  {
    if pbis == [] then 0 else |pbis[0].tasks| + TaskCount(pbis[1..])
  }

  /** Every (pbi, task) pair, in PBI order and then task order. */
  function Pairs(pbis: seq<PBI>): (ps: seq<(PBI, Task)>)
    ensures |ps| == TaskCount(pbis)
  {
    if pbis == [] then []
    else seq(|pbis[0].tasks|, j requires 0 <= j < |pbis[0].tasks| => (pbis[0], pbis[0].tasks[j])) + Pairs(pbis[1..])
  }

  /** Task j of PBI p is pair number TaskCount(pbis[..p]) + j: the pairs run
      through the PBIs in order and through each PBI's tasks in order. */
  lemma {:induction false} PairIndex(pbis: seq<PBI>, p: nat, j: nat)
    requires p < |pbis| && j < |pbis[p].tasks|
    ensures TaskCount(pbis[..p]) + j < |Pairs(pbis)|
    ensures Pairs(pbis)[TaskCount(pbis[..p]) + j] == (pbis[p], pbis[p].tasks[j])
  {
    if p == 0 {
      assert pbis[..0] == [];
    } else {
      assert pbis[..p][1..] == pbis[1..][..p - 1];
      assert pbis[..p][0] == pbis[0];
      PairIndex(pbis[1..], p - 1, j);
    }
  }

  /** The weight of a task's row: the task's prorated share of its PBI's
      value plus its own learning value and learning ratio, per hour of the
      task's estimate. `None` where a divisor is zero. The weight comes out
      as the PBI's weight plus the task's learning value per hour plus its
      learning ratio. */
  function RowWeight(p: PBI, t: Task): (w: Option<real>)
    ensures w.Some? <==> E(p) != 0.0 && t.estimate.nominal != 0.0
    ensures w.Some? ==>
              && W(p).Some?
              && w.value == W(p).value + t.learnedValue.nominal / t.estimate.nominal + t.header.learningRatio
  {
    if E(p) == 0.0 || t.estimate.nominal == 0.0 then None
    else Some(WeightFormula(p.value.nominal, E(p), t.estimate.nominal, t.learnedValue.nominal, t.header.learningRatio))
  }

  /** (v·e/s + l + r·e)/e for PBI value v, PBI estimate s, task estimate e,
      learning value l and learning ratio r; it equals v/s + l/e + r. */
  function WeightFormula(v: real, s: real, e: real, l: real, r: real): (w: real)
    requires s != 0.0 && e != 0.0
    ensures w == v / s + l / e + r
  {
    assert (v * e / s) / e == v / s;
    assert (r * e) / e == r;
    (v * e / s + l + r * e) / e
  }

  /** A task with no learning value and no learning ratio has its PBI's weight:
      V = 10 h over E = 2 h gives 5, V = 1 h over E = 4 h gives 0.25. */
  lemma PlainTaskHasPbiWeight(p: PBI, t: Task)
    requires RowWeight(p, t).Some?
    requires t.learnedValue.nominal == 0.0 && t.header.learningRatio == 0.0
    ensures RowWeight(p, t) == W(p)
    ensures p.value.nominal == 10.0 && E(p) == 2.0 ==> RowWeight(p, t) == Some(5.0)
    ensures p.value.nominal == 1.0 && E(p) == 4.0 ==> RowWeight(p, t) == Some(0.25)
  {
  }

  /** Age of a PBI in whole days. */
  function Age(p: PBI, today: Date): int
  {
    today - p.creationDate
  }

  /** The row built for task t of PBI p at position `key`. */
  function MakeRow(key: nat, p: PBI, t: Task, today: Date): (row: Row)
    requires RowWeight(p, t).Some?
    ensures row.index == key && row.weight == RowWeight(p, t).value
    ensures row.timebox >= row.estimate.nominal
  {
    Row(key, t.header.title, t.estimate, RowWeight(p, t).value, t.header.url, Age(p, today), Timebox(t))
  }

  /** The table before sorting: one row per (pbi, task) pair, labelled by
      its position. A zero divisor in any row raises before the empty case
      is reached. */
  function Flatten(pbis: seq<PBI>, today: Date): (r: Result<seq<Row>, AnalysisError>)
    ensures r == Failure(ZeroDivision) <==> !WeightsDefined(Pairs(pbis))
    ensures r == Failure(NoRows) <==> TaskCount(pbis) == 0
    ensures r.Success? ==> |r.value| == TaskCount(pbis) > 0 && Labelled(r.value)
  {
    var ps := Pairs(pbis);
    if !WeightsDefined(ps) then Failure(ZeroDivision)
    else if ps == [] then Failure(NoRows)
    else Success(seq(|ps|, i requires 0 <= i < |ps| => MakeRow(i, ps[i].0, ps[i].1, today)))
  }

  /** No pair's weight divides by zero. */
  predicate WeightsDefined(ps: seq<(PBI, Task)>)
  {
    forall i :: 0 <= i < |ps| ==> RowWeight(ps[i].0, ps[i].1).Some?
  }

  /** Each row's label is its position. */
  predicate Labelled(rows: seq<Row>)
  {
    forall i :: 0 <= i < |rows| ==> rows[i].index == i
  }

  /** The row of task j of PBI p sits at position TaskCount(pbis[..p]) + j and
      carries that task's title, estimate, url and timebox, the PBI's age, and
      the weight of the pair. Every task of one PBI has the same age. */
  lemma FlattenedRowOfTask(pbis: seq<PBI>, today: Date, p: nat, j: nat)
    requires Flatten(pbis, today).Success?
    requires p < |pbis| && j < |pbis[p].tasks|
    ensures var rows, i, t := Flatten(pbis, today).value, TaskCount(pbis[..p]) + j, pbis[p].tasks[j];
            && i < |rows|
            && RowWeight(pbis[p], t).Some?
            && rows[i] == Row(i, t.header.title, t.estimate, RowWeight(pbis[p], t).value,
                              t.header.url, today - pbis[p].creationDate, Timebox(t))
  {
    PairIndex(pbis, p, j);
  }

  // ---- Sorting in place by descending weight ----

  /** Weights never increase along the sequence. */
  predicate SortedByWeight(rows: seq<Row>)
  {
    forall i, j :: 0 <= i < j < |rows| ==> rows[i].weight >= rows[j].weight
  }

  /** `sorted` is one admissible result of sorting `rows` by descending
      weight: the same rows, heaviest first, ties in any order. */
  predicate IsRanking(sorted: seq<Row>, rows: seq<Row>)
  {
    multiset(sorted) == multiset(rows) && SortedByWeight(sorted)
  }

  /** Position of a heaviest row among a[from..]. */
  method IndexOfHeaviest(a: array<Row>, from: nat) returns (m: nat)
    requires from < a.Length
    ensures from <= m < a.Length
    ensures forall k :: from <= k < a.Length ==> a[k].weight <= a[m].weight
  {
    m := from;
    var k := from + 1;
    while k < a.Length
      invariant from <= m < k <= a.Length
      invariant forall l :: from <= l < k ==> a[l].weight <= a[m].weight
    {
      if a[k].weight > a[m].weight {
        m := k;
      }
      k := k + 1;
    }
  }

  method Swap(a: array<Row>, i: nat, j: nat)
    requires i < a.Length && j < a.Length
    modifies a
    ensures a[i] == old(a[j]) && a[j] == old(a[i])
    ensures forall k :: 0 <= k < a.Length && k != i && k != j ==> a[k] == old(a[k])
    ensures multiset(a[..]) == multiset(old(a[..]))
  {
    a[i], a[j] := a[j], a[i];
  }

  /** `sort_values(by='weight', ascending=False, inplace=True)`: a selection
      sort, which like the default sort does not keep ties in order. */
  method SortByWeight(a: array<Row>)
    modifies a
    ensures IsRanking(a[..], old(a[..]))
  {
    var i := 0;
    while i < a.Length
      invariant 0 <= i <= a.Length
      invariant forall k, l :: 0 <= k < l < i ==> a[k].weight >= a[l].weight
      invariant forall k, l :: 0 <= k < i <= l < a.Length ==> a[k].weight >= a[l].weight
      invariant multiset(a[..]) == multiset(old(a[..]))
    {
      var m := IndexOfHeaviest(a, i);
      Swap(a, i, m);
      i := i + 1;
    }
  }

  // ---- Calendar distance ----

  /** Sum of the nominal estimates of the first k rows. */
  function PrefixHours(rows: seq<Row>, k: nat): real
    requires k <= |rows|
  {
    if k == 0 then 0.0 else PrefixHours(rows, k - 1) + rows[k - 1].estimate.nominal
  }

  /** `estimate.cumsum()` followed by the nominal value: entry k is the sum of
      the nominal estimates of rows 0..k. */
  method CalendarDistance(rows: seq<Row>) returns (d: seq<real>)
    ensures |d| == |rows|
    ensures forall k :: 0 <= k < |d| ==> d[k] == PrefixHours(rows, k + 1)
  {
    d := [];
    var running := 0.0;
    for i := 0 to |rows|
      invariant |d| == i
      invariant running == PrefixHours(rows, i)
      invariant forall k :: 0 <= k < i ==> d[k] == PrefixHours(rows, k + 1)
    {
      running := running + rows[i].estimate.nominal;
      d := d + [running];
    }
  }

  /** The first row's distance is its own estimate. */
  lemma FirstDistanceIsOwnEstimate(rows: seq<Row>)
    requires rows != []
    ensures PrefixHours(rows, 1) == rows[0].estimate.nominal
  {
  }

  /** With no negative estimate, the running total never decreases. */
  lemma {:induction false} PrefixHoursMonotone(rows: seq<Row>, i: nat, j: nat)
    requires i <= j <= |rows|
    requires forall k :: 0 <= k < |rows| ==> rows[k].estimate.nominal >= 0.0
    ensures PrefixHours(rows, i) <= PrefixHours(rows, j)
    decreases j
  {
    if i < j {
      PrefixHoursMonotone(rows, i, j - 1);
    }
  }

  /** The ranked table with its calendar distance column. */
  datatype Table = Table(rows: seq<Row>, calendarDistanceHours: seq<real>)

  /** The part of `perform_analysis` that computes the table it returns. */
  method PerformAnalysis(pbis: seq<PBI>, today: Date) returns (r: Result<Table, AnalysisError>)
    ensures Flatten(pbis, today).Failure? ==> r == Failure(Flatten(pbis, today).error)
    ensures Flatten(pbis, today).Success? ==>
              && r.Success?
              && IsRanking(r.value.rows, Flatten(pbis, today).value)
              && |r.value.calendarDistanceHours| == |r.value.rows|
              && forall k :: 0 <= k < |r.value.rows| ==>
                   r.value.calendarDistanceHours[k] == PrefixHours(r.value.rows, k + 1)
  {
    var flat := Flatten(pbis, today);
    if flat.Failure? {
      return Failure(flat.error);
    }
    var rows := flat.value;
    var a := new Row[|rows|](i requires 0 <= i < |rows| => rows[i]);
    assert a[..] == rows;
    SortByWeight(a);
    var d := CalendarDistance(a[..]);
    r := Success(Table(a[..], d));
  }

  // ---- Addressing rows by label after the sort ----

  /** `full.loc[key]`: the row whose label is `key`, wherever the sort
      has put it; `None` where pandas raises KeyError. */
  function RowAt(rows: seq<Row>, key: int): (r: Option<Row>)
    ensures r.Some? ==> r.value in rows && r.value.index == key
    ensures r.None? ==> forall i :: 0 <= i < |rows| ==> rows[i].index != key
  {
    if rows == [] then None
    else if rows[0].index == key then Some(rows[0])
    else RowAt(rows[1..], key)
  }

  /** Sorting never changes which row a label addresses: in any ranking of a
      labelled table, label k finds the k-th row in encounter order, and a
      label outside 0..n-1 finds nothing. */
  lemma RankingKeepsLabels(sorted: seq<Row>, rows: seq<Row>, key: int)
    requires multiset(sorted) == multiset(rows) && Labelled(rows)
    ensures 0 <= key < |rows| ==> RowAt(sorted, key) == Some(rows[key])
    ensures !(0 <= key < |rows|) ==> RowAt(sorted, key) == None
  {
    var r := RowAt(sorted, key);
    if 0 <= key < |rows| {
      assert rows[key] in multiset(sorted);
      var i :| 0 <= i < |sorted| && sorted[i] == rows[key];
      assert r.Some?;
    }
    if r.Some? {
      assert r.value in multiset(rows);
      var i :| 0 <= i < |rows| && rows[i] == r.value;
      assert i == key;
    }
  }

  /** A ranking of two rows of different weights puts the heavier first. */
  lemma RankingOfTwo(sorted: seq<Row>, a: Row, b: Row)
    requires IsRanking(sorted, [a, b]) && a.weight > b.weight
    ensures sorted == [a, b]
  {
    assert |sorted| == |multiset(sorted)| == 2;
    assert sorted == [sorted[0], sorted[1]];
    assert multiset{sorted[0], sorted[1]} == multiset{a, b};
    assert sorted[0] in multiset{a, b} && sorted[1] in multiset{a, b};
  }

  /** Two single-task PBIs, 10 h of value over a 2 h task and 1 h of value
      over a 4 h task, flatten to rows of weight 5 and 0.25. */
  lemma TwoItemTable(p1: PBI, p2: PBI, today: Date)
    requires |p1.tasks| == 1 && |p2.tasks| == 1
    requires p1.value.nominal == 10.0 && p1.tasks[0].estimate.nominal == 2.0
    requires p2.value.nominal == 1.0 && p2.tasks[0].estimate.nominal == 4.0
    requires forall t :: t in p1.tasks + p2.tasks ==> t.learnedValue.nominal == 0.0 && t.header.learningRatio == 0.0
    ensures Flatten([p1, p2], today).Success?
    ensures var rows := Flatten([p1, p2], today).value;
            && |rows| == 2
            && rows[0].weight == 5.0 && rows[0].estimate == p1.tasks[0].estimate
            && rows[1].weight == 0.25 && rows[1].estimate == p2.tasks[0].estimate
  {
    var pbis := [p1, p2];
    SingleTaskEstimate(p1);
    SingleTaskEstimate(p2);
    assert pbis[..0] == [] && pbis[..1] == [p1] && pbis[1..] == [p2] && pbis[1..][1..] == [];
    PlainTaskHasPbiWeight(p1, p1.tasks[0]);
    PlainTaskHasPbiWeight(p2, p2.tasks[0]);
    PairIndex(pbis, 0, 0);
    PairIndex(pbis, 1, 0);
    assert Pairs(pbis) == [(p1, p1.tasks[0]), (p2, p2.tasks[0])];
    FlattenedRowOfTask(pbis, today, 0, 0);
    FlattenedRowOfTask(pbis, today, 1, 0);
  }

  /** The same two PBIs: in every ranking the first task (weight 5) comes
      before the second (weight 0.25), and their calendar distances are 2 h
      and 6 h. */
  lemma TwoItemRanking(p1: PBI, p2: PBI, today: Date, sorted: seq<Row>)
    requires |p1.tasks| == 1 && |p2.tasks| == 1
    requires p1.value.nominal == 10.0 && p1.tasks[0].estimate.nominal == 2.0
    requires p2.value.nominal == 1.0 && p2.tasks[0].estimate.nominal == 4.0
    requires forall t :: t in p1.tasks + p2.tasks ==> t.learnedValue.nominal == 0.0 && t.header.learningRatio == 0.0
    requires Flatten([p1, p2], today).Success?
    requires IsRanking(sorted, Flatten([p1, p2], today).value)
    ensures var rows := Flatten([p1, p2], today).value;
            && sorted == [rows[0], rows[1]]
            && PrefixHours(sorted, 1) == 2.0 && PrefixHours(sorted, 2) == 6.0
  {
    TwoItemTable(p1, p2, today);
    var rows := Flatten([p1, p2], today).value;
    assert rows == [rows[0], rows[1]];
    RankingOfTwo(sorted, rows[0], rows[1]);
  }
}
