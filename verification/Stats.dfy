/** The statistics of the table: grouping by (label, status), folding the groups,
    and what the fold says about the rows. */
module Stats {
  import opened Model
  import opened EditsTable
  import opened Pipeline
  import opened NoLoss

  /** One row of the grouped query. */
  datatype StatRow = StatRow(category: Option<string>, status: Status, count: nat)

  /** Which rows of the table, or groups of rows, a figure counts. */
  datatype Filter = Everything | AnyLabel | Labelled(category: string) | InStatus(status: Status)

  predicate Keeps(f: Filter, category: Option<string>, status: Status) {
    match f
    case Everything => true
    case AnyLabel => category.Some?
    case Labelled(l) => category == Some(l)
    case InStatus(st) => status == st
  }

  function Tally(rows: seq<StatRow>, f: Filter): nat {
    if rows == [] then 0
    else
      var last := rows[|rows| - 1];
      Tally(rows[..|rows| - 1], f) + if Keeps(f, last.category, last.status) then last.count else 0
  }

  lemma TallySnoc(rows: seq<StatRow>, row: StatRow, f: Filter)
    ensures Tally(rows + [row], f) == Tally(rows, f) + if Keeps(f, row.category, row.status) then row.count else 0
  {
    assert (rows + [row])[..|rows|] == rows;
  }

  function Get<K>(m: map<K, nat>, k: K): nat {
    if k in m then m[k] else 0
  }

  predicate Mentions(rows: seq<StatRow>, l: string) {
    exists i | 0 <= i < |rows| :: rows[i].category == Some(l)
  }

  /** `summarize_stats`: a NULL label counts towards the total and its status only,
      and keys that do not occur are absent. */
  method SummarizeStats(rows: seq<StatRow>)
    returns (total: nat, byLabel: map<string, nat>, byStatus: map<Status, nat>)
    ensures total == Tally(rows, Everything)
    ensures forall l :: l in byLabel <==> Mentions(rows, l)
    ensures forall l :: Get(byLabel, l) == Tally(rows, Labelled(l))
    ensures forall st :: Get(byStatus, st) == Tally(rows, InStatus(st))
    ensures forall st :: st in byStatus <==> exists i | 0 <= i < |rows| :: rows[i].status == st
  {
    total, byLabel, byStatus := 0, map[], map[];
    var i := 0;
    while i < |rows|
      invariant 0 <= i <= |rows|
      invariant total == Tally(rows[..i], Everything)
      invariant forall l :: l in byLabel <==> Mentions(rows[..i], l)
      invariant forall l :: Get(byLabel, l) == Tally(rows[..i], Labelled(l))
      invariant forall st :: Get(byStatus, st) == Tally(rows[..i], InStatus(st))
      invariant forall st :: st in byStatus <==> exists j | 0 <= j < i :: rows[j].status == st
    {
      var row := rows[i];
      assert rows[..i + 1] == rows[..i] + [row];
      forall f: Filter ensures Tally(rows[..i + 1], f) ==
          Tally(rows[..i], f) + if Keeps(f, row.category, row.status) then row.count else 0 {
        TallySnoc(rows[..i], row, f);
      }
      total := total + row.count;
      if row.category.Some? {
        byLabel := byLabel[row.category.value := Get(byLabel, row.category.value) + row.count];
      }
      byStatus := byStatus[row.status := Get(byStatus, row.status) + row.count];
      forall l ensures l in byLabel <==> Mentions(rows[..i + 1], l) {
        MentionsSnoc(rows[..i], row, l);
      }
      i := i + 1;
    }
    assert rows[..i] == rows;
  }

  lemma MentionsSnoc(rows: seq<StatRow>, row: StatRow, l: string)
    ensures Mentions(rows + [row], l) <==> Mentions(rows, l) || row.category == Some(l)
  {
    var all := rows + [row];
    if Mentions(rows, l) {
      var i :| 0 <= i < |rows| && rows[i].category == Some(l);
      assert all[i].category == Some(l);
    }
    assert all[|rows|] == row;
  }

  // ---------------------------------------------------------------- grouping

  predicate Matches(r: Row, row: StatRow) {
    r.category == row.category && r.status == row.status
  }

  function Members(t: Table, row: StatRow): set<string> {
    set id | id in t && Matches(t[id], row)
  }

  predicate SameGroup(a: StatRow, b: StatRow) {
    a.category == b.category && a.status == b.status
  }

  /** `rows` are distinct groups of `t`, with their sizes. */
  ghost predicate Groups(t: Table, rows: seq<StatRow>) {
    && (forall i | 0 <= i < |rows| :: rows[i].count == |Members(t, rows[i])| > 0)
    && (forall i, j | 0 <= i < j < |rows| :: !SameGroup(rows[i], rows[j]))
  }

  /** `rows` is a result of GROUP BY label, status over `t`, in whatever order. */
  ghost predicate GroupedBy(t: Table, rows: seq<StatRow>) {
    Groups(t, rows) && AllCovered(t, rows)
  }

  ghost predicate AllCovered(t: Table, rows: seq<StatRow>) {
    forall id | id in t :: Covered(t[id], rows)
  }

  ghost predicate Covered(r: Row, rows: seq<StatRow>) {
    exists i | 0 <= i < |rows| :: Matches(r, rows[i])
  }

  ghost function Counted(t: Table, rows: seq<StatRow>, f: Filter): set<string> {
    set id | id in t && Covered(t[id], rows) && Keeps(f, t[id].category, t[id].status)
  }

  /** Folding distinct groups counts the rows they cover. */
  lemma {:induction false} TallyCounts(t: Table, rows: seq<StatRow>, f: Filter)
    requires Groups(t, rows)
    ensures Tally(rows, f) == |Counted(t, rows, f)|
    decreases |rows|
  {
    if rows == [] {
      assert Counted(t, rows, f) == {};
    } else {
      var before, last := rows[..|rows| - 1], rows[|rows| - 1];
      assert before + [last] == rows;
      TallyCounts(t, before, f);
      CountedSnoc(t, before, last, f);
    }
  }

  /** A further group adds its members, all or none. */
  lemma CountedSnoc(t: Table, before: seq<StatRow>, last: StatRow, f: Filter)
    requires forall i | 0 <= i < |before| :: !SameGroup(before[i], last)
    ensures |Counted(t, before + [last], f)| ==
            |Counted(t, before, f)| + if Keeps(f, last.category, last.status) then |Members(t, last)| else 0
  {
    var some := if Keeps(f, last.category, last.status) then Members(t, last) else {};
    CountedGrows(t, before, last, f, some);
    assert Counted(t, before, f) !! some;
  }

  lemma CountedGrows(t: Table, before: seq<StatRow>, last: StatRow, f: Filter, some: set<string>)
    requires forall i | 0 <= i < |before| :: !SameGroup(before[i], last)
    requires some == if Keeps(f, last.category, last.status) then Members(t, last) else {}
    ensures Counted(t, before + [last], f) == Counted(t, before, f) + some
    ensures forall id | id in some :: id !in Counted(t, before, f)
  {
    forall id | id in t
      ensures Covered(t[id], before + [last]) <==> Covered(t[id], before) || Matches(t[id], last)
      ensures Matches(t[id], last) ==> !Covered(t[id], before)
    {
      CoveredSnoc(t[id], before, last);
      NotCoveredTwice(t[id], before, last);
    }
  }

  lemma NotCoveredTwice(r: Row, before: seq<StatRow>, last: StatRow)
    requires forall i | 0 <= i < |before| :: !SameGroup(before[i], last)
    ensures Matches(r, last) ==> !Covered(r, before)
  {
  }

  lemma CoveredSnoc(r: Row, rows: seq<StatRow>, last: StatRow)
    ensures Covered(r, rows + [last]) <==> Covered(r, rows) || Matches(r, last)
  {
    var all := rows + [last];
    if Covered(r, rows) {
      var i :| 0 <= i < |rows| && Matches(r, rows[i]);
      assert Matches(r, all[i]);
    }
    assert all[|rows|] == last;
  }

  /** The rows of `t` a figure is about. */
  function Chosen(t: Table, f: Filter): set<string> {
    set id | id in t && Keeps(f, t[id].category, t[id].status)
  }

  lemma CountedIsChosen(t: Table, rows: seq<StatRow>, f: Filter)
    requires AllCovered(t, rows)
    ensures Counted(t, rows, f) == Chosen(t, f)
  {
  }

  /** Whatever order the groups come in, each figure is the direct count. */
  lemma {:induction false} FiguresAreDirectCounts(t: Table, rows: seq<StatRow>, f: Filter)
    requires GroupedBy(t, rows)
    ensures Tally(rows, f) == |Chosen(t, f)|
  {
    TallyCounts(t, rows, f);
    CountedIsChosen(t, rows, f);
  }

  // ------------------------------------------------------------ conservation

  ghost function MapSum(m: map<string, nat>): nat
    decreases m.Keys
  {
    if m == map[] then 0
    else
      var k :| k in m;
      m[k] + MapSum(m - {k})
  }

  /** The sum does not depend on which key is taken first. */
  lemma {:induction false} MapSumTakes(m: map<string, nat>, k: string)
    requires k in m
    ensures MapSum(m) == m[k] + MapSum(m - {k})
    decreases m.Keys
  {
    var j :| j in m && MapSum(m) == m[j] + MapSum(m - {j});
    if j != k {
      MapSumTakes(m - {j}, k);
      MapSumTakes(m - {k}, j);
      assert m - {j} - {k} == m - {k} - {j};
    }
  }

  lemma MapSumUpdate(m: map<string, nat>, k: string, v: nat)
    ensures MapSum(m[k := v]) == MapSum(m) - Get(m, k) + v
  {
    MapSumTakes(m[k := v], k);
    if k in m {
      MapSumTakes(m, k);
      assert m[k := v] - {k} == m - {k};
    } else {
      assert m[k := v] - {k} == m;
    }
  }

  /** The per-label figures of any grouping, as a map. */
  function ByLabel(rows: seq<StatRow>): map<string, nat> {
    if rows == [] then map[]
    else
      var before, last := ByLabel(rows[..|rows| - 1]), rows[|rows| - 1];
      if last.category.None? then before
      else before[last.category.value := Get(before, last.category.value) + last.count]
  }

  lemma {:induction false} ByLabelTallies(rows: seq<StatRow>, l: string)
    ensures Get(ByLabel(rows), l) == Tally(rows, Labelled(l))
    ensures l in ByLabel(rows) <==> Mentions(rows, l)
    decreases |rows|
  {
    if rows != [] {
      ByLabelTallies(rows[..|rows| - 1], l);
      MentionsSnoc(rows[..|rows| - 1], rows[|rows| - 1], l);
      assert rows[..|rows| - 1] + [rows[|rows| - 1]] == rows;
    }
  }

  lemma {:induction false} ByLabelSum(rows: seq<StatRow>)
    ensures MapSum(ByLabel(rows)) == Tally(rows, AnyLabel)
    decreases |rows|
  {
    if rows != [] {
      var before, last := rows[..|rows| - 1], rows[|rows| - 1];
      ByLabelSum(before);
      if last.category.Some? {
        MapSumUpdate(ByLabel(before), last.category.value, Get(ByLabel(before), last.category.value) + last.count);
      }
    }
  }

  /** The labels are exactly the classified rows: any map with the figures
      `SummarizeStats` promises sums to the classified count, and classified and
      failed make up the total. */
  lemma {:induction false} StatisticsAgree(t: Table, rows: seq<StatRow>, byLabel: map<string, nat>)
    requires TableShape(t) && GroupedBy(t, rows)
    requires forall l :: l in byLabel <==> Mentions(rows, l)
    requires forall l :: Get(byLabel, l) == Tally(rows, Labelled(l))
    ensures MapSum(byLabel) == |Chosen(t, InStatus(Classified))| == Tally(rows, InStatus(Classified))
    ensures Tally(rows, Everything) == |t| == Tally(rows, InStatus(Classified)) + Tally(rows, InStatus(Failed))
  {
    SameMap(rows, byLabel);
    ByLabelSum(rows);
    FiguresAreDirectCounts(t, rows, AnyLabel);
    FiguresAreDirectCounts(t, rows, Everything);
    FiguresAreDirectCounts(t, rows, InStatus(Classified));
    FiguresAreDirectCounts(t, rows, InStatus(Failed));
    ShapeSplitsTable(t);
  }

  lemma SameMap(rows: seq<StatRow>, byLabel: map<string, nat>)
    requires forall l :: l in byLabel <==> Mentions(rows, l)
    requires forall l :: Get(byLabel, l) == Tally(rows, Labelled(l))
    ensures byLabel == ByLabel(rows)
  {
    forall l ensures l in byLabel <==> l in ByLabel(rows) {
      ByLabelTallies(rows, l);
    }
    forall l | l in byLabel ensures byLabel[l] == ByLabel(rows)[l] {
      ByLabelTallies(rows, l);
      assert Get(byLabel, l) == Get(ByLabel(rows), l);
    }
  }

  /** A well-shaped row has a label exactly when it is classified. */
  lemma ShapeSplitsTable(t: Table)
    requires TableShape(t)
    ensures Chosen(t, AnyLabel) == Chosen(t, InStatus(Classified))
    ensures |t| == |Chosen(t, Everything)| == |Chosen(t, InStatus(Classified))| + |Chosen(t, InStatus(Failed))|
  {
    var yes, no := Chosen(t, InStatus(Classified)), Chosen(t, InStatus(Failed));
    forall id | id in t ensures Keeps(AnyLabel, t[id].category, t[id].status) <==> t[id].status == Classified {
      assert RowShape(t[id]);
    }
    assert Chosen(t, AnyLabel) == yes;
    assert Chosen(t, Everything) == t.Keys;
    assert yes + no == t.Keys && yes !! no;
  }

  /** Every reachable table has that shape, so the statistics agree at any time. */
  lemma {:induction false} ReachableStatisticsAgree(cfg: Config, start: State, es: seq<Event>, s: State,
                                 rows: seq<StatRow>, byLabel: map<string, nat>)
    requires Reaches(cfg, start, es, s) && GroupedBy(s.table, rows)
    requires forall l :: l in byLabel <==> Mentions(rows, l)
    requires forall l :: Get(byLabel, l) == Tally(rows, Labelled(l))
    ensures MapSum(byLabel) == |Chosen(s.table, InStatus(Classified))|
    ensures Tally(rows, Everything) == |s.table| == Tally(rows, InStatus(Classified)) + Tally(rows, InStatus(Failed))
  {
    forall id | id in s.table ensures RowShape(s.table[id]) {
      ReachableRowShape(cfg, start, es, s, id);
    }
    StatisticsAgree(s.table, rows, byLabel);
  }
}
