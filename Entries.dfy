/** The month's service entries of one company and the two SQL queries the
    technician scorecard page runs over them (app.py, `page_technician_kpis`):
    the per-technician totals grouped by name and ordered by revenue, and the
    per-day solo flag of one technician. */
module Entries {
  import opened Wrappers
  import opened Seqs

  /** `service_types.category`; the schema's CHECK admits exactly these three. */
  datatype Category = Ativacao | Manutencao | Outros

  /** One row of `entries` for the company and month, with its technician's
      name, its service type's category and its team's name. `category` is
      None when the referenced service type does not exist (the inner join
      then drops the row); `team` is None when `team_id` is NULL or does not
      reference a team (the LEFT JOIN then yields NULL). */
  datatype Entry = Entry(
    technician: string,
    category: Option<Category>,
    quantity: real,
    unitValue: real,
    date: string,
    team: Option<string>)

  /** The team name that marks single-person work. */
  const SoloTeam: string := "Solo"

  /** `e.quantity*e.unit_value`. */
  function Revenue(e: Entry): real {
    e.quantity * e.unitValue
  }

  // ---------------------------------------------------------------------
  // Query 1: per-technician totals, GROUP BY t.name ORDER BY revenue DESC
  // ---------------------------------------------------------------------

  /** The row survives `JOIN service_types` and belongs to the group `name`. */
  predicate InGroup(e: Entry, name: string) {
    e.technician == name && e.category.Some?
  }

  /** `e.quantity`. */
  function Quantity(e: Entry): real {
    e.quantity
  }

  /** `CASE WHEN st.category = c THEN e.quantity ELSE 0 END`. */
  function CategoryQuantity(c: Category): Entry -> real {
    (e: Entry) => if e.category == Some(c) then e.quantity else 0.0
  }

  /** `CASE WHEN st.category = c THEN e.quantity*e.unit_value ELSE 0 END`. */
  function CategoryRevenue(c: Category): Entry -> real {
    (e: Entry) => if e.category == Some(c) then Revenue(e) else 0.0
  }

  /** The column `col` restricted to the group of `name`: summing it over all
      rows sums `col` over that technician's joined rows. */
  function GroupColumn(name: string, col: Entry -> real): Entry -> real {
    (e: Entry) => if InGroup(e, name) then col(e) else 0.0
  }

  /** One result row of the grouped query. */
  datatype TechRow = TechRow(
    name: string,
    activations: real,
    maintenances: real,
    totalServices: real,
    revenue: real,
    daysWithEntries: nat)

  /** The technicians the grouped query reports: those with a joined row. */
  function TechNames(es: seq<Entry>): set<string> {
    set e | e in es && e.category.Some? :: e.technician
  }

  /** `t.name` of every row that survives the joins, in row order. */
  function JoinedNames(es: seq<Entry>): (ns: seq<string>)
    ensures forall n :: n in ns <==> n in TechNames(es)
  {
    if es == [] then []
    else
      assert TechNames(es) == TechNames(es[1..]) + (if es[0].category.Some? then {es[0].technician} else {});
      (if es[0].category.Some? then [es[0].technician] else []) + JoinedNames(es[1..])
  }

  /** The aggregates of group `name`. */
  function RowFor(es: seq<Entry>, name: string): TechRow {
    TechRow(
      name,
      Sum(es, GroupColumn(name, CategoryQuantity(Ativacao))),
      Sum(es, GroupColumn(name, CategoryQuantity(Manutencao))),
      Sum(es, GroupColumn(name, Quantity)),
      Sum(es, GroupColumn(name, Revenue)),
      |set e | e in es && InGroup(e, name) :: e.date|)
  }

  /** A group has entry dates exactly when its technician has a joined
      entry. */
  lemma RowForDays(es: seq<Entry>, name: string)
    ensures RowFor(es, name).daysWithEntries > 0 <==> name in TechNames(es)
  {
    var dates := set e | e in es && InGroup(e, name) :: e.date;
    if name in TechNames(es) {
      var e :| e in es && e.category.Some? && e.technician == name;
      assert e.date in dates;
    }
    if dates != {} {
      var d :| d in dates;
      var e :| e in es && InGroup(e, name) && e.date == d;
      assert e.technician in TechNames(es);
    }
  }

  /** The groups, one per technician name, before ordering. */
  function GroupedRows(es: seq<Entry>): (rows: seq<TechRow>)
    ensures DistinctNames(rows)
    ensures forall n :: n in TechNames(es) <==> exists i :: 0 <= i < |rows| && rows[i].name == n
    ensures forall i :: 0 <= i < |rows| ==> rows[i] == RowFor(es, rows[i].name)
  {
    var ns := Dedup(JoinedNames(es));
    var rows := RowsOf(es, ns);
    assert forall n :: n in TechNames(es) ==> rows[IndexIn(ns, n)].name == n;
    rows
  }

  /** The rows of the groups named `ns`, in that order. */
  function RowsOf(es: seq<Entry>, ns: seq<string>): (rows: seq<TechRow>)
    ensures |rows| == |ns|
    ensures forall i :: 0 <= i < |rows| ==> rows[i].name == ns[i] && rows[i] == RowFor(es, ns[i])
  {
    if ns == [] then [] else [RowFor(es, ns[0])] + RowsOf(es, ns[1..])
  }

  /** The position of `x` in `xs`. */
  function IndexIn(xs: seq<string>, x: string): (k: nat)
    requires x in xs
    ensures k < |xs| && xs[k] == x
  {
    if xs[0] == x then 0 else 1 + IndexIn(xs[1..], x)
  }

  /** The rows are in descending order of revenue. */
  predicate ByRevenueDesc(rows: seq<TechRow>) {
    forall i, j :: 0 <= i < j < |rows| ==> rows[i].revenue >= rows[j].revenue
  }

  /** No technician name occurs in two rows. */
  predicate DistinctNames(rows: seq<TechRow>) {
    forall i, j :: 0 <= i < j < |rows| ==> rows[i].name != rows[j].name
  }

  /** Places `x` before the first row whose revenue does not exceed its own. */
  function Insert(x: TechRow, rows: seq<TechRow>): (r: seq<TechRow>)
    ensures multiset(r) == multiset(rows) + multiset{x}
    ensures forall y :: y in r <==> y == x || y in rows
  {
    if rows == [] || x.revenue >= rows[0].revenue then [x] + rows
    else
      assert rows == [rows[0]] + rows[1..];
      [rows[0]] + Insert(x, rows[1..])
  }

  /** Inserting into rows in descending revenue order keeps that order. */
  lemma {:induction false} InsertOrdered(x: TechRow, rows: seq<TechRow>)
    requires ByRevenueDesc(rows)
    ensures ByRevenueDesc(Insert(x, rows))
  {
    if rows != [] && x.revenue < rows[0].revenue {
      InsertOrdered(x, rows[1..]);
      var r := Insert(x, rows);
      forall j | 0 < j < |r| ensures r[0].revenue >= r[j].revenue {
        assert r[j] in Insert(x, rows[1..]);
      }
    }
  }

  /** Inserting a row whose name is new keeps the names distinct. */
  lemma {:induction false} InsertDistinct(x: TechRow, rows: seq<TechRow>)
    requires DistinctNames(rows)
    requires forall y :: y in rows ==> y.name != x.name
    ensures DistinctNames(Insert(x, rows))
  {
    if rows != [] && x.revenue < rows[0].revenue {
      InsertDistinct(x, rows[1..]);
      var r := Insert(x, rows);
      forall j | 0 < j < |r| ensures r[0].name != r[j].name {
        assert r[j] in Insert(x, rows[1..]);
      }
    }
  }

  /** `ORDER BY ReceitaGerada DESC`, by insertion; rows of equal revenue keep
      their relative order. */
  function SortByRevenue(rows: seq<TechRow>): (r: seq<TechRow>)
    ensures multiset(r) == multiset(rows)
    ensures forall y :: y in r <==> y in rows
    ensures ByRevenueDesc(r)
  {
    if rows == [] then []
    else
      assert rows == [rows[0]] + rows[1..];
      var sorted := SortByRevenue(rows[1..]);
      InsertOrdered(rows[0], sorted);
      Insert(rows[0], sorted)
  }

  /** Sorting rows with distinct names keeps the names distinct. */
  lemma {:induction false} SortDistinct(rows: seq<TechRow>)
    requires DistinctNames(rows)
    ensures DistinctNames(SortByRevenue(rows))
  {
    if rows != [] {
      SortDistinct(rows[1..]);
      InsertDistinct(rows[0], SortByRevenue(rows[1..]));
    }
  }

  /** The result of the grouped query. */
  function TechRows(es: seq<Entry>): seq<TechRow> {
    SortByRevenue(GroupedRows(es))
  }

  /** The grouped query has one row per technician with a joined entry, in
      descending order of revenue, and each row holds that technician's
      category-filtered sums. */
  lemma TechRowsCorrect(es: seq<Entry>)
    ensures ByRevenueDesc(TechRows(es))
    ensures DistinctNames(TechRows(es))
    ensures forall n :: n in TechNames(es) <==> exists i :: 0 <= i < |TechRows(es)| && TechRows(es)[i].name == n
    ensures forall i :: 0 <= i < |TechRows(es)| ==> TechRows(es)[i] == RowFor(es, TechRows(es)[i].name)
  {
    SortDistinct(GroupedRows(es));
    TechRowsCover(es);
    TechRowsSums(es);
  }

  /** Every technician with a joined entry has a row. */
  lemma TechRowsCover(es: seq<Entry>)
    ensures forall n :: n in TechNames(es) ==> exists i :: 0 <= i < |TechRows(es)| && TechRows(es)[i].name == n
  {
    var g := GroupedRows(es);
    var r := TechRows(es);
    forall n | n in TechNames(es)
      ensures exists i :: 0 <= i < |r| && r[i].name == n
    {
      var i :| 0 <= i < |g| && g[i].name == n;
      assert g[i] in r;
    }
  }

  /** Every row is the group of a technician with a joined entry. */
  lemma TechRowsSums(es: seq<Entry>)
    ensures forall i :: 0 <= i < |TechRows(es)| ==>
      TechRows(es)[i] == RowFor(es, TechRows(es)[i].name) && TechRows(es)[i].name in TechNames(es)
  {
    var g := GroupedRows(es);
    var r := TechRows(es);
    forall i | 0 <= i < |r|
      ensures r[i] == RowFor(es, r[i].name) && r[i].name in TechNames(es)
    {
      assert r[i] in g;
      var j :| 0 <= j < |g| && g[j] == r[i];
      assert g[j] == RowFor(es, g[j].name);
    }
  }

  /** The grouped query has exactly as many rows as there are technicians
      with a joined entry. */
  lemma TechRowsCount(es: seq<Entry>)
    ensures |TechRows(es)| == |TechNames(es)|
  {
    var ns := Dedup(JoinedNames(es));
    assert |GroupedRows(es)| == |ns|;
    assert Elements(ns) == TechNames(es);
    DistinctCardinality(ns);
    assert |multiset(TechRows(es))| == |multiset(GroupedRows(es))|;
  }

  /** The rows that survive `JOIN service_types`, in order. */
  function Joined(es: seq<Entry>): (rows: seq<Entry>)
    ensures forall e :: e in rows <==> e in es && e.category.Some?
  {
    if es == [] then []
    else if es[0].category.Some? then [es[0]] + Joined(es[1..])
    else Joined(es[1..])
  }

  /** The join keeps every joined row as many times as it occurs, so that
      identical entries are all summed, and no other row. */
  lemma {:induction false} JoinedKeepsAll(es: seq<Entry>)
    ensures forall e :: multiset(Joined(es))[e] == if e.category.Some? then multiset(es)[e] else 0
  {
    if es != [] {
      JoinedKeepsAll(es[1..]);
      assert es == [es[0]] + es[1..];
    }
  }

  /** A quantity sum splits by category: every joined row is an activation,
      a maintenance or another service. */
  lemma {:induction false} QuantityPartition(es: seq<Entry>)
    requires forall e :: e in es ==> e.category.Some?
    ensures Sum(es, Quantity)
         == Sum(es, CategoryQuantity(Ativacao)) + Sum(es, CategoryQuantity(Manutencao)) + Sum(es, CategoryQuantity(Outros))
  {
    if es != [] {
      QuantityPartition(es[1..]);
      var e := es[0];
      assert e in es;
      assert Quantity(e) == CategoryQuantity(Ativacao)(e) + CategoryQuantity(Manutencao)(e) + CategoryQuantity(Outros)(e) by {
        match e.category.value
        case Ativacao =>
        case Manutencao =>
        case Outros =>
      }
    }
  }

  /** A revenue sum splits by category in the same way. */
  lemma {:induction false} RevenuePartition(es: seq<Entry>)
    requires forall e :: e in es ==> e.category.Some?
    ensures Sum(es, Revenue)
         == Sum(es, CategoryRevenue(Ativacao)) + Sum(es, CategoryRevenue(Manutencao)) + Sum(es, CategoryRevenue(Outros))
  {
    if es != [] {
      RevenuePartition(es[1..]);
      var e := es[0];
      assert e in es;
      assert Revenue(e) == CategoryRevenue(Ativacao)(e) + CategoryRevenue(Manutencao)(e) + CategoryRevenue(Outros)(e) by {
        match e.category.value
        case Ativacao =>
        case Manutencao =>
        case Outros =>
      }
    }
  }

  // ---------------------------------------------------------------------
  // Query 2: one technician's days, GROUP BY e.entry_date, with the flag
  // MAX(CASE WHEN tm.name = 'Solo' THEN 1 ELSE 0 END)
  // ---------------------------------------------------------------------

  /** One result row of the per-day query. */
  datatype DayRow = DayRow(date: string, isSolo: int)

  /** `CASE WHEN tm.name = 'Solo' THEN 1 ELSE 0 END`; a NULL team gives 0. */
  function SoloCase(e: Entry): int {
    if e.team == Some(SoloTeam) then 1 else 0
  }

  /** The dates on which `name` has an entry (no service-type join here). */
  function WorkDays(es: seq<Entry>, name: string): set<string> {
    set e | e in es && e.technician == name :: e.date
  }

  /** The dates on which `name` has an entry with the Solo team. */
  function SoloDays(es: seq<Entry>, name: string): set<string> {
    set e | e in es && e.technician == name && e.team == Some(SoloTeam) :: e.date
  }

  /** `MAX(CASE …)` over the rows of `name` on `date`. */
  function SoloFlag(es: seq<Entry>, name: string, date: string): (flag: int)
    ensures flag == 0 || flag == 1
    ensures flag == 1 <==> date in SoloDays(es, name)
  {
    if es == [] then 0
    else
      assert SoloDays(es, name) == SoloDays(es[1..], name)
        + (if es[0].technician == name && es[0].team == Some(SoloTeam) then {es[0].date} else {});
      var here := if es[0].technician == name && es[0].date == date then SoloCase(es[0]) else 0;
      var rest := SoloFlag(es[1..], name, date);
      if here > rest then here else rest
  }

  /** `e.entry_date` of each of the technician's rows, in row order. */
  function TechDates(es: seq<Entry>, name: string): (ds: seq<string>)
    ensures forall d :: d in ds <==> d in WorkDays(es, name)
  {
    if es == [] then []
    else
      assert WorkDays(es, name) == WorkDays(es[1..], name)
        + (if es[0].technician == name then {es[0].date} else {});
      (if es[0].technician == name then [es[0].date] else []) + TechDates(es[1..], name)
  }

  /** The day rows for the given dates. */
  function DayRowsOf(es: seq<Entry>, name: string, dates: seq<string>): (days: seq<DayRow>)
    ensures |days| == |dates|
    ensures forall k :: 0 <= k < |days| ==> days[k] == DayRow(dates[k], SoloFlag(es, name, dates[k]))
  {
    if dates == [] then []
    else [DayRow(dates[0], SoloFlag(es, name, dates[0]))] + DayRowsOf(es, name, dates[1..])
  }

  /** The distinct dates of `name`'s entries, in order of first occurrence. */
  function DayDates(es: seq<Entry>, name: string): (ds: seq<string>)
    ensures Distinct(ds)
    ensures Elements(ds) == WorkDays(es, name)
    ensures |ds| == |WorkDays(es, name)|
  {
    var ds := Dedup(TechDates(es, name));
    assert Elements(ds) == WorkDays(es, name);
    DistinctCardinality(ds);
    ds
  }

  /** The result of the per-day query for `name`. */
  function DayRows(es: seq<Entry>, name: string): (days: seq<DayRow>)
    ensures |days| == |WorkDays(es, name)|
  {
    DayRowsOf(es, name, DayDates(es, name))
  }
}
