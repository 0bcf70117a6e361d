/** The company-wide figures of the dashboard (app.py, `page_dashboard`) and
    of the monthly summary (app.py, `page_monthly_summary`), and how the
    monthly summary relates to the technician scorecards. */
module Aggregates {
  import opened Wrappers
  import opened Seqs
  import opened Entries
  import opened TechnicianKpis

  /** `substr(entry_date, 1, 7)`: the first seven characters, or the whole
      string when it is shorter. */
  function Substr7(d: string): (r: string)
    ensures |r| == if |d| <= 7 then |d| else 7
    ensures r <= d
  {
    if |d| <= 7 then d else d[..7]
  }

  /** The rows of `es` dated exactly `day` (`entry_date = ?`). */
  function OnDay(es: seq<Entry>, day: string): (rows: seq<Entry>)
    ensures forall e :: e in rows <==> e in es && e.date == day
  {
    if es == [] then []
    else if es[0].date == day then [es[0]] + OnDay(es[1..], day)
    else OnDay(es[1..], day)
  }

  /** The day's rows are every entry of that date as many times as it occurs,
      so that identical entries are all summed, and no other row. */
  lemma {:induction false} OnDayKeepsAll(es: seq<Entry>, day: string)
    ensures forall e :: multiset(OnDay(es, day))[e] == if e.date == day then multiset(es)[e] else 0
  {
    if es != [] {
      OnDayKeepsAll(es[1..], day);
      assert es == [es[0]] + es[1..];
    }
  }

  /** The rows of `es` in month `ym` (`substr(entry_date, 1, 7) = ?`). */
  function InMonth(es: seq<Entry>, ym: string): (rows: seq<Entry>)
    ensures forall e :: e in rows <==> e in es && Substr7(e.date) == ym
  {
    if es == [] then []
    else if Substr7(es[0].date) == ym then [es[0]] + InMonth(es[1..], ym)
    else InMonth(es[1..], ym)
  }

  /** The month's rows are every entry of that month as many times as it
      occurs, and no other row. */
  lemma {:induction false} InMonthKeepsAll(es: seq<Entry>, ym: string)
    ensures forall e :: multiset(InMonth(es, ym))[e] == if Substr7(e.date) == ym then multiset(es)[e] else 0
  {
    if es != [] {
      InMonthKeepsAll(es[1..], ym);
      assert es == [es[0]] + es[1..];
    }
  }

  /** Percentage of the revenue goal reached: absent unless the goal is
      positive; a missing goal row counts as a goal of 0. */
  function GoalPct(revenue: real, goal: Option<real>): (pct: Option<real>)
    ensures pct.Some? <==> goal.Some? && goal.value > 0.0
    ensures pct.Some? ==> pct.value * goal.value == revenue * 100.0
  {
    var goalValue := goal.GetOr(0.0);
    if goalValue > 0.0 then Some(revenue / goalValue * 100.0) else None
  }

  // ---------------------------------------------------------------------
  // Dashboard
  // ---------------------------------------------------------------------

  /** The four cards of the dashboard. */
  datatype Dashboard = Dashboard(
    servicesToday: real,
    revenueToday: real,
    revenueMonth: real,
    goalValue: real,
    pct: Option<real>)

  /** The dashboard of a company whose entries are `es`, for the day `today`
      of the month `ym` with the month's goal row `goal`. Neither query joins
      service types: every entry counts. */
  function DashboardOf(es: seq<Entry>, today: string, ym: string, goal: Option<real>): (d: Dashboard)
    ensures d.goalValue == if goal.Some? then goal.value else 0.0
    ensures d.pct.Some? <==> d.goalValue > 0.0
    ensures d.pct.Some? ==> d.pct.value * d.goalValue == d.revenueMonth * 100.0
  {
    var todayRows := OnDay(es, today);
    var monthRows := InMonth(es, ym);
    var revenueMonth := Sum(monthRows, Revenue);
    Dashboard(
      Sum(todayRows, Quantity),
      Sum(todayRows, Revenue),
      revenueMonth,
      goal.GetOr(0.0),
      GoalPct(revenueMonth, goal))
  }

  /** Entries with no negative quantity or unit value. */
  predicate NonNegative(es: seq<Entry>) {
    forall e :: e in es ==> e.quantity >= 0.0 && e.unitValue >= 0.0
  }

  /** A sum of non-negative revenues over the day's rows never exceeds the
      sum over a superset (the month's rows). */
  lemma {:induction false} DayWithinMonth(es: seq<Entry>, today: string, ym: string)
    requires NonNegative(es)
    requires Substr7(today) == ym
    ensures Sum(OnDay(es, today), Revenue) <= Sum(InMonth(es, ym), Revenue)
    ensures Sum(OnDay(es, today), Quantity) <= Sum(InMonth(es, ym), Quantity)
  {
    if es != [] {
      DayWithinMonth(es[1..], today, ym);
      var e := es[0];
      assert Revenue(e) >= 0.0 by {
        assert e.quantity >= 0.0 && e.unitValue >= 0.0;
      }
      if e.date == today {
        assert OnDay(es, today)[1..] == OnDay(es[1..], today);
        assert InMonth(es, ym)[1..] == InMonth(es[1..], ym);
      } else if Substr7(e.date) == ym {
        assert InMonth(es, ym)[1..] == InMonth(es[1..], ym);
      }
    }
  }

  /** On the dashboard, today's revenue is part of the month's revenue. */
  lemma DashboardTodayWithinMonth(es: seq<Entry>, today: string, ym: string, goal: Option<real>)
    requires NonNegative(es)
    requires Substr7(today) == ym
    ensures DashboardOf(es, today, ym, goal).revenueToday <= DashboardOf(es, today, ym, goal).revenueMonth
  {
    DayWithinMonth(es, today, ym);
  }

  // ---------------------------------------------------------------------
  // Monthly summary
  // ---------------------------------------------------------------------

  /** The nine figures of the monthly summary, with the number of distinct
      dates the daily average divides by. */
  datatype MonthlySummary = MonthlySummary(
    totalActivations: real,
    totalMaintenances: real,
    totalServices: real,
    revenueActivations: real,
    revenueMaintenances: real,
    revenueTotal: real,
    goalValue: real,
    pct: Option<real>,
    dailyAverage: real,
    days: nat)

  /** The distinct dates of the rows. */
  function Dates(rows: seq<Entry>): set<string> {
    set e | e in rows :: e.date
  }

  /** `rec_total / nunique(entry_date)`, or 0 without dates. */
  function DailyAverage(revenue: real, days: nat): (avg: real)
    ensures days > 0 ==> avg * days as real == revenue
    ensures days == 0 ==> avg == 0.0
  {
    if days > 0 then revenue / days as real else 0.0
  }

  /** The rows the summary aggregates: the month's entries that survive
      `JOIN service_types`. */
  function SummaryRows(es: seq<Entry>, ym: string): (rows: seq<Entry>)
    ensures forall e :: e in rows <==> e in es && Substr7(e.date) == ym && e.category.Some?
  {
    Joined(InMonth(es, ym))
  }

  /** The summary's rows are every joined entry of the month as many times as
      it occurs, and no other row. */
  lemma SummaryRowsKeepsAll(es: seq<Entry>, ym: string)
    ensures forall e ::
      multiset(SummaryRows(es, ym))[e] == if Substr7(e.date) == ym && e.category.Some? then multiset(es)[e] else 0
  {
    InMonthKeepsAll(es, ym);
    JoinedKeepsAll(InMonth(es, ym));
  }

  /** A non-empty list of rows has at least one date. */
  lemma DatesNonEmpty(rows: seq<Entry>)
    requires rows != []
    ensures |Dates(rows)| >= 1
  {
    assert rows[0].date in Dates(rows);
  }

  /** The figures of the summary over the non-empty rows `rows`. */
  function SummaryOf(rows: seq<Entry>, goal: Option<real>): (s: MonthlySummary)
    requires rows != []
    ensures s.days == |Dates(rows)| && s.days >= 1
    ensures s.dailyAverage * s.days as real == s.revenueTotal
    ensures s.goalValue == if goal.Some? then goal.value else 0.0
    ensures s.pct.Some? <==> s.goalValue > 0.0
    ensures s.pct.Some? ==> s.pct.value * s.goalValue == s.revenueTotal * 100.0
  {
    var revenueTotal := Sum(rows, Revenue);
    var days := |Dates(rows)|;
    DatesNonEmpty(rows);
    MonthlySummary(
      Sum(rows, CategoryQuantity(Ativacao)),
      Sum(rows, CategoryQuantity(Manutencao)),
      Sum(rows, Quantity),
      Sum(rows, CategoryRevenue(Ativacao)),
      Sum(rows, CategoryRevenue(Manutencao)),
      revenueTotal,
      goal.GetOr(0.0),
      GoalPct(revenueTotal, goal),
      DailyAverage(revenueTotal, days),
      days)
  }

  /** The monthly summary; None when the month has no joined rows (the page
      then only shows that there is no data). */
  function MonthlySummaryOf(es: seq<Entry>, ym: string, goal: Option<real>): (r: Option<MonthlySummary>)
    ensures r.None? <==> SummaryRows(es, ym) == []
  {
    var rows := SummaryRows(es, ym);
    if rows == [] then None else Some(SummaryOf(rows, goal))
  }

  /** Total services are activations plus maintenances plus other services,
      and the gross revenue splits the same way. */
  lemma SummaryPartition(es: seq<Entry>, ym: string, goal: Option<real>)
    requires MonthlySummaryOf(es, ym, goal).Some?
    ensures var s := MonthlySummaryOf(es, ym, goal).value;
      s.totalServices == s.totalActivations + s.totalMaintenances + Sum(SummaryRows(es, ym), CategoryQuantity(Outros))
      && s.revenueTotal == s.revenueActivations + s.revenueMaintenances + Sum(SummaryRows(es, ym), CategoryRevenue(Outros))
  {
    var rows := SummaryRows(es, ym);
    QuantityPartition(rows);
    RevenuePartition(rows);
  }

  // ---------------------------------------------------------------------
  // The scorecards add up to the monthly summary
  // ---------------------------------------------------------------------

  /** The groups' sums of column `col`, each taken over all of `es`. */
  function GroupsSum(es: seq<Entry>, rows: seq<TechRow>, col: Entry -> real): real {
    if rows == [] then 0.0 else Sum(es, GroupColumn(rows[0].name, col)) + GroupsSum(es, rows[1..], col)
  }

  /** What one entry contributes to the groups' sums of `col`. */
  function GroupsAt(e: Entry, rows: seq<TechRow>, col: Entry -> real): real {
    if rows == [] then 0.0 else GroupColumn(rows[0].name, col)(e) + GroupsAt(e, rows[1..], col)
  }

  /** Some row is named `n`. */
  predicate Named(rows: seq<TechRow>, n: string) {
    exists i :: 0 <= i < |rows| && rows[i].name == n
  }

  /** A joined entry adds its `col` value to exactly the group of its
      technician, when groups have distinct names. */
  lemma {:induction false} GroupsAtIndicator(e: Entry, rows: seq<TechRow>, col: Entry -> real)
    requires DistinctNames(rows)
    ensures GroupsAt(e, rows, col) == if e.category.Some? && Named(rows, e.technician) then col(e) else 0.0
  {
    if rows != [] {
      var rest := rows[1..];
      GroupsAtIndicator(e, rest, col);
      if rows[0].name == e.technician {
        assert !Named(rest, e.technician) by {
          forall i | 0 <= i < |rest| ensures rest[i].name != e.technician {
            assert rest[i] == rows[i + 1];
          }
        }
      } else {
        assert Named(rows, e.technician) <==> Named(rest, e.technician) by {
          if Named(rows, e.technician) {
            var i :| 0 <= i < |rows| && rows[i].name == e.technician;
            assert rest[i - 1].name == e.technician;
          }
          if Named(rest, e.technician) {
            var i :| 0 <= i < |rest| && rest[i].name == e.technician;
            assert rows[i + 1].name == e.technician;
          }
        }
      }
    }
  }

  /** The groups' sums split off the first entry. */
  lemma {:induction false} GroupsSumSplit(es: seq<Entry>, rows: seq<TechRow>, col: Entry -> real)
    requires es != []
    ensures GroupsSum(es, rows, col) == GroupsAt(es[0], rows, col) + GroupsSum(es[1..], rows, col)
  {
    if rows != [] {
      GroupsSumSplit(es, rows[1..], col);
    }
  }

  /** Groups with distinct names that cover every technician add up to the
      column summed over the joined rows. */
  lemma {:induction false} GroupsSumJoined(es: seq<Entry>, rows: seq<TechRow>, col: Entry -> real)
    requires DistinctNames(rows)
    requires forall n :: n in TechNames(es) ==> Named(rows, n)
    ensures GroupsSum(es, rows, col) == Sum(Joined(es), col)
  {
    if es == [] {
      GroupsSumEmpty(rows, col);
    } else {
      assert TechNames(es[1..]) <= TechNames(es);
      GroupsSumJoined(es[1..], rows, col);
      GroupsSumSplit(es, rows, col);
      GroupsAtIndicator(es[0], rows, col);
      if es[0].category.Some? {
        assert es[0].technician in TechNames(es);
        assert Joined(es)[1..] == Joined(es[1..]);
      }
    }
  }

  /** Over no entries every group sums to zero. */
  lemma {:induction false} GroupsSumEmpty(rows: seq<TechRow>, col: Entry -> real)
    ensures GroupsSum([], rows, col) == 0.0
  {
    if rows != [] {
      GroupsSumEmpty(rows[1..], col);
    }
  }

  /** A field that holds a group's sum of `col` sums to the groups' sums. */
  lemma {:induction false} RowsSumGroups(es: seq<Entry>, rows: seq<TechRow>, g: TechRow -> real, col: Entry -> real)
    requires forall i :: 0 <= i < |rows| ==> g(rows[i]) == Sum(es, GroupColumn(rows[i].name, col))
    ensures Sum(rows, g) == GroupsSum(es, rows, col)
  {
    if rows != [] {
      RowsSumGroups(es, rows[1..], g, col);
    }
  }

  /** One column of the scorecards, summed over all technicians, equals the
      same column summed over the joined rows. */
  lemma CardsSumJoined(es: seq<Entry>, h: Scorecard -> real, g: TechRow -> real, col: Entry -> real)
    requires forall r: TechRow, a: nat, b: nat :: h(CardFor(r, a, b)) == g(r)
    requires forall n :: g(RowFor(es, n)) == Sum(es, GroupColumn(n, col))
    ensures Sum(Scorecards(es), h) == Sum(Joined(es), col)
  {
    var rows := TechRows(es);
    var cards := Scorecards(es);
    TechRowsCorrect(es);
    forall i | 0 <= i < |rows| ensures h(cards[i]) == g(rows[i]) {
      ScorecardsForAt(rows, DayQuery(es), i);
    }
    SumPointwise(cards, rows, h, g);
    RowsSumGroups(es, rows, g, col);
    GroupsSumJoined(es, rows, col);
  }

  /** The technician scorecards of a month add up to that month's summary:
      their revenues to the gross revenue, their activations and
      maintenances to the month's totals. This rests on every entry having
      its technician row, as `Entry` assumes: the summary query does not join
      technicians while the scorecard query does, so the entries of a deleted
      technician would count in the summary only. */
  lemma ScorecardsMatchSummary(es: seq<Entry>, ym: string, goal: Option<real>)
    requires MonthlySummaryOf(es, ym, goal).Some?
    ensures var s := MonthlySummaryOf(es, ym, goal).value;
      var cards := Scorecards(InMonth(es, ym));
      Sum(cards, (c: Scorecard) => c.revenue) == s.revenueTotal
      && Sum(cards, (c: Scorecard) => c.activation.total) == s.totalActivations
      && Sum(cards, (c: Scorecard) => c.maintenance.total) == s.totalMaintenances
  {
    var month := InMonth(es, ym);
    CardsSumJoined(month, (c: Scorecard) => c.revenue, (r: TechRow) => r.revenue, Revenue);
    CardsSumJoined(month, (c: Scorecard) => c.activation.total, (r: TechRow) => r.activations, CategoryQuantity(Ativacao));
    CardsSumJoined(month, (c: Scorecard) => c.maintenance.total, (r: TechRow) => r.maintenances, CategoryQuantity(Manutencao));
  }
}
