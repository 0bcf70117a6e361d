/** The technician scorecards of `page_technician_kpis` (app.py): for each row
    of the grouped query, the solo and crew days of the per-day query, the
    staffing targets, the averages, the percent of target and the status
    tier per category. */
module TechnicianKpis {
  import opened Seqs
  import opened Entries
  import opened TrafficLight

  /** The target averages shown when there are no days. */
  const ActivationFallbackTarget: real := 3.0
  const MaintenanceFallbackTarget: real := 4.0

  /** The figures of one category on one scorecard. */
  datatype CategoryKpi = CategoryKpi(
    total: real,
    average: real,
    targetAverage: real,
    pctOfTarget: real,
    tier: Tier)

  /** One entry of `perf_data`. */
  datatype Scorecard = Scorecard(
    technician: string,
    soloDays: nat,
    crewDays: nat,
    daysWorked: nat,
    revenue: real,
    activation: CategoryKpi,
    maintenance: CategoryKpi)

  /** `sum(1 for d in dias_rows if d["is_solo"] == flag)`. */
  function CountFlag(days: seq<DayRow>, flag: int): (n: nat)
    ensures n <= |days|
  {
    if days == [] then 0
    else CountFlag(days[..|days| - 1], flag) + (if days[|days| - 1].isSolo == flag then 1 else 0)
  }

  /** The dates of the day rows. */
  function RowDates(days: seq<DayRow>): set<string> {
    set d | d in days :: d.date
  }

  /** Appending a row adds its date to the dates. */
  lemma RowDatesSnoc(p: seq<DayRow>, d: DayRow)
    ensures RowDates(p + [d]) == RowDates(p) + {d.date}
  {
    assert forall x :: x in p + [d] <==> x in p || x == d;
  }

  /** Counting the flags of day rows with distinct dates, whose flag is 1
      exactly on the dates in `solo` and 0 elsewhere, counts the solo dates
      and the other dates, and the two counts cover every row. */
  lemma {:induction false} CountFlagCardinality(days: seq<DayRow>, solo: set<string>)
    requires forall i, j :: 0 <= i < j < |days| ==> days[i].date != days[j].date
    requires forall k :: 0 <= k < |days| ==> days[k].isSolo == (if days[k].date in solo then 1 else 0)
    ensures CountFlag(days, 1) == |RowDates(days) * solo|
    ensures CountFlag(days, 0) == |RowDates(days) - solo|
    ensures CountFlag(days, 1) + CountFlag(days, 0) == |days|
  {
    if days != [] {
      var p := days[..|days| - 1];
      var d := days[|days| - 1];
      assert days == p + [d];
      assert forall k :: 0 <= k < |p| ==> p[k] == days[k];
      CountFlagCardinality(p, solo);
      RowDatesSnoc(p, d);
      assert d.date !in RowDates(p) by {
        forall x | x in p ensures x.date != d.date {
          var k :| 0 <= k < |p| && p[k] == x;
          assert days[k] == x;
        }
      }
      CardinalityStep(RowDates(p), d.date, solo);
    }
  }

  /** Adding a new date to a set of dates adds it to exactly one of its solo
      part and its other part. */
  lemma CardinalityStep(a: set<string>, x: string, solo: set<string>)
    requires x !in a
    ensures |(a + {x}) * solo| == |a * solo| + (if x in solo then 1 else 0)
    ensures |(a + {x}) - solo| == |a - solo| + (if x in solo then 0 else 1)
  {
    if x in solo {
      assert (a + {x}) * solo == (a * solo) + {x};
      assert (a + {x}) - solo == a - solo;
    } else {
      assert (a + {x}) * solo == a * solo;
      assert (a + {x}) - solo == (a - solo) + {x};
    }
  }

  /** Day rows built for some dates carry exactly those dates. */
  lemma RowDatesOf(es: seq<Entry>, name: string, dates: seq<string>)
    ensures RowDates(DayRowsOf(es, name, dates)) == Elements(dates)
  {
    var days := DayRowsOf(es, name, dates);
    forall x | x in Elements(dates) ensures x in RowDates(days) {
      var k :| 0 <= k < |dates| && dates[k] == x;
      assert days[k].date == x;
    }
    forall x | x in RowDates(days) ensures x in Elements(dates) {
      var d :| d in days && d.date == x;
      var k :| 0 <= k < |days| && days[k] == d;
      assert dates[k] in dates;
    }
  }

  /** The day rows carry exactly the technician's entry dates. */
  lemma DayRowDates(es: seq<Entry>, name: string)
    ensures RowDates(DayRows(es, name)) == WorkDays(es, name)
  {
    RowDatesOf(es, name, DayDates(es, name));
  }

  /** The day rows have distinct dates, and each is flagged solo exactly
      when its date is a solo date. */
  lemma DayRowsShape(es: seq<Entry>, name: string)
    ensures var days := DayRows(es, name);
      && (forall i, j :: 0 <= i < j < |days| ==> days[i].date != days[j].date)
      && (forall k :: 0 <= k < |days| ==> days[k].isSolo == (if days[k].date in SoloDays(es, name) then 1 else 0))
  {
    var ds := DayDates(es, name);
    var days := DayRows(es, name);
    forall i, j | 0 <= i < j < |days| ensures days[i].date != days[j].date {
      assert days[i].date == ds[i] && days[j].date == ds[j];
    }
  }

  /** `dias_solo` is the number of dates on which the technician has an entry
      with the Solo team, `dias_equipe` the number of the other dates, and
      together they are the technician's distinct entry dates. */
  lemma DayCounts(es: seq<Entry>, name: string)
    ensures CountFlag(DayRows(es, name), 1) == |SoloDays(es, name)|
    ensures CountFlag(DayRows(es, name), 0) == |WorkDays(es, name) - SoloDays(es, name)|
    ensures CountFlag(DayRows(es, name), 1) + CountFlag(DayRows(es, name), 0) == |WorkDays(es, name)|
  {
    var days := DayRows(es, name);
    var work, solo := WorkDays(es, name), SoloDays(es, name);
    assert |days| == |work|;
    DayRowDates(es, name);
    DayRowsShape(es, name);
    assert solo <= work;
    assert work * solo == solo;
    CountFlagCardinality(days, solo);
  }

  /** The figures of one category from its total, the number of days, the
      target total and the fallback target average. Their arithmetic is
      stated by `FiguresMeaning`. */
  function Figures(total: real, totalDias: nat, metaTotal: nat, fallbackTarget: real): (k: CategoryKpi)
    ensures k.total == total
    ensures totalDias == 0 ==> k.average == 0.0 && k.targetAverage == fallbackTarget
    ensures metaTotal == 0 ==> k.pctOfTarget == 0.0
    ensures k.tier == Semaforo(k.average, k.targetAverage)
  {
    var media := if totalDias > 0 then total / totalDias as real else 0.0;
    var metaMedia := if totalDias > 0 then metaTotal as real / totalDias as real else fallbackTarget;
    var pct := if metaTotal > 0 then total / metaTotal as real * 100.0 else 0.0;
    CategoryKpi(total, media, metaMedia, pct, Semaforo(media, metaMedia))
  }

  /** With days, the average times the days is the total and the target
      average times the days is the target total; with a target, the percent
      of target times the target total is 100 times the total. */
  lemma FiguresMeaning(total: real, totalDias: nat, metaTotal: nat, fallbackTarget: real)
    ensures var k := Figures(total, totalDias, metaTotal, fallbackTarget);
      && (totalDias > 0 ==> k.average * totalDias as real == total)
      && (totalDias > 0 ==> k.targetAverage * totalDias as real == metaTotal as real)
      && (metaTotal > 0 ==> k.pctOfTarget * metaTotal as real == total * 100.0)
  {
  }

  /** The scorecard of one grouped row, given the technician's solo and
      crew day counts. */
  function CardFor(row: TechRow, diasSolo: nat, diasEquipe: nat): Scorecard {
    var totalDias := diasSolo + diasEquipe;
    // meta_ativ_total: 3 per solo day, 4 per crew day; meta_manu_total: 4 and 6
    Scorecard(
      row.name, diasSolo, diasEquipe, totalDias, row.revenue,
      Figures(row.activations, totalDias, diasSolo * 3 + diasEquipe * 4, ActivationFallbackTarget),
      Figures(row.maintenances, totalDias, diasSolo * 4 + diasEquipe * 6, MaintenanceFallbackTarget))
  }

  /** The scorecard of one grouped row, given that technician's day rows. */
  function ScorecardOf(row: TechRow, days: seq<DayRow>): Scorecard {
    CardFor(row, CountFlag(days, 1), CountFlag(days, 0))
  }

  /** The per-day query of `page_technician_kpis`, as a function of the
      technician's name. */
  function DayQuery(es: seq<Entry>): string -> seq<DayRow> {
    name => DayRows(es, name)
  }

  /** The scorecards of the grouped rows `rows`, in their order, each with
      the day rows `dayQuery` gives for its technician. */
  function ScorecardsFor(rows: seq<TechRow>, dayQuery: string -> seq<DayRow>): (cards: seq<Scorecard>)
    ensures |cards| == |rows|
  {
    if rows == [] then []
    else
      var last := rows[|rows| - 1];
      ScorecardsFor(rows[..|rows| - 1], dayQuery) + [ScorecardOf(last, dayQuery(last.name))]
  }

  /** The scorecard at position `i` is that of the row at position `i`. */
  lemma {:induction false} ScorecardsForAt(rows: seq<TechRow>, dayQuery: string -> seq<DayRow>, i: nat)
    requires i < |rows|
    ensures ScorecardsFor(rows, dayQuery)[i] == ScorecardOf(rows[i], dayQuery(rows[i].name))
  {
    var init := rows[..|rows| - 1];
    if i < |init| {
      ScorecardsForAt(init, dayQuery, i);
      assert init[i] == rows[i];
    }
  }

  /** `perf_data` for the month's entries `es`. */
  function Scorecards(es: seq<Entry>): seq<Scorecard> {
    ScorecardsFor(TechRows(es), DayQuery(es))
  }

  /** The generator sums that count `dias_solo` and `dias_equipe`. */
  method CountDays(days: seq<DayRow>) returns (diasSolo: nat, diasEquipe: nat)
    ensures diasSolo == CountFlag(days, 1)
    ensures diasEquipe == CountFlag(days, 0)
  {
    diasSolo, diasEquipe := 0, 0;
    var i := 0;
    while i < |days|
      invariant 0 <= i <= |days|
      invariant diasSolo == CountFlag(days[..i], 1)
      invariant diasEquipe == CountFlag(days[..i], 0)
    {
      assert days[..i + 1][..i] == days[..i];
      if days[i].isSolo == 1 {
        diasSolo := diasSolo + 1;
      }
      if days[i].isSolo == 0 {
        diasEquipe := diasEquipe + 1;
      }
      i := i + 1;
    }
    assert days[..i] == days;
  }

  /** The loop of `page_technician_kpis` that runs the per-day query for
      each row of the grouped query and appends its scorecard to
      `perf_data`. */
  method BuildScorecards(rows: seq<TechRow>, dayQuery: string -> seq<DayRow>) returns (perfData: seq<Scorecard>)
    ensures perfData == ScorecardsFor(rows, dayQuery)
  {
    perfData := [];
    var i := 0;
    while i < |rows|
      invariant 0 <= i <= |rows|
      invariant perfData == ScorecardsFor(rows[..i], dayQuery)
    {
      var row := rows[i];
      var diasRows := dayQuery(row.name);
      var diasSolo, diasEquipe := CountDays(diasRows);
      perfData := perfData + [CardFor(row, diasSolo, diasEquipe)];
      assert rows[..i + 1][..i] == rows[..i];
      i := i + 1;
    }
    assert rows[..i] == rows;
  }

  /** The page's scorecards for the month's entries `es`. */
  method TechnicianScorecards(es: seq<Entry>) returns (perfData: seq<Scorecard>)
    ensures perfData == Scorecards(es)
  {
    perfData := BuildScorecards(TechRows(es), DayQuery(es));
  }

  /** The scorecards come out in descending order of revenue, one per
      technician with a joined entry in the month, and no other. */
  lemma ScorecardsOrderAndCoverage(es: seq<Entry>)
    ensures forall i, j :: 0 <= i < j < |Scorecards(es)| ==> Scorecards(es)[i].revenue >= Scorecards(es)[j].revenue
    ensures forall i, j :: 0 <= i < j < |Scorecards(es)| ==> Scorecards(es)[i].technician != Scorecards(es)[j].technician
    ensures forall n :: n in TechNames(es) <==> exists i :: 0 <= i < |Scorecards(es)| && Scorecards(es)[i].technician == n
  {
    TechRowsCorrect(es);
    var rows := TechRows(es);
    var cards := Scorecards(es);
    forall i | 0 <= i < |cards|
      ensures cards[i].technician == rows[i].name && cards[i].revenue == rows[i].revenue
    {
      ScorecardsForAt(rows, DayQuery(es), i);
    }
  }

  /** The grouped row at position `i` holds the sums of its technician. */
  lemma TechRowAt(es: seq<Entry>, i: nat)
    requires i < |TechRows(es)|
    ensures TechRows(es)[i] == RowFor(es, TechRows(es)[i].name)
  {
    TechRowsSums(es);
  }

  /** The scorecard at position `i` is built from the grouped row at `i` and
      that technician's day rows. */
  lemma CardAt(es: seq<Entry>, i: nat)
    requires i < |Scorecards(es)|
    ensures Scorecards(es)[i] == ScorecardOf(TechRows(es)[i], DayRows(es, TechRows(es)[i].name))
  {
    var rows := TechRows(es);
    ScorecardsForAt(rows, DayQuery(es), i);
    assert DayQuery(es)(rows[i].name) == DayRows(es, rows[i].name);
  }

  /** Each scorecard holds its technician's category-filtered sums and day
      counts: activations and maintenances are the quantities of that
      category, revenue is the sum of quantity times unit value, the solo
      days are the dates with a Solo entry, the crew days the other dates. */
  lemma ScorecardFigures(es: seq<Entry>, i: nat)
    requires i < |Scorecards(es)|
    ensures var c := Scorecards(es)[i];
      && c.revenue == Sum(es, GroupColumn(c.technician, Revenue))
      && c.activation.total == Sum(es, GroupColumn(c.technician, CategoryQuantity(Ativacao)))
      && c.maintenance.total == Sum(es, GroupColumn(c.technician, CategoryQuantity(Manutencao)))
      && c.soloDays == |SoloDays(es, c.technician)|
      && c.crewDays == |WorkDays(es, c.technician) - SoloDays(es, c.technician)|
      && c.daysWorked == |WorkDays(es, c.technician)|
  {
    var row := TechRows(es)[i];
    CardAt(es, i);
    TechRowAt(es, i);
    DayCounts(es, row.name);
  }

  /** The arithmetic of one category over `days` days against the target
      total `meta`: the average times the days is the total, the target
      average times the days is the target, and the percent of target times
      the target is 100 times the total. */
  predicate KpiArithmetic(k: CategoryKpi, days: nat, meta: nat) {
    && k.average * days as real == k.total
    && k.targetAverage * days as real == meta as real
    && k.pctOfTarget * meta as real == k.total * 100.0
  }

  /** The arithmetic of a scorecard with at least one day: the days are the
      solo days plus the crew days, the targets are 3·solo + 4·crew and
      4·solo + 6·crew, at least 3 and 4, and each category has the
      arithmetic of `KpiArithmetic` against its target. */
  predicate CardArithmetic(c: Scorecard) {
    var metaAtiv := c.soloDays * 3 + c.crewDays * 4;
    var metaManu := c.soloDays * 4 + c.crewDays * 6;
    && c.daysWorked == c.soloDays + c.crewDays
    && metaAtiv >= 3 && metaManu >= 4
    && KpiArithmetic(c.activation, c.daysWorked, metaAtiv)
    && KpiArithmetic(c.maintenance, c.daysWorked, metaManu)
  }

  /** A scorecard with at least one day uses no fallback and has the
      arithmetic of `CardArithmetic`. */
  lemma ScorecardArithmetic(row: TechRow, solo: nat, crew: nat)
    requires solo + crew >= 1
    ensures CardArithmetic(CardFor(row, solo, crew))
  {
    var d := solo + crew;
    var metaAtiv, metaManu := solo * 3 + crew * 4, solo * 4 + crew * 6;
    var a := Figures(row.activations, d, metaAtiv, ActivationFallbackTarget);
    var m := Figures(row.maintenances, d, metaManu, MaintenanceFallbackTarget);
    assert CardFor(row, solo, crew) == Scorecard(row.name, solo, crew, d, row.revenue, a, m);
    assert metaAtiv >= 3 && metaManu >= 4;
    FiguresArithmetic(row.activations, d, metaAtiv, ActivationFallbackTarget);
    FiguresArithmetic(row.maintenances, d, metaManu, MaintenanceFallbackTarget);
  }

  /** With days and a target, the figures of a category have the arithmetic
      of `KpiArithmetic`. */
  lemma FiguresArithmetic(total: real, totalDias: nat, metaTotal: nat, fallbackTarget: real)
    requires totalDias > 0 && metaTotal > 0
    ensures KpiArithmetic(Figures(total, totalDias, metaTotal, fallbackTarget), totalDias, metaTotal)
  {
    FiguresMeaning(total, totalDias, metaTotal, fallbackTarget);
  }

  /** On the path the page takes every scorecard has at least one day, so
      the fallbacks are never used (`ScorecardArithmetic`). */
  lemma FallbacksUnreachable(es: seq<Entry>, i: nat)
    requires i < |Scorecards(es)|
    ensures Scorecards(es)[i].daysWorked >= 1
    ensures Scorecards(es)[i] == ScorecardOf(TechRows(es)[i], DayRows(es, TechRows(es)[i].name))
  {
    var n := TechRows(es)[i].name;
    TechRowsSums(es);
    CardAt(es, i);
    assert n in TechNames(es);
    var e :| e in es && e.category.Some? && e.technician == n;
    assert e.date in WorkDays(es, n);
    ScorecardFigures(es, i);
  }

  /** Every scorecard the page builds has the arithmetic of `CardArithmetic`. */
  lemma ScorecardsArithmetic(es: seq<Entry>, i: nat)
    requires i < |Scorecards(es)|
    ensures Scorecards(es)[i].daysWorked >= 1
    ensures CardArithmetic(Scorecards(es)[i])
  {
    FallbacksUnreachable(es, i);
    var row := TechRows(es)[i];
    var days := DayRows(es, row.name);
    ScorecardArithmetic(row, CountFlag(days, 1), CountFlag(days, 0));
  }

  /** Five solo days, 18 activations and 22 maintenances: 3.6 against 3.0
      (120%) and 4.4 against 4.0 (110%), both on target. */
  lemma ScenarioAllSolo(row: TechRow)
    requires row.activations == 18.0 && row.maintenances == 22.0
    ensures CardFor(row, 5, 0).activation == CategoryKpi(18.0, 3.6, 3.0, 120.0, OnTarget)
    ensures CardFor(row, 5, 0).maintenance == CategoryKpi(22.0, 4.4, 4.0, 110.0, OnTarget)
  {
  }

  /** Four crew days and 10 activations: a target of 16, 2.5 against 4.0,
      a ratio of 0.625, below. */
  lemma ScenarioAllCrew(row: TechRow)
    requires row.activations == 10.0
    ensures CardFor(row, 0, 4).activation == CategoryKpi(10.0, 2.5, 4.0, 62.5, Below)
  {
  }

  /** Two solo and two crew days and 18 maintenances: a target of
      2·4 + 2·6 = 20, 4.5 against 5.0, a ratio of 0.9, attention. */
  lemma ScenarioMixed(row: TechRow)
    requires row.maintenances == 18.0
    ensures CardFor(row, 2, 2).maintenance == CategoryKpi(18.0, 4.5, 5.0, 90.0, Attention)
  {
  }
}
