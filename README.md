# Technician KPI scorecard — a Dafny model

This project models the business logic of a Streamlit/SQLite app that records the
daily service entries of field technicians. The logic is in `app.py`.

- **The technician scorecard page** (`page_technician_kpis`, `_semaforo`):
  - A grouped SQL query gives, per technician, the activation and maintenance
    totals and the revenue, in descending order of revenue.
  - For each technician, a second query lists the distinct entry dates. Each
    date has a flag that says whether any entry that day was made with the
    team `Solo`.
  - A loop counts the solo days and the crew days.
  - From those counts it builds the targets: activations 3 per solo day and
    4 per crew day; maintenances 4 and 6.
  - It then computes the actual and target averages per day and the percent
    of target for each category.
  - Each category gets a traffic-light tier: on target, attention from 0.833
    of the target, below otherwise.
- **The stored-credential format** (`hash_password`, `verify_password`):
  `pbkdf2_sha256$<salt>$<digest>`, read back with `split("$", 2)`.
- **The company figures** of the dashboard and of the monthly summary:
  - sums by category and of revenue;
  - the percentage of the revenue goal, defined only when the goal is positive;
  - the daily average over the distinct entry dates.

Modules:

- `Wrappers`: `Option`.
- `Seqs`: the sum of a column, and order-keeping de-duplication, which models
  the two `GROUP BY` clauses (by technician and by entry date).
  `COUNT(DISTINCT e.entry_date)` is the size of a set of dates.
- `Entries`: the entry record and both SQL queries, restated as functions
  over a sequence of entries.
- `TrafficLight`: `_semaforo`.
- `TechnicianKpis`:
  - the per-row formulas;
  - the scorecard loop, as a method proved against a specification function;
  - the lemmas about the resulting scorecards.
- `Aggregates`: the dashboard and the monthly summary. It also proves that the
  scorecards of a month add up to that month's summary, as long as every
  entry's technician row exists (see `Aggregates.ScorecardsMatchSummary`
  under "Left out").
- `Credentials`: the split, the join and the two password functions.

Modelling choices:

- Amounts are exact `real` values, and the threshold is exactly 833/1000.
- An entry's service category is `None` when its service type row is missing.
  The grouped query's inner join drops such rows.
- An entry's team is `None` when its team is NULL or dangling. The per-day
  query's `LEFT JOIN` then yields NULL, which counts as crew.
- The per-day query does not join `service_types`. The model keeps this: a
  technician's days are all dates with an entry, joined or not.
- SQLite leaves the order of equal revenues unspecified. The model puts groups
  in order of first appearance, then sorts them stably by revenue, descending.
- The key derivation is a parameter `kdf(password, salt)`. It returns the hex
  digest, or `None` where the real derivation raises.
  - In `verify_password` the exception is caught, so `None` gives false. A salt
    field that is not hex is one way to get there.
  - `hash_password` catches nothing (app.py:115-118), and neither do its
    callers: the password change, the seeding, and user creation, which
    catches only `IntegrityError` (app.py:969). `HashPassword` returns `None`
    for that uncaught exception. Its salt is always hex, so this happens only
    if the derivation itself fails.
- `secrets.token_hex(16)` becomes a salt parameter: 32 lower-case hex digits.
- The scorecard model takes the month's entries of one company as input.
  The dashboard and the summary model the date filters `entry_date = ?` and
  `substr(entry_date, 1, 7) = ?` themselves.

## Model

| member | source | states |
|---|---|---|
| TrafficLight.Tier.CssClass | app.py:569-573 | the CSS class of each tier: `kpi-green`, `kpi-orange`, `kpi-red` |
| TrafficLight.Tier.Emoji | app.py:569-573 | the circle of each tier: green, orange, red |
| TrafficLight.Tier.Status | app.py:569-573 | the label of each tier: `No alvo`, `Atenção`, `Abaixo` |
| TrafficLight.Semaforo | app.py:566-573 | on target exactly when the average reaches the target average; attention exactly when it lies in [0.833·target, target); below exactly when it lies under both |
| TrafficLight.SemaforoByRatio | app.py:566-573 | with a positive target, each tier is fixed by the ratio average/target alone: ≥ 1, in [0.833, 1), below 0.833 |
| TrafficLight.SemaforoMonotone | app.py:566-573 | a higher average never gets a worse tier, for any target and threshold |
| TrafficLight.SemaforoMonotoneInRatio | app.py:566-573 | for a positive target, a higher ratio of actual to target never gets a worse tier |
| Seqs.Dedup | app.py:597 | the groups of a GROUP BY: distinct, every input value present, nothing else, no longer than the input |
| Seqs.Sum | app.py:588-591 | the sum of a column over rows: the SQL `SUM` of a group, which is never empty, and the Python and pandas sums that give 0 over no rows |
| Seqs.DistinctCardinality | app.py:616 | a list without repeats has as many elements as its set of values; with `DayDates` this makes the number of per-day rows the number of distinct dates |
| Entries.JoinedNames | app.py:593-595 | the technician names of the rows surviving the joins are exactly the names with a categorised entry |
| Entries.RowFor | app.py:587-592 | one group's row: its activation and maintenance quantities, total quantity and revenue summed over its joined rows, and the number of distinct dates among them |
| Entries.RowForDays | app.py:592 | a group has a positive count of distinct dates exactly when its technician has a joined entry |
| Entries.GroupedRows | app.py:586-597 | one row per technician with a joined entry and no other; distinct names; each row holds that technician's sums and distinct-date count |
| Entries.Insert | app.py:597 | inserting a row adds exactly that row (same multiset plus the row) |
| Entries.InsertOrdered | app.py:597 | inserting into rows in descending revenue order keeps them in that order |
| Entries.InsertDistinct | app.py:597 | inserting a row with a new technician keeps names distinct |
| Entries.SortByRevenue | app.py:597 | the result is a permutation of its input, in descending order of revenue |
| Entries.SortDistinct | app.py:597 | sorting keeps technician names distinct |
| Entries.TechRows | app.py:586-598 | the grouped query: the groups sorted by descending revenue. `TechRowsCorrect` and `TechRowsCount` say what it holds |
| Entries.TechRowsCount | app.py:586-597 | exactly as many rows as technicians with a joined entry |
| Entries.TechRowsCover | app.py:586-597 | every technician with a joined entry has a row |
| Entries.TechRowsSums | app.py:586-597 | every row holds that technician's filtered sums, and its technician has a joined entry |
| Entries.TechRowsCorrect | app.py:586-598 | the grouped query's result is in descending revenue order, has distinct names, covers exactly the technicians with a joined entry, and each row holds the category-filtered sums of that technician |
| Entries.Joined | app.py:595 | a row value is kept by `JOIN service_types` exactly when it has a category. `JoinedKeepsAll` gives the multiplicities |
| Entries.JoinedKeepsAll | app.py:595 | the join keeps each categorised row as many times as it occurs and drops every other row: multiset count = input count if categorised, else 0 |
| Entries.QuantityPartition | app.py:588-590 | over joined rows, total quantity = activations + maintenances + other services |
| Entries.RevenuePartition | app.py:591 | over joined rows, revenue = activation revenue + maintenance revenue + other revenue |
| Entries.SoloFlag | app.py:611 | `MAX(CASE …)` is 0 or 1, and 1 exactly when that technician has an entry with team `Solo` on that date |
| Entries.TechDates | app.py:610-615 | the dates listed are exactly the technician's entry dates, joined to a service type or not |
| Entries.DayRowsOf | app.py:609-617 | one day row per date, carrying that date's solo flag |
| Entries.DayRows | app.py:609-617 | the per-day query: one row per distinct entry date of the technician |
| Entries.DayDates | app.py:616 | the grouped dates are distinct and are exactly the technician's entry dates |
| TechnicianKpis.CountFlag | app.py:619-620 | the number of day rows with the given flag, never more than the number of rows |
| TechnicianKpis.CountFlagCardinality | app.py:619-621 | over day rows with distinct dates, the solo count is the number of solo dates and the crew count the number of other dates; together they count every row |
| TechnicianKpis.DayRowDates | app.py:609-617 | the per-day rows carry exactly the technician's entry dates |
| TechnicianKpis.DayRowsShape | app.py:609-617 | the per-day rows have distinct dates, and each is flagged 1 exactly when its date is a Solo date and 0 otherwise |
| TechnicianKpis.DayCounts | app.py:609-621 | `dias_solo` is the number of dates with a Solo entry, `dias_equipe` the number of other dates, and their sum is the number of distinct entry dates |
| TechnicianKpis.Figures | app.py:623-637 | the category total as given; with no days, average 0 and the fallback target; with no target total, percent 0; the tier is `_semaforo` of average and target average |
| TechnicianKpis.FiguresMeaning | app.py:626-628 | with days, average·days = total and target average·days = target total; with a target, percent·target total = 100·total |
| TechnicianKpis.FiguresArithmetic | app.py:626-628 | with days and a positive target total, a category's figures satisfy `KpiArithmetic`: average·days = total, target average·days = target total, percent·target total = 100·total |
| TechnicianKpis.CardFor | app.py:621-661 | the card of one grouped row: activation target 3 per solo day plus 4 per crew day, maintenance target 4 and 6, fallback target averages 3.0 and 4.0. `ScorecardArithmetic` and the three scenario lemmas say what it computes |
| TechnicianKpis.ScorecardOf | app.py:619-661 | the card of one grouped row, from the counts of its day rows flagged 1 and flagged 0 |
| TechnicianKpis.ScorecardsFor | app.py:606-661 | one scorecard per grouped row |
| TechnicianKpis.ScorecardsForAt | app.py:607-661 | the scorecard at each position is built from the grouped row at that position and its own day rows |
| TechnicianKpis.Scorecards | app.py:586-661 | `perf_data` for the month's entries: the grouped rows' cards, in the query's order |
| TechnicianKpis.TechRowAt | app.py:586-597 | the grouped row at each position holds its technician's sums |
| TechnicianKpis.CardAt | app.py:606-661 | the card at each position is built from the grouped row there and that technician's day rows |
| TechnicianKpis.CountDays | app.py:619-620 | the loop's two counts are the numbers of day rows flagged 1 and flagged 0 |
| TechnicianKpis.BuildScorecards | app.py:606-661 | the loop over the grouped rows builds exactly the specified scorecard list |
| TechnicianKpis.TechnicianScorecards | app.py:586-661 | the page's scorecards for a month's entries are the specified ones |
| TechnicianKpis.ScorecardsOrderAndCoverage | app.py:586-661 | scorecards come in descending revenue order, one per technician with a joined entry in the month, and no other |
| TechnicianKpis.ScorecardFigures | app.py:586-644 | each scorecard's revenue, activation and maintenance totals are its technician's category-filtered sums; its solo days, crew days and days worked are the Solo dates, the other dates and all of that technician's dates |
| TechnicianKpis.ScorecardArithmetic | app.py:621-636 | with at least one day, `CardArithmetic`: days = solo + crew; targets 3·solo + 4·crew ≥ 3 and 4·solo + 6·crew ≥ 4; averages × days = totals; target averages × days = targets; percent × target = 100 × total |
| TechnicianKpis.FallbacksUnreachable | app.py:597-621 | every scorecard the page builds has at least one day, so the fallback branches are never taken |
| TechnicianKpis.ScorecardsArithmetic | app.py:586-661 | every card the page builds has at least one day and satisfies `CardArithmetic` |
| TechnicianKpis.ScenarioAllSolo | app.py:621-637 | 5 solo days, 18 activations, 22 maintenances: 3.6 against 3.0 at 120 %, and 4.4 against 4.0 at 110 %, both on target |
| TechnicianKpis.ScenarioAllCrew | app.py:621-628 | 4 crew days, 10 activations: target 16, 2.5 against 4.0, 62.5 %, below |
| TechnicianKpis.ScenarioMixed | app.py:630-636 | 2 solo and 2 crew days, 18 maintenances: target 20, 4.5 against 5.0, 90 %, attention |
| Aggregates.Substr7 | app.py:325 | `substr(d, 1, 7)` is the prefix of length min(7, \|d\|) |
| Aggregates.OnDay | app.py:319 | a row value is among the day's rows exactly when it is an entry with that date. `OnDayKeepsAll` gives the multiplicities |
| Aggregates.OnDayKeepsAll | app.py:319-321 | the day's rows keep each entry of that date as many times as it occurs, so identical services are all summed, and drop every other entry |
| Aggregates.InMonth | app.py:325 | a row value is among the month's rows exactly when it is an entry whose first seven characters are the month. `InMonthKeepsAll` gives the multiplicities |
| Aggregates.InMonthKeepsAll | app.py:325-327 | the month's rows keep each entry of that month as many times as it occurs and drop every other entry |
| Aggregates.GoalPct | app.py:330-331 | the percentage is present exactly when a goal row exists with a positive goal, and then percent·goal = 100·revenue |
| Aggregates.DashboardOf | app.py:319-331 | the goal value is the row's or 0; the percentage is present exactly when the goal value is positive, and then percent·goal = 100·month revenue |
| Aggregates.DayWithinMonth | app.py:319-327 | with non-negative amounts and a day inside the month, the day's services and revenue do not exceed the month's |
| Aggregates.DashboardTodayWithinMonth | app.py:321-327 | on the dashboard, today's revenue does not exceed the month's |
| Aggregates.DailyAverage | app.py:542 | with days, average·days = revenue; without, 0 |
| Aggregates.SummaryRows | app.py:518-522 | a row value is among the summary's rows exactly when it is an entry of that month with a category |
| Aggregates.SummaryRowsKeepsAll | app.py:518-522 | the summary's rows keep each categorised entry of the month as many times as it occurs and drop every other entry |
| Aggregates.MonthlySummaryOf | app.py:518-527 | no summary exactly when the month has no joined rows |
| Aggregates.SummaryOf | app.py:529-542 | at least one distinct date; daily average·dates = gross revenue; the goal value is the row's or 0; the percentage is present exactly for a positive goal, and then percent·goal = 100·revenue |
| Aggregates.SummaryPartition | app.py:531-536 | total services = activations + maintenances + other quantities; gross revenue = activation + maintenance + other revenue |
| Aggregates.GroupsAtIndicator | app.py:597 | with distinct group names, a joined entry counts in exactly its technician's group |
| Aggregates.GroupsSumJoined | app.py:586-597 | summing a column group by group, over groups covering every technician, gives the column summed over all joined rows |
| Aggregates.ScorecardsMatchSummary | app.py:529-536 | when every entry has its technician row, the month's scorecards add up to the monthly summary: revenues to gross revenue, activation totals to total activations, maintenance totals to total maintenances |
| Credentials.Split | app.py:108 | `split("$", n)` always gives at least one part |
| Credentials.SplitCount | app.py:108 | the number of parts is 1 + min(number of `$`, maxsplit) |
| Credentials.SplitJoinsBack | app.py:108 | joining the parts with `$` gives the input back |
| Credentials.SplitFieldsFree | app.py:108 | every part but the last is free of the separator |
| Credentials.SplitAfter | app.py:108 | when the text before the first `$` has no `$`, the split cuts exactly there |
| Credentials.IsTokenHex | app.py:116 | `secrets.token_hex(16)`: 32 characters, each a lower-case hex digit |
| Credentials.TokenHexSepFree | app.py:116-118 | such a salt has no `$`, so the credential's salt field cannot shift the split |
| Credentials.CredentialSplits | app.py:108 | `tag$salt$digest`, with tag and salt `$`-free, splits into exactly those three fields |
| Credentials.ThreeFields | app.py:108-110 | a string that splits into three fields has at least two `$` and starts with its first field and a `$` |
| Credentials.VerifyPassword | app.py:106-113 | acceptance needs at least two `$` and the prefix `pbkdf2_sha256$` |
| Credentials.HashPassword | app.py:115-118 | a credential is produced exactly when the derivation succeeds, and it splits back into the tag, the salt and the digest |
| Credentials.VerifyWellFormed | app.py:106-113 | a credential with a `$`-free salt accepts exactly the passwords that derive the stored digest under that salt |
| Credentials.HashThenVerify | app.py:106-118 | a freshly hashed credential accepts its own password, and another password exactly when it derives the same digest under the same salt |
| Credentials.OtherSchemeRejected | app.py:109-110 | a credential with any other scheme tag is rejected, whatever the password |

## Left out

- All of the Streamlit UI is out of scope: CSS and HTML, the cards and charts, widgets, `st.rerun` and `st.stop`. The page's early return on an empty month shows as an empty scorecard list.
- SQLite I/O, the schema, seeding and the CRUD statements are not modelled. The queries are restated as functions over a sequence of entries.
- Entries whose technician row is missing are not modelled. The entry record always carries a technician name.
- Aggregates.ScorecardsMatchSummary: the equality needs every entry's technician row to exist, which the model's entry record assumes.
  - The program does not guarantee this. The technicians tab (app.py:906) deletes a technician with `DELETE FROM technicians` (app.py:888). `get_conn` (app.py:129-132) never turns on `PRAGMA foreign_keys`, so that technician's entries stay.
  - The monthly summary's query (app.py:518-522) has no `JOIN technicians` and still counts those entries. The scorecard query joins technicians (app.py:594) and drops them. There the scorecards add up to less than the summary.
- Session state and role gating are out; they only wrap Streamlit's session store.
- PBKDF2-HMAC-SHA256 and `secrets.token_hex` are foreign library calls. They become the `kdf` and `salt` parameters.
- IEEE floating point and display rounding are not modelled. Amounts are exact reals.
- `dt.date.today()` is a clock read. The day and the month are parameters.
- TechnicianKpis.Scorecard: it keeps the tier, not the CSS class, emoji and label strings. `TrafficLight.Tier` maps a tier to those three strings.
- Entries.SortByRevenue: fixes one order for equal revenues, a stable sort. The source leaves that order to SQLite.
