# Phishing awareness report pipeline, modelled in Dafny

This project models the logic of a phishing-awareness reporting service.

- A customer's simulation export arrives as a ZIP archive, by upload or as a mail attachment.
- The archive is split into three CSV files: scenarios, users and company.
- The scenario records are aggregated into an analysis: overview rates, a risk class, a ranked scenario list, its top three, and the most frequent psychological factors.
- The analysis is rendered as a PDF report.
- The dashboard polls for new-report notifications and shows them as toasts, a badge and a list.

The model has one module per source file, plus two shared modules.

| module | file | source | flavour |
|---|---|---|---|
| `Text` | text.dfy | JavaScript string built-ins the source calls | pure |
| `Sorting` | sorting.dfy | `Array.prototype.sort` with a comparator | pure, plus an in-place array sort |
| `Analyzer` | analyzer.dfy | services/phishingAnalyzer.js | pure specification, imperative accumulation loops |
| `Archive` | archive.dfy | services/zipProcessor.js | imperative entry loop |
| `Intake` | intake.dfy | services/emailMonitor.js | customer search loops and a monitor object |
| `Render` | render.dfy | services/pdfGenerator.js | table-drawing loops and row builders |
| `Notifications` | notifications.dfy | public/notifications.js | a poller object and pure formatting |

Each imperative method is proved against a specification function, and the properties are proved about those functions:

- `AnalyzePhishingData` against `AnalysisOf`;
- `ValidateAndExtractZip` against `Collected`;
- `IdentifyCustomer` against `Identified`;
- `StableSortInPlace` against `InsertionSort`.

### Notes on the code

The model follows these details of the code.

- **Risk classes.** There are four classes: `Niedrig`, `Mittel`, `Hoch` and `Kritisch` (phishingAnalyzer.js:49-52). The thresholds 30, 50 and 70 are strict, so a rate of exactly 30 is `Niedrig` and exactly 50 is `Mittel`.
- **ZIP classification.** Only the keywords `phishing`, `user` and `company` classify an entry. A later entry for the same slot overwrites an earlier one (zipProcessor.js:23-29).
- **ZIP completeness.** All three slots must hold non-empty text (zipProcessor.js:32-34). The number of CSV entries is not checked; extra CSV files are ignored or overwrite a slot.
- **Unused file list.** `REQUIRED_FILES` (zipProcessor.js:5-9) is declared but never read.
- **Columns read.** The analyzer reads the columns `clicks`/`Clicks`, `logins`/`Logins` and the others listed in phishingAnalyzer.js:15-19 and 33-40. It computes no level breakdown, no user ranking and no training comparison.
- **PDF fields.** The PDF renderer reads fields the analyzer never produces, such as `levelData`, `topVulnerableUsers` and `sicherheitsbewertung`. Its row builders are therefore modelled over their own record types.
- **Kritisch in the PDF.** `getRiskColor` colours `Kritisch` green, and the recommendation list gives it the maintenance advice (pdfGenerator.js:12-16 and 380-398).
- **Missing-files message.** In the source file, the "ä" of the message is UTF-8 encoded twice. The model keeps the resulting characters "Ã¤".

### Numbers

JavaScript numbers are doubles; the model computes with exact rationals.

- `Math.round(x * 10) / 10` of a rate becomes `RoundRatio(num, den, 1000)`: a whole number of tenths of a percent, nearest to the exact ratio, halves rounded up.
- The reported/successful ratio is `RoundRatio(reported, successful, 100)`.
- The risk class is decided on the unrounded rate, `Percent`, as the source decides it.
- Counters are `nat`s parsed from decimal digit strings.

## Model

| member | source | states |
|---|---|---|
| Text.Filter | services/emailMonitor.js:152-154 | the result keeps exactly the elements that pass the predicate: every kept element passes and is from the input, and every passing input element is kept |
| Text.FilterAppend | public/notifications.js:28-30 | filtering a concatenation is the concatenation of the filtered parts, so order is kept |
| Text.ToLower | services/zipProcessor.js:21 | same length; every character is the ASCII-lower-cased input character |
| Text.ToLowerIdempotent | services/zipProcessor.js:21 | lower-casing twice equals lower-casing once |
| Text.Contains | services/zipProcessor.js:23 | `includes` holds iff the substring occurs at some position |
| Text.Prefix | services/pdfGenerator.js:118 | `substring(0, n)` has length min(n, length), is a prefix of the input, and is the input itself when it is short enough |
| Text.NatToString | public/notifications.js:212 | decimal rendering is a non-empty digit string without a leading zero |
| Text.ParseNatToString | public/notifications.js:45-53 | parsing the decimal rendering of n gives n back, so the badge shows the count itself |
| Text.NatToStringInjective | public/notifications.js:212-214 | distinct numbers render to distinct texts |
| Text.NatToStringLength | public/notifications.js:48 | a number below 10^k renders in at most k digits |
| Sorting.InsertionSortPermutes | services/phishingAnalyzer.js:44 | the sorted list is a permutation of the input |
| Sorting.InsertionSortSorted | services/phishingAnalyzer.js:44 | the sorted list is non-increasing in the key, as the comparator `b - a` orders |
| Sorting.InsertionSortStable | services/phishingAnalyzer.js:44 | elements of equal key keep their input order, as the stable `Array.prototype.sort` keeps them |
| Sorting.InsertStep | services/phishingAnalyzer.js:44 | one insertion pass on the array: the sorted prefix with a[i] inserted, and the rest of the array unchanged |
| Sorting.StableSortInPlace | services/phishingAnalyzer.js:44 | `scenarioStats.sort(...)` in place: the array ends as InsertionSort of its old contents |
| Analyzer.Pick | services/phishingAnalyzer.js:15-19 | the `a \|\| b \|\| 0` chain yields a digit string whenever the aliased fields are digit strings |
| Analyzer.PickFirst | services/phishingAnalyzer.js:15-19 | the chain yields the first truthy alias |
| Analyzer.PickNone | services/phishingAnalyzer.js:15-19 | with no truthy alias, the chain falls through to the default |
| Analyzer.AliasChain | services/phishingAnalyzer.js:15-40 | counters and text fields read the first non-empty alias, else 0 or the fallback text (`Unbekannt`, `Nicht angegeben`) |
| Analyzer.Percent | services/phishingAnalyzer.js:46-47 | a rate is non-negative and 0 when its denominator is 0 |
| Analyzer.RoundRatio | services/phishingAnalyzer.js:39 | `Math.round(x * 10) / 10` as an integer t: 0 for a zero denominator, else the t with (2t-1)·den ≤ 2·scale·num < (2t+1)·den |
| Analyzer.RoundRatioUnique | services/phishingAnalyzer.js:39 | at most one integer lies in that rounding band, so the rounded value is determined |
| Analyzer.PercentAbove | services/phishingAnalyzer.js:47-52 | comparing a rate with a threshold c is comparing 100·num with c·den |
| Analyzer.RateAtMostHundred | services/phishingAnalyzer.js:47 | a share of at most its whole is at most 100 %, and at most 1000 tenths after rounding |
| Analyzer.MapScenario | services/phishingAnalyzer.js:14-41 | the map callback's name and factor fields are never empty, thanks to their fallbacks; a scenario without hits, or without users, has success rate 0 |
| Analyzer.Successful | services/phishingAnalyzer.js:21 | a scenario counts as successful (1) iff it has a click, login, file open or macro execution; otherwise it counts 0 |
| Analyzer.MappedScenarios | services/phishingAnalyzer.js:14-42 | `scenarios.map(...)` has one entry per input row |
| Analyzer.MappedAt | services/phishingAnalyzer.js:14-42 | entry i of the map is the mapping of row i |
| Analyzer.TotalsSnoc | services/phishingAnalyzer.js:23-28 | appending a scenario adds its counters and its success flag to each running total |
| Analyzer.SuccessfulAtMostScenarios | services/phishingAnalyzer.js:21-28 | totalSuccessful never exceeds the number of scenarios |
| Analyzer.MapScenarios | services/phishingAnalyzer.js:7-42 | the accumulation loop yields the mapped list and, beside it, exactly its totals |
| Analyzer.RiskLevelOf | services/phishingAnalyzer.js:49-52 | the four risk classes partition the rates: `Kritisch` above 70, `Hoch` in (50, 70], `Mittel` in (30, 50], `Niedrig` at most 30 |
| Analyzer.RiskMonotone | services/phishingAnalyzer.js:49-52 | a higher success rate never gives a lower risk class |
| Analyzer.RiskByCounts | services/phishingAnalyzer.js:47-52 | each risk class as an exact condition on the successful and scenario counts; the thresholds belong to the lower class; no scenarios means `Niedrig` |
| Analyzer.Distinct | services/phishingAnalyzer.js:54-60 | the factor-table keys are exactly the factors that occur |
| Analyzer.DistinctNoDuplicates | services/phishingAnalyzer.js:54-60 | each factor is a key of the factor table once |
| Analyzer.EntriesFor | services/phishingAnalyzer.js:60 | `Object.entries` pairs each key with its occurrence count, keys in first-occurrence order |
| Analyzer.FactorCountsSum | services/phishingAnalyzer.js:54-58 | the factor counts add up to the number of scenarios |
| Analyzer.FactorEntriesCounts | services/phishingAnalyzer.js:54-60 | the counts add up to the number of scenarios, each count is at least 1, and every scenario's factor has an entry |
| Analyzer.CountStep | services/phishingAnalyzer.js:55-58 | one `forEach` step keeps the factor table equal to the occurrence counts so far, keys in first-occurrence order |
| Analyzer.TallyFactors | services/phishingAnalyzer.js:54-58 | after the loop, the table holds exactly the occurrence counts of the factors, keys in first-occurrence order |
| Analyzer.TalliedEntries | services/phishingAnalyzer.js:60 | the entries of a finished table are the factor entries of the scenario list |
| Analyzer.CountFactors | services/phishingAnalyzer.js:54-60 | the counting loop and `Object.entries` yield the factor entries of the ranked scenarios |
| Analyzer.Take | services/phishingAnalyzer.js:62 | `slice(0, n)` is the prefix of length min(n, length) |
| Analyzer.TopOfRanking | services/phishingAnalyzer.js:60-63 | the first n of a ranking are its leading min(n, length) entries, each ranked at least as high as every entry left out; they are still ranked and drawn from the input |
| Analyzer.AnalysisOf | services/phishingAnalyzer.js:65-86 | the analysis ranks every scenario and keeps at most three top scenarios and at most three top factors |
| Analyzer.AnalyzePhishingData | services/phishingAnalyzer.js:1-87 | the imperative analysis, with its in-place sort, returns exactly the specified analysis of the scenarios and the user count |
| Analyzer.OverviewCounts | services/phishingAnalyzer.js:2-28 | totalUsers and totalScenarios are the input lengths; each total is the sum of its per-scenario counter; totalSuccessful is at most the scenario count |
| Analyzer.ScenarioRates | services/phishingAnalyzer.js:15-39 | scenario i reads its counters from row i; its success rate is hits per user in tenths of a percent, rounded half up, and 0 without users |
| Analyzer.MapScenarioRate | services/phishingAnalyzer.js:15-39 | one row's mapped scenario reads its counters through the alias chains, and its success rate is its hits per user in tenths of a percent, rounded half up, or 0 without users |
| Analyzer.OverviewRounding | services/phishingAnalyzer.js:46-70 | the overall click and success rates are the nearest tenths of a percent, halves up, and 0 for a zero denominator |
| Analyzer.RatioRounding | services/phishingAnalyzer.js:81-85 | reported and successful are the totals; the ratio is the nearest whole percent, halves up, and 0 without a successful scenario |
| Analyzer.RankedStats | services/phishingAnalyzer.js:44 | the ranking is a sorted, stable permutation; its first three are a prefix of min(3, n) entries, each at least as high as every later entry |
| Analyzer.Ranking | services/phishingAnalyzer.js:44 | scenarioStats is a permutation of the mapped rows, non-increasing in success rate, with ties in input order |
| Analyzer.TopScenarios | services/phishingAnalyzer.js:79 | topScenarios holds min(3, n) entries, is a prefix of scenarioStats, and dominates every later scenario |
| Analyzer.OverviewRates | services/phishingAnalyzer.js:46-71 | the overall success rate is at most 100 %; the rates are 0 for empty inputs; `Kritisch` iff more than 70 % of scenarios are successful, `Niedrig` iff at most 30 % |
| Analyzer.RankedFactors | services/phishingAnalyzer.js:54-63 | the first three entries of a scenario list's factor table sorted by count: min(3, k) leading entries, none counted less often than an entry left out, and at least one when there is a scenario |
| Analyzer.TopFactors | services/phishingAnalyzer.js:60-63 | topFactors are the most frequent factors: the leading min(3, k) entries of the factor table sorted by count, none counted less often than an entry left out; drawn from the table, and at least one when there is a scenario |
| Archive.ClassifyFirstKeyword | services/zipProcessor.js:19-29 | an entry goes to a slot only if it is a `.csv` file whose lower-cased name contains that slot's keyword and none tested before it (`phishing`, then `user`, then `company`); a `.csv` file is skipped only if it contains no keyword |
| Archive.CollectedSlots | services/zipProcessor.js:16-30 | after the loop, a slot is filled iff some entry is classified into it, and then it holds the text of such an entry |
| Archive.Set | services/zipProcessor.js:24-28 | writing a slot sets that slot and leaves the other two unchanged |
| Archive.CollectedUntouched | services/zipProcessor.js:16-30 | a slot no entry is classified into stays empty |
| Archive.CollectedLastWins | services/zipProcessor.js:18-30 | a slot holds the text of the last entry classified into it |
| Archive.IgnoredEntry | services/zipProcessor.js:19-29 | a directory, or a file no keyword matches, does not affect the result |
| Archive.ClassifyCaseInsensitive | services/zipProcessor.js:21-29 | classification ignores the case of the entry name |
| Archive.ValidateAndExtractZip | services/zipProcessor.js:11-40 | success iff the archive opens and all three slots are filled; every error carries the failure prefix; the exact open-error and missing-files messages; on success, the three collected texts |
| Archive.ProcessZipFile | services/zipProcessor.js:55-67 | the same success condition and errors; on success, each slot's text is parsed into records |
| Intake.FirstIndex | services/emailMonitor.js:214-218 | the first position satisfying the predicate, or none when no position does |
| Intake.Identified | services/emailMonitor.js:185-225 | an email match wins; without one, the first customer whose name occurs in the subject (a missing subject counts as ''); none iff no name occurs |
| Intake.EmailMatchWins | services/emailMonitor.js:191-202 | when the sender matches a customer's email, that customer is chosen whatever the subject |
| Intake.SubjectMatchFirst | services/emailMonitor.js:206-218 | without an email match, the first customer named in the subject is chosen |
| Intake.IdentifyCustomer | services/emailMonitor.js:185-225 | the two lookups compute exactly `Identified` |
| Intake.FindBySubject | services/emailMonitor.js:213-220 | the loop over customers returns the first one named in the subject, or null |
| Intake.IsZip | services/emailMonitor.js:152-154 | an attachment is a ZIP iff it has a name whose lower-cased form ends in `.zip`; the empty-name test is subsumed |
| Intake.Outcome | services/emailMonitor.js:176-180 | each attachment is reported with an error iff its processing throws; the error is caught |
| Intake.ProcessAttachments | services/emailMonitor.js:175-181 | every ZIP attachment is processed, in order, one outcome each |
| Intake.ProcessEmail | services/emailMonitor.js:143-182 | no attachments, no ZIP attachment, or no customer end processing; otherwise each `.zip` attachment is processed for the identified customer |
| Intake.IntervalMs | services/emailMonitor.js:35 | the polling period is the configured minutes in ms, or 15 minutes when the setting is missing or 0 |
| Intake.EmailMonitor.constructor | services/emailMonitor.js:12-13 | the monitor starts off, with no timer |
| Intake.EmailMonitor.Start | services/emailMonitor.js:16-40 | a no-op while running or without settings; otherwise monitoring is on with a timer of the configured period |
| Intake.EmailMonitor.Stop | services/emailMonitor.js:43-50 | monitoring is off and no timer remains |
| Render.RiskColorClasses | services/pdfGenerator.js:12-16 | red iff `Hoch`, orange iff `Mittel`, green otherwise, including `Kritisch` |
| Render.RiskColor | services/pdfGenerator.js:12-16 | the risk colour is red, the accent orange or green |
| Render.Recommendations | services/pdfGenerator.js:380-398 | the recommendation block is one of the three five-item lists |
| Render.RecommendationsMatchColor | services/pdfGenerator.js:380-398 | the urgent, medium and maintenance lists go with exactly the red, orange and green risk colours |
| Render.PlaceCells | services/pdfGenerator.js:27-31 | text i is placed 5 points right of x plus the widths of the columns before it, wrapped to its width less 10 |
| Render.DrawTableHeader | services/pdfGenerator.js:24-32 | a 20-point primary-colour band as wide as all columns, with each header in its column |
| Render.DrawTableRow | services/pdfGenerator.js:34-43 | an 18-point band, light grey on alternate rows and white otherwise, with each value in its column |
| Render.ColumnsInsideBackground | services/pdfGenerator.js:25-31 | with non-negative widths, every column lies inside the background rectangle |
| Render.DescriptionCell | services/pdfGenerator.js:118 | a description is cut to 50 characters plus "..." exactly when it is longer than 50 |
| Render.TopScenarioRows | services/pdfGenerator.js:115-123 | one row per top scenario, alternating shading, the description cell at most 53 characters |
| Render.VulnerableUserRows | services/pdfGenerator.js:191-201 | at most 10 rows, alternating shading, each id cut to 8 characters |
| Render.ScenarioDetailRows | services/pdfGenerator.js:285-306 | one row per scenario; the id is cut to 8 characters and the exploit type to 15 |
| Render.VisibleIndices | services/pdfGenerator.js:162-172 | exactly the levels with employees or sent attacks, in increasing order |
| Render.LevelRows | services/pdfGenerator.js:161-172 | one row per visible level, stacked 18 points apart below the header, shaded by the parity of the level's own index |
| Render.LevelRowsOfMeaning | services/pdfGenerator.js:161-172 | the rows the loop builds are the visible levels, in order and at their positions |
| Render.LevelTableHasRows | services/pdfGenerator.js:152-172 | when the level table is drawn, it has at least one row |
| Render.FormatTenths | services/pdfGenerator.js:360 | `toFixed(1)` of a value in tenths: digits, a point and one digit that parse back to the value |
| Render.TrainingSentence | services/pdfGenerator.js:357-360 | the sentence opens with the magnitude of the difference to one decimal and closes with the comparison word before the fixed ending |
| Render.TrainingSwap | services/pdfGenerator.js:357-360 | swapping the two rates keeps the difference and flips "niedrigere"/"höhere", so distinct rates give different sentences; equal rates read "höhere" |
| Notifications.ElapsedSeconds | public/notifications.js:209 | the floored elapsed seconds: s·1000 ≤ now − date < s·1000 + 1000 |
| Notifications.Bucket | public/notifications.js:211-214 | a shown count is at least 1 and below the next unit: under 60 minutes, 24 hours, 7 days |
| Notifications.BucketRanges | public/notifications.js:211-216 | each wording holds exactly on its range (under 60 s, 3600 s, 86400 s, 604800 s, else the date), with the floored count of minutes, hours or days |
| Notifications.BucketMonotone | public/notifications.js:209-216 | a later notification never reads as older: the unit and the count are monotone in elapsed seconds |
| Notifications.GetTimeAgo | public/notifications.js:208-217 | under a minute (or a future date) reads "Gerade eben", a week or more the date text, and anything between "vor …" |
| Notifications.TimeAgoTextInjective | public/notifications.js:212-214 | within one unit, equal texts mean equal counts |
| Notifications.BadgeText | public/notifications.js:45-53 | the badge is shown iff the count is positive, and reads "99+" above 99 |
| Notifications.BadgeRule | public/notifications.js:45-53 | the badge shows iff count > 0, with 1 to 3 characters: the count itself up to 99, else "99+" |
| Notifications.ToastOf | public/notifications.js:185-194 | a toast carries the notification's title and a non-empty message: the customer name or the generic text |
| Notifications.ShowToasts | public/notifications.js:32-34 | one toast per new notification, in order |
| Notifications.NotificationPoller.constructor | public/notifications.js:2-3 | no timer and no last check |
| Notifications.NotificationPoller.Check | public/notifications.js:20-42 | a failed fetch changes nothing; otherwise the badge shows the unread count, the last check becomes now, and a toast appears for each notification created after the previous check (none on the first check) |
| Notifications.NotificationPoller.Start | public/notifications.js:6-9 | one check now, then a 30-second timer |
| Notifications.NotificationPoller.Stop | public/notifications.js:12-17 | the timer is cleared; the badge and the last check are kept |
| Notifications.ToastsAreFresh | public/notifications.js:28-30 | the toasted notifications are exactly the input notifications created after the last check |
| Notifications.RenderItem | public/notifications.js:110-122 | an item is marked unread iff it is unread, and carries a customer tag iff a non-empty customer name is present |

## Left out

- I/O: IMAP access, the file system, the database, pdfkit drawing, `fetch`, the DOM and the timers. Database results and fetch responses become parameters; timers are represented by their period.
- Analyzer.AnalyzePhishingData: requires the alias each counter chain reads (the first present, non-empty one) to be a decimal digit string (`WellFormedScenario`); aliases the chain skips may hold anything. Other text is outside the model; on it `parseInt` may return a partial number ("12abc"), a negative number, a hexadecimal value ("0x1A") or NaN. The same requirement is on MapScenario, MapScenarios, MappedScenarios and the analysis lemmas.
- Analyzer.RoundRatio: computes with exact rationals, not IEEE doubles, so the rare double-rounding differences of `Math.round(x * 10) / 10` are not modelled.
- Analyzer.Pick: JavaScript property lookup on a CSV record is modelled as a map lookup.
- Analyzer.EntriesFor: keys are listed in first-occurrence order. `Object.entries` puts integer-like keys (a factor named "3") first in ascending order, and a factor named `__proto__` does not become a key; neither quirk is modelled. The same holds for Analyzer.Distinct and Analyzer.CountFactors.
- Analyzer.TallyFactors: counts 1, 2, … for every factor name. In the source the tally is a plain `{}`, so for a factor named after an inherited `Object.prototype` member (`constructor`, `toString`, `valueOf`, `hasOwnProperty`, …) `psychologicalFactors[factor] || 0` reads the inherited function, and the count becomes a string ("function Object() { [native code] }1", then "…11"); the comparator `b[1] - a[1]` then yields NaN, so that entry's place in the sorted table is unspecified. Such names, and the `__proto__` and integer-like keys above, are not modelled.
- Analyzer.CountFactors: inherits the TallyFactors gap: for a factor named after an inherited `Object.prototype` member the source's count is a string and its place among the top factors is unspecified; the model counts it like any other name.
- Text.ToLower: folds ASCII letters only; `toLowerCase` on other Unicode letters is not modelled.
- Text.Prefix: lengths count characters (code points). JavaScript's `length` and `substring` count UTF-16 code units, so a text with characters outside the Basic Multilingual Plane is cut at a different place, and JavaScript may split a surrogate pair. The same holds for Render.DescriptionCell, Render.VulnerableUserRows and Render.ScenarioDetailRows.
- The `users` and `company` record sets reach the analyzer, which reads only the user count.
- Render.PlaceCells: requires no more texts than column widths; the source would compute NaN positions for the extra texts.
- Render.FormatTenths: the PDF's rates are taken as whole tenths; `toFixed(1)` on arbitrary doubles is not modelled.
- The PDF's page breaks, `doc.y` flow, KPI boxes, headings and other static sections are not modelled; only the table helpers, the row builders and the colour and recommendation choices are.
- Archive.ProcessZipFile: the CSV parser is a total function parameter; csv-parser stream errors are not modelled.
- Archive.ValidateAndExtractZip: an entry's text is given; AdmZip `getData` failures inside the entry loop, which the source reports with the same failure prefix, are not modelled.
- Intake.IntervalMs: `checkInterval` is a `nat`; a negative minute value that the settings form lets through is not modelled.
- Intake.IdentifyCustomer: database errors, which reject the promise, are not modelled. `email.from` is assumed present. `db.get` without ORDER BY is taken to return the first matching customer in table order.
- Intake.ProcessEmail: the per-attachment pipeline (`processZipAttachment`) is a function parameter; its side effects and the mail being marked as read are not modelled.
- Intake.EmailMonitor.Start: the settings query is asynchronous; two `start()` calls before its callback runs could install two timers. The model runs the callback at once.
- Notifications.NotificationPoller.Check: `created_at` is taken as one instant; the local-versus-UTC parse difference between `new Date(created_at)` and `new Date(created_at + 'Z')` is not modelled. A thrown fetch and a non-OK response are both `None`.
- Notifications.GetTimeAgo: `toLocaleDateString('de-DE')` is a text parameter.
- Notification UI handlers (toggle, load, delete, mark all as read, click-through) and the empty-list HTML are DOM and fetch glue and are not modelled.
