/** The phishing data aggregator of services/phishingAnalyzer.js: folds the
    scenario rows of an export into running totals, derives per-scenario
    success rates, ranks the scenarios, classifies the overall risk and counts
    the psychological factors. The user rows are only counted and the company
    rows are never read. */
module Analyzer {
  import opened Text
  import Sorting

  // The alias chains the aggregator tries, in order, for each field.
  const ClickKeys: seq<string> := ["clicks", "Clicks"]
  const LoginKeys: seq<string> := ["logins", "Logins"]
  const FileOpenKeys: seq<string> := ["file_opens", "FileOpens", "file_open"]
  const MacroKeys: seq<string> := ["macro_executions", "MacroExecutions", "macros"]
  const ReportedKeys: seq<string> := ["reported", "Reported"]
  const NameKeys: seq<string> := ["scenario_name", "ScenarioName", "name"]
  const FactorKeys: seq<string> := ["psychological_factor", "PsychologicalFactor", "factor"]

  const UnknownName := "Unbekannt"
  const NotSpecified := "Nicht angegeben"

  // ---------------------------------------------------------------------------
  // Field access

  /** `row[k]` is a truthy value: present and not the empty string. */
  predicate Truthy(row: Row, k: string)
  {
    k in row && row[k] != ""
  }

  /** Every alias in the chain that is present holds decimal digits (or is empty). */
  predicate DigitFields(row: Row, keys: seq<string>)
  {
    forall i :: 0 <= i < |keys| && keys[i] in row ==> AllDigits(row[keys[i]])
  }

  /** `row[k1] || row[k2] || ... || ""`: the value of the first alias that is
      present and non-empty, or the empty string when there is none. */
  function Pick(row: Row, keys: seq<string>): (v: string)
    ensures DigitFields(row, keys) ==> AllDigits(v)
  {
    if keys == [] then ""
    else if Truthy(row, keys[0]) then row[keys[0]]
    else
      assert DigitFields(row, keys) ==> DigitFields(row, keys[1..]) by {
        if DigitFields(row, keys) {
          forall i | 0 <= i < |keys[1..]| && keys[1..][i] in row
            ensures AllDigits(row[keys[1..][i]])
          {
            assert keys[1..][i] == keys[i + 1];
          }
        }
      }
      Pick(row, keys[1..])
  }

  /** `parseInt(row.k1 || row.k2 || ... || 0)`: an empty pick parses as 0. */
  function Counter(row: Row, keys: seq<string>): nat
    requires AllDigits(Pick(row, keys))
  {
    ParseDigits(Pick(row, keys))
  }

  /** `row.k1 || row.k2 || ... || fallback` for a text field. */
  function TextField(row: Row, keys: seq<string>, fallback: string): string
  {
    var v := Pick(row, keys);
    if v == "" then fallback else v
  }

  /** The chain yields the value of the first alias that is present and
      non-empty; aliases before it are skipped, aliases after it ignored. */
  lemma {:induction false} PickFirst(row: Row, keys: seq<string>, i: nat)
    requires i < |keys| && Truthy(row, keys[i])
    requires forall j :: 0 <= j < i ==> !Truthy(row, keys[j])
    ensures Pick(row, keys) == row[keys[i]]
  {
    if i > 0 {
      assert !Truthy(row, keys[0]);
      forall j | 0 <= j < i - 1 ensures !Truthy(row, keys[1..][j]) {
        assert keys[1..][j] == keys[j + 1];
      }
      PickFirst(row, keys[1..], i - 1);
    }
  }

  /** With no alias present and non-empty, the chain yields the empty string. */
  lemma {:induction false} PickNone(row: Row, keys: seq<string>)
    requires forall j :: 0 <= j < |keys| ==> !Truthy(row, keys[j])
    ensures Pick(row, keys) == ""
  {
    if keys != [] {
      assert !Truthy(row, keys[0]);
      forall j | 0 <= j < |keys| - 1 ensures !Truthy(row, keys[1..][j]) {
        assert keys[1..][j] == keys[j + 1];
      }
      PickNone(row, keys[1..]);
    }
  }

  /** A field read through an alias chain comes from the first alias holding a
      non-empty value; when there is none the counter is 0 and the text field
      takes its fallback. */
  lemma AliasChain(row: Row, keys: seq<string>, fallback: string)
    requires AllDigits(Pick(row, keys))
    ensures (forall j :: 0 <= j < |keys| ==> !Truthy(row, keys[j])) ==>
              Counter(row, keys) == 0 && TextField(row, keys, fallback) == fallback
    ensures forall i :: 0 <= i < |keys| && Truthy(row, keys[i])
                     && (forall j :: 0 <= j < i ==> !Truthy(row, keys[j]))
                     ==> (Pick(row, keys) == row[keys[i]]
                          && Counter(row, keys) == ParseDigits(row[keys[i]])
                          && TextField(row, keys, fallback) == row[keys[i]])
  {
    if forall j :: 0 <= j < |keys| ==> !Truthy(row, keys[j]) {
      PickNone(row, keys);
    }
    forall i | 0 <= i < |keys| && Truthy(row, keys[i]) && (forall j :: 0 <= j < i ==> !Truthy(row, keys[j]))
      ensures Pick(row, keys) == row[keys[i]] && Counter(row, keys) == ParseDigits(row[keys[i]])
           && TextField(row, keys, fallback) == row[keys[i]]
    {
      PickFirst(row, keys, i);
    }
  }

  /** The rows this model accepts: the alias each counter chain actually reads
      holds digits (or there is none); aliases the chain skips may hold anything. */
  predicate WellFormedScenario(row: Row)
  {
    && AllDigits(Pick(row, ClickKeys))
    && AllDigits(Pick(row, LoginKeys))
    && AllDigits(Pick(row, FileOpenKeys))
    && AllDigits(Pick(row, MacroKeys))
    && AllDigits(Pick(row, ReportedKeys))
  }

  // ---------------------------------------------------------------------------
  // Rates

  /** `den > 0 ? num / den * 100 : 0`, exactly. */
  function Percent(num: nat, den: nat): (p: real)
    ensures p >= 0.0
    ensures den == 0 ==> p == 0.0
  {
    if den == 0 then 0.0 else (num as real) / (den as real) * 100.0
  }

  /** `den > 0 ? Math.round(num / den * scale) : 0` on exact rationals: the
      integer nearest to num * scale / den, halves rounded up. With scale 1000
      this is `Math.round(num / den * 100 * 10)`, a percentage in tenths. */
  function RoundRatio(num: nat, den: nat, scale: nat): (t: nat)
    ensures den == 0 ==> t == 0
    ensures den > 0 ==> (2 * t - 1) * den <= 2 * scale * num < (2 * t + 1) * den
  {
    if den == 0 then 0
    else
      var t := (2 * scale * num + den) / (2 * den);
      assert 2 * den * t <= 2 * scale * num + den < 2 * den * t + 2 * den;
      t
  }

  /** Only one whole number lies within half a unit of num * scale / den. */
  lemma RoundRatioUnique(num: nat, den: nat, scale: nat, t: int)
    requires den > 0
    requires (2 * t - 1) * den <= 2 * scale * num < (2 * t + 1) * den
    ensures t == RoundRatio(num, den, scale)
  {
    var r := RoundRatio(num, den, scale);
    MulLess(2 * t - 1, 2 * r + 1, den);
    MulLess(2 * (r as int) - 1, 2 * t + 1, den);
  }

  /** Multiplying by a positive number keeps a strict order, both ways. */
  lemma MulLess(a: int, b: int, c: int)
    requires c > 0
    ensures a < b <==> a * c < b * c
  {
    if a < b {
      assert b * c == a * c + (b - a) * c;
    } else {
      assert a * c == b * c + (a - b) * c;
    }
  }

  lemma MulMono(a: real, b: real, c: real)
    requires a <= b && c > 0.0
    ensures a * c <= b * c
  {
  }

  lemma MulStrict(a: real, b: real, c: real)
    requires a < b && c > 0.0
    ensures a * c < b * c
  {
  }

  /** `num / den * 100 > c`, stated without division. */
  lemma PercentAbove(num: nat, den: nat, c: nat)
    requires den > 0
    ensures Percent(num, den) > c as real <==> 100 * num > c * den
  {
    var d := den as real;
    var p := Percent(num, den);
    assert p * d == (num as real) * 100.0;
    assert (100 * num) as real == p * d;
    assert (c * den) as real == (c as real) * d;
    if p > c as real {
      MulStrict(c as real, p, d);
    } else {
      MulMono(p, c as real, d);
    }
  }

  /** A rate never exceeds 100 % (1000 tenths) when the numerator is at most
      the denominator. */
  lemma RateAtMostHundred(num: nat, den: nat)
    requires num <= den
    ensures Percent(num, den) <= 100.0
    ensures RoundRatio(num, den, 1000) <= 1000
  {
    if den > 0 {
      var t := RoundRatio(num, den, 1000);
      assert (num as real) / (den as real) <= 1.0;
      MulLess(2 * (t as int) - 1, 2001, den);
    }
  }

  // ---------------------------------------------------------------------------
  // Scenarios

  datatype ScenarioStat = ScenarioStat(
    name: string,
    clicks: nat,
    logins: nat,
    fileOpens: nat,
    macroExecutions: nat,
    reported: nat,
    successRate: nat,           // in tenths of a percent
    psychologicalFactor: string)

  function Hits(s: ScenarioStat): nat
  {
    s.clicks + s.logins + s.fileOpens + s.macroExecutions
  }

  /** The per-scenario `successful` flag. */
  function Successful(s: ScenarioStat): (b: nat)
    ensures b <= 1
    ensures b == 1 <==> s.clicks > 0 || s.logins > 0 || s.fileOpens > 0 || s.macroExecutions > 0
  {
    if s.clicks > 0 || s.logins > 0 || s.fileOpens > 0 || s.macroExecutions > 0 then 1 else 0
  }

  /** The `scenarios.map` callback: counters, rounded success rate, text fields.
      The text fields are never empty, thanks to their fallbacks, and a
      scenario without hits, or without users, has rate 0. */
  function MapScenario(row: Row, totalUsers: nat): (s: ScenarioStat)
    requires WellFormedScenario(row)
    ensures s.name != "" && s.psychologicalFactor != ""
    ensures totalUsers == 0 || Hits(s) == 0 ==> s.successRate == 0
  {
    var clicks := Counter(row, ClickKeys);
    var logins := Counter(row, LoginKeys);
    var fileOpens := Counter(row, FileOpenKeys);
    var macroExec := Counter(row, MacroKeys);
    ScenarioStat(
      TextField(row, NameKeys, UnknownName),
      clicks, logins, fileOpens, macroExec,
      Counter(row, ReportedKeys),
      RoundRatio(clicks + logins + fileOpens + macroExec, totalUsers, 1000),
      TextField(row, FactorKeys, NotSpecified))
  }

  /** `scenarios.map(...)`, in input order. */
  function MappedScenarios(rows: seq<Row>, totalUsers: nat): (r: seq<ScenarioStat>)
    requires forall i :: 0 <= i < |rows| ==> WellFormedScenario(rows[i])
    ensures |r| == |rows|
  {
    if rows == [] then []
    else MappedScenarios(rows[..|rows| - 1], totalUsers) + [MapScenario(rows[|rows| - 1], totalUsers)]
  }

  /** The i-th mapped scenario is the i-th row mapped: map keeps order and length. */
  lemma {:induction false} MappedAt(rows: seq<Row>, totalUsers: nat, i: nat)
    requires forall k :: 0 <= k < |rows| ==> WellFormedScenario(rows[k])
    requires i < |rows|
    ensures MappedScenarios(rows, totalUsers)[i] == MapScenario(rows[i], totalUsers)
  {
    if i < |rows| - 1 {
      MappedAt(rows[..|rows| - 1], totalUsers, i);
    }
  }

  lemma MappedStep(rows: seq<Row>, totalUsers: nat, i: nat)
    requires forall k :: 0 <= k < |rows| ==> WellFormedScenario(rows[k])
    requires i < |rows|
    ensures MappedScenarios(rows[..i + 1], totalUsers)
         == MappedScenarios(rows[..i], totalUsers) + [MapScenario(rows[i], totalUsers)]
  {
    assert rows[..i + 1][..i] == rows[..i];
  }

  datatype Totals = Totals(
    clicks: nat, logins: nat, fileOpens: nat,
    macroExecutions: nat, reported: nat, successful: nat)

  /** Sum of f over the scenarios. */
  function SumBy(s: seq<ScenarioStat>, f: ScenarioStat -> nat): nat
  {
    if s == [] then 0 else SumBy(s[..|s| - 1], f) + f(s[|s| - 1])
  }

  /** The six totals as sums over the scenarios. */
  function TotalsOf(s: seq<ScenarioStat>): Totals
  {
    Totals(
      SumBy(s, (x: ScenarioStat) => x.clicks),
      SumBy(s, (x: ScenarioStat) => x.logins),
      SumBy(s, (x: ScenarioStat) => x.fileOpens),
      SumBy(s, (x: ScenarioStat) => x.macroExecutions),
      SumBy(s, (x: ScenarioStat) => x.reported),
      SumBy(s, Successful))
  }

  lemma TotalsSnoc(s: seq<ScenarioStat>, x: ScenarioStat)
    ensures var t := TotalsOf(s);
      TotalsOf(s + [x]) == Totals(t.clicks + x.clicks, t.logins + x.logins, t.fileOpens + x.fileOpens,
                                  t.macroExecutions + x.macroExecutions, t.reported + x.reported,
                                  t.successful + Successful(x))
  {
    assert (s + [x])[..|s|] == s;
  }

  /** At most one successful scenario per scenario. */
  lemma {:induction false} SuccessfulAtMostScenarios(s: seq<ScenarioStat>)
    ensures TotalsOf(s).successful <= |s|
  {
    if s != [] {
      SuccessfulAtMostScenarios(s[..|s| - 1]);
    }
  }

  /** The `scenarios.map` callback with its six running totals. */
  method MapScenarios(rows: seq<Row>, totalUsers: nat) returns (stats: seq<ScenarioStat>, totals: Totals)
    requires forall i :: 0 <= i < |rows| ==> WellFormedScenario(rows[i])
    ensures stats == MappedScenarios(rows, totalUsers)
    ensures totals == TotalsOf(stats)
  {
    var totalClicks: nat, totalLogins: nat, totalFileOpens: nat := 0, 0, 0;
    var totalMacroExecutions: nat, totalReported: nat, totalSuccessful: nat := 0, 0, 0;
    stats := [];
    var i := 0;
    while i < |rows|
      invariant 0 <= i <= |rows|
      invariant stats == MappedScenarios(rows[..i], totalUsers)
      invariant Totals(totalClicks, totalLogins, totalFileOpens,
                       totalMacroExecutions, totalReported, totalSuccessful) == TotalsOf(stats)
    {
      var s := MapScenario(rows[i], totalUsers);
      totalClicks := totalClicks + s.clicks;
      totalLogins := totalLogins + s.logins;
      totalFileOpens := totalFileOpens + s.fileOpens;
      totalMacroExecutions := totalMacroExecutions + s.macroExecutions;
      totalReported := totalReported + s.reported;
      totalSuccessful := totalSuccessful + Successful(s);
      MappedStep(rows, totalUsers, i);
      TotalsSnoc(stats, s);
      stats := stats + [s];
      i := i + 1;
    }
    assert rows[..i] == rows;
    totals := Totals(totalClicks, totalLogins, totalFileOpens,
                     totalMacroExecutions, totalReported, totalSuccessful);
  }

  /** The sort key of `scenarioStats.sort((a, b) => b.successRate - a.successRate)`. */
  function RateKey(s: ScenarioStat): int
  {
    s.successRate
  }

  // ---------------------------------------------------------------------------
  // Risk level

  datatype RiskLevel = Niedrig | Mittel | Hoch | Kritisch

  /** The label the source stores and renders. */
  function RiskLabel(r: RiskLevel): string
  {
    match r
    case Niedrig => "Niedrig"
    case Mittel => "Mittel"
    case Hoch => "Hoch"
    case Kritisch => "Kritisch"
  }

  /** The risk `if` chain on the unrounded overall success rate. */
  function RiskLevelOf(rate: real): (r: RiskLevel)
    ensures r == Kritisch <==> rate > 70.0
    ensures r == Hoch <==> 50.0 < rate <= 70.0
    ensures r == Mittel <==> 30.0 < rate <= 50.0
    ensures r == Niedrig <==> rate <= 30.0
  {
    if rate > 70.0 then Kritisch
    else if rate > 50.0 then Hoch
    else if rate > 30.0 then Mittel
    else Niedrig
  }

  function Severity(r: RiskLevel): nat
  {
    match r
    case Niedrig => 0
    case Mittel => 1
    case Hoch => 2
    case Kritisch => 3
  }

  /** A higher success rate never yields a lower risk class. */
  lemma RiskMonotone(a: real, b: real)
    requires a <= b
    ensures Severity(RiskLevelOf(a)) <= Severity(RiskLevelOf(b))
  {
  }

  /** The risk class of `successful` of `scenarios` scenarios, stated without
      division: the thresholds 30, 50 and 70 belong to the lower class. */
  lemma RiskByCounts(successful: nat, scenarios: nat)
    ensures var r := RiskLevelOf(Percent(successful, scenarios));
      && (r == Kritisch <==> scenarios > 0 && 10 * successful > 7 * scenarios)
      && (r == Hoch <==> scenarios > 0 && 5 * scenarios < 10 * successful <= 7 * scenarios)
      && (r == Mittel <==> scenarios > 0 && 3 * scenarios < 10 * successful <= 5 * scenarios)
      && (r == Niedrig <==> scenarios == 0 || 10 * successful <= 3 * scenarios)
  {
    if scenarios > 0 {
      PercentAbove(successful, scenarios, 70);
      PercentAbove(successful, scenarios, 50);
      PercentAbove(successful, scenarios, 30);
    }
  }

  // ---------------------------------------------------------------------------
  // Psychological factors

  datatype FactorCount = FactorCount(factor: string, count: nat)

  function Factors(s: seq<ScenarioStat>): (fs: seq<string>)
    ensures |fs| == |s|
    ensures forall i :: 0 <= i < |s| ==> fs[i] == s[i].psychologicalFactor
  {
    if s == [] then [] else Factors(s[..|s| - 1]) + [s[|s| - 1].psychologicalFactor]
  }

  /** How often f occurs in fs. */
  function Occurrences(fs: seq<string>, f: string): nat
  {
    if fs == [] then 0 else Occurrences(fs[..|fs| - 1], f) + (if fs[|fs| - 1] == f then 1 else 0)
  }

  /** The distinct values of fs in order of first occurrence: the key order of
      a JavaScript object filled from fs. */
  function Distinct(fs: seq<string>): (d: seq<string>)
    ensures forall f :: f in d <==> f in fs
  {
    if fs == [] then []
    else
      var d := Distinct(fs[..|fs| - 1]);
      assert fs == fs[..|fs| - 1] + [fs[|fs| - 1]];
      if fs[|fs| - 1] in d then d else d + [fs[|fs| - 1]]
  }

  ghost predicate NoDuplicates(d: seq<string>)
  {
    forall i, j :: 0 <= i < j < |d| ==> d[i] != d[j]
  }

  lemma {:induction false} DistinctNoDuplicates(fs: seq<string>)
    ensures NoDuplicates(Distinct(fs))
  {
    if fs != [] {
      DistinctNoDuplicates(fs[..|fs| - 1]);
    }
  }

  /** One entry per distinct factor, in key order, with its occurrence count. */
  function EntriesFor(d: seq<string>, fs: seq<string>): (e: seq<FactorCount>)
    ensures |e| == |d|
    ensures forall j :: 0 <= j < |d| ==> e[j] == FactorCount(d[j], Occurrences(fs, d[j]))
  {
    if d == [] then [] else EntriesFor(d[..|d| - 1], fs) + [FactorCount(d[|d| - 1], Occurrences(fs, d[|d| - 1]))]
  }

  /** `Object.entries(psychologicalFactors)` after the counting loop. */
  function FactorEntries(s: seq<ScenarioStat>): seq<FactorCount>
  {
    EntriesFor(Distinct(Factors(s)), Factors(s))
  }

  function TotalCount(e: seq<FactorCount>): nat
  {
    if e == [] then 0 else TotalCount(e[..|e| - 1]) + e[|e| - 1].count
  }

  lemma {:induction false} OccurrencesZero(fs: seq<string>, f: string)
    ensures Occurrences(fs, f) == 0 <==> f !in fs
  {
    if fs != [] {
      OccurrencesZero(fs[..|fs| - 1], f);
      assert fs == fs[..|fs| - 1] + [fs[|fs| - 1]];
    }
  }

  lemma {:induction false} OccurrencesOnce(d: seq<string>, f: string)
    requires NoDuplicates(d) && f in d
    ensures Occurrences(d, f) == 1
  {
    var init := d[..|d| - 1];
    if d[|d| - 1] == f {
      assert f !in init;
      OccurrencesZero(init, f);
    } else {
      assert d == init + [d[|d| - 1]];
      OccurrencesOnce(init, f);
    }
  }

  lemma {:induction false} TotalCountStep(d: seq<string>, fs: seq<string>, x: string)
    ensures TotalCount(EntriesFor(d, fs + [x])) == TotalCount(EntriesFor(d, fs)) + Occurrences(d, x)
  {
    if d != [] {
      TotalCountStep(d[..|d| - 1], fs, x);
      assert (fs + [x])[..|fs + [x]| - 1] == fs;
    }
  }

  /** Every scenario adds exactly one to exactly one factor (the placeholder
      'Nicht angegeben' included), so the counts add up to the scenario count. */
  lemma {:induction false} FactorCountsSum(fs: seq<string>)
    ensures TotalCount(EntriesFor(Distinct(fs), fs)) == |fs|
  {
    if fs != [] {
      var init := fs[..|fs| - 1];
      var x := fs[|fs| - 1];
      assert fs == init + [x];
      var d := Distinct(init);
      FactorCountsSum(init);
      TotalCountStep(d, init, x);
      DistinctNoDuplicates(init);
      if x in d {
        OccurrencesOnce(d, x);
      } else {
        OccurrencesZero(d, x);
        OccurrencesZero(init, x);
        assert EntriesFor(d + [x], fs)[..|d|] == EntriesFor(d, fs);
      }
    }
  }

  /** The factor table: every distinct factor, counted, at least once each. */
  lemma FactorEntriesCounts(s: seq<ScenarioStat>)
    ensures TotalCount(FactorEntries(s)) == |s|
    ensures forall j :: 0 <= j < |FactorEntries(s)| ==> FactorEntries(s)[j].count >= 1
    ensures forall i :: 0 <= i < |s| ==>
      exists j :: 0 <= j < |FactorEntries(s)| && FactorEntries(s)[j].factor == s[i].psychologicalFactor
  {
    var fs := Factors(s);
    FactorCountsSum(fs);
    var d := Distinct(fs);
    forall j | 0 <= j < |d| ensures Occurrences(fs, d[j]) >= 1 {
      OccurrencesZero(fs, d[j]);
    }
    forall i | 0 <= i < |s|
      ensures exists j :: 0 <= j < |FactorEntries(s)| && FactorEntries(s)[j].factor == s[i].psychologicalFactor
    {
      assert fs[i] in d;
      var j :| 0 <= j < |d| && d[j] == fs[i];
      assert FactorEntries(s)[j].factor == fs[i];
    }
  }

  /** `Object.entries` of the dictionary the counting loop builds. */
  function Entries(order: seq<string>, counts: map<string, nat>): seq<FactorCount>
    requires forall j :: 0 <= j < |order| ==> order[j] in counts
  {
    if order == [] then []
    else Entries(order[..|order| - 1], counts) + [FactorCount(order[|order| - 1], counts[order[|order| - 1]])]
  }

  lemma {:induction false} EntriesAgree(order: seq<string>, counts: map<string, nat>, fs: seq<string>)
    requires forall j :: 0 <= j < |order| ==> order[j] in counts && counts[order[j]] == Occurrences(fs, order[j])
    ensures Entries(order, counts) == EntriesFor(order, fs)
  {
    if order != [] {
      EntriesAgree(order[..|order| - 1], counts, fs);
    }
  }

  /** The counting state after the factors `done`: the keys of the dictionary
      in insertion order, each mapped to its number of occurrences. */
  ghost predicate Tallied(done: seq<string>, order: seq<string>, counts: map<string, nat>)
  {
    && order == Distinct(done)
    && (forall f :: f in counts <==> f in order)
    && (forall f :: f in counts ==> counts[f] == Occurrences(done, f))
  }

  /** One pass of the counting loop keeps the key order and the counters in
      step with the factors seen so far. */
  lemma CountStep(done: seq<string>, factor: string, order: seq<string>, counts: map<string, nat>)
    requires Tallied(done, order, counts)
    ensures Tallied(done + [factor], if factor in counts then order else order + [factor],
                    counts[factor := (if factor in counts then counts[factor] else 0) + 1])
  {
    var next := done + [factor];
    assert next[..|next| - 1] == done;
    OccurrencesZero(done, factor);
  }

  /** Reading the finished dictionary in key order gives the factor table. */
  lemma TalliedEntries(fs: seq<string>, order: seq<string>, counts: map<string, nat>)
    requires Tallied(fs, order, counts)
    ensures forall j :: 0 <= j < |order| ==> order[j] in counts
    ensures Entries(order, counts) == EntriesFor(Distinct(fs), fs)
  {
    EntriesAgree(order, counts, fs);
  }

  /** The `forEach` over the ranked scenarios that fills the factor dictionary:
      `factors[f] = (factors[f] || 0) + 1` for each scenario's factor f. */
  method TallyFactors(fs: seq<string>) returns (order: seq<string>, counts: map<string, nat>)
    ensures Tallied(fs, order, counts)
  {
    order := [];
    counts := map[];
    for i := 0 to |fs|
      invariant Tallied(fs[..i], order, counts)
    {
      var factor := fs[i];
      CountStep(fs[..i], factor, order, counts);
      assert fs[..i + 1] == fs[..i] + [factor];
      var previous := if factor in counts then counts[factor] else 0;
      if factor !in counts {
        order := order + [factor];
      }
      counts := counts[factor := previous + 1];
    }
    assert fs[..|fs|] == fs;
  }

  /** The factor table of the ranked scenarios: `Object.entries(factors)`. */
  method CountFactors(stats: seq<ScenarioStat>) returns (entries: seq<FactorCount>)
    ensures entries == FactorEntries(stats)
  {
    var order, counts := TallyFactors(Factors(stats));
    TalliedEntries(Factors(stats), order, counts);
    entries := Entries(order, counts);
  }

  /** The sort key of `.sort((a, b) => b[1] - a[1])` on the entries. */
  function CountKey(e: FactorCount): int
  {
    e.count
  }

  /** `s.slice(0, n)`. */
  function Take<T>(s: seq<T>, n: nat): (r: seq<T>)
    ensures |r| == if |s| <= n then |s| else n
    ensures r == s[..|r|]
  {
    if |s| <= n then s else s[..n]
  }

  /** The first n of a ranking: min(n, |s|) entries, the leading ones of the
      ranking, each ranked at least as high as every entry left out, still
      ranked, and drawn from the input. */
  lemma TopOfRanking<T>(s: seq<T>, key: T -> int, n: nat)
    ensures var sorted := Sorting.InsertionSort(s, key); var top := Take(sorted, n);
      && |top| == (if |s| < n then |s| else n)
      && top == sorted[..|top|]
      && (forall i, j :: 0 <= i < |top| <= j < |sorted| ==> key(top[i]) >= key(sorted[j]))
      && Sorting.SortedDesc(top, key)
      && multiset(top) <= multiset(s)
  {
    var sorted := Sorting.InsertionSort(s, key);
    Sorting.InsertionSortSorted(s, key);
    Sorting.InsertionSortPermutes(s, key);
    var top := Take(sorted, n);
    assert sorted == top + sorted[|top|..];
    assert multiset(sorted) == multiset(top) + multiset(sorted[|top|..]);
    forall i, j | 0 <= i < |top| <= j < |sorted|
      ensures key(top[i]) >= key(sorted[j])
    {
      assert top[i] == sorted[i];
    }
  }

  // ---------------------------------------------------------------------------
  // The analysis

  datatype Overview = Overview(
    totalUsers: nat,
    totalScenarios: nat,
    clickRate: nat,             // tenths of a percent
    successRate: nat,           // tenths of a percent
    riskLevel: RiskLevel,
    totalClicks: nat,
    totalLogins: nat,
    totalFileOpens: nat,
    totalMacroExecutions: nat,
    totalReported: nat)

  datatype ReportedVsSuccessful = ReportedVsSuccessful(reported: nat, successful: nat, ratio: nat)

  datatype Analysis = Analysis(
    overview: Overview,
    scenarioStats: seq<ScenarioStat>,
    topScenarios: seq<ScenarioStat>,
    topFactors: seq<FactorCount>,
    reportedVsSuccessful: ReportedVsSuccessful)

  /** The overview record, from the counts and the totals. */
  function OverviewOf(totalUsers: nat, totalScenarios: nat, t: Totals): Overview
  {
    Overview(
      totalUsers, totalScenarios,
      RoundRatio(t.clicks, totalUsers, 1000),
      RoundRatio(t.successful, totalScenarios, 1000),
      RiskLevelOf(Percent(t.successful, totalScenarios)),
      t.clicks, t.logins, t.fileOpens, t.macroExecutions, t.reported)
  }

  /** `successful > 0 ? Math.round(reported / successful * 100) : 0`. */
  function RatioOf(t: Totals): ReportedVsSuccessful
  {
    ReportedVsSuccessful(t.reported, t.successful, RoundRatio(t.reported, t.successful, 100))
  }

  /** The reference definition of the whole aggregation: what the result is,
      given only the scenario rows and the number of user rows. */
  function AnalysisOf(rows: seq<Row>, userCount: nat): (a: Analysis)
    requires forall i :: 0 <= i < |rows| ==> WellFormedScenario(rows[i])
    ensures |a.scenarioStats| == |rows|
    ensures |a.topScenarios| <= 3 && |a.topFactors| <= 3
  {
    var mapped := MappedScenarios(rows, userCount);
    var totals := TotalsOf(mapped);
    var ranked := Sorting.InsertionSort(mapped, RateKey);
    Analysis(
      OverviewOf(userCount, |rows|, totals),
      ranked,
      Take(ranked, 3),
      Take(Sorting.InsertionSort(FactorEntries(ranked), CountKey), 3),
      RatioOf(totals))
  }

  /** `analyzePhishingData({scenarios, users, company})`: the running-total map,
      the in-place sort of the scenario array, the factor dictionary and the
      closing expressions. */
  method AnalyzePhishingData(scenarios: seq<Row>, users: seq<Row>, company: seq<Row>) returns (r: Analysis)
    requires forall i :: 0 <= i < |scenarios| ==> WellFormedScenario(scenarios[i])
    ensures r == AnalysisOf(scenarios, |users|)
  {
    var totalUsers := |users|;
    var totalScenarios := |scenarios|;
    var mapped, totals := MapScenarios(scenarios, totalUsers);
    var a := new ScenarioStat[|mapped|](i requires 0 <= i < |mapped| => mapped[i]);
    assert a[..] == mapped;
    Sorting.StableSortInPlace(a, RateKey);
    var scenarioStats := a[..];
    var entries := CountFactors(scenarioStats);
    var topFactors := Take(Sorting.InsertionSort(entries, CountKey), 3);
    r := Analysis(
      OverviewOf(totalUsers, totalScenarios, totals),
      scenarioStats,
      Take(scenarioStats, 3),
      topFactors,
      RatioOf(totals));
  }

  // ---------------------------------------------------------------------------
  // Properties of the analysis

  /** The overview counts are the input lengths and the totals are the sums
      of the per-scenario counters. */
  lemma OverviewCounts(rows: seq<Row>, userCount: nat)
    requires forall i :: 0 <= i < |rows| ==> WellFormedScenario(rows[i])
    ensures var a := AnalysisOf(rows, userCount); var m := MappedScenarios(rows, userCount);
      && a.overview.totalUsers == userCount
      && a.overview.totalScenarios == |rows|
      && a.overview.totalClicks == SumBy(m, (x: ScenarioStat) => x.clicks)
      && a.overview.totalLogins == SumBy(m, (x: ScenarioStat) => x.logins)
      && a.overview.totalFileOpens == SumBy(m, (x: ScenarioStat) => x.fileOpens)
      && a.overview.totalMacroExecutions == SumBy(m, (x: ScenarioStat) => x.macroExecutions)
      && a.overview.totalReported == SumBy(m, (x: ScenarioStat) => x.reported)
      && a.reportedVsSuccessful.successful == SumBy(m, Successful)
      && a.reportedVsSuccessful.successful <= |rows|
  {
    SuccessfulAtMostScenarios(MappedScenarios(rows, userCount));
  }

  /** Scenario i of the mapped list reads its counters from row i through the
      alias chains, and its success rate is its hit count per user in tenths of
      a percent, rounded half up, or 0 without users. */
  lemma ScenarioRates(rows: seq<Row>, userCount: nat, i: nat)
    requires forall k :: 0 <= k < |rows| ==> WellFormedScenario(rows[k])
    requires i < |rows|
    ensures var s := MappedScenarios(rows, userCount)[i];
      && s.clicks == Counter(rows[i], ClickKeys)
      && s.logins == Counter(rows[i], LoginKeys)
      && s.fileOpens == Counter(rows[i], FileOpenKeys)
      && s.macroExecutions == Counter(rows[i], MacroKeys)
      && s.reported == Counter(rows[i], ReportedKeys)
      && (userCount == 0 ==> s.successRate == 0)
      && (userCount > 0 ==>
            (2 * s.successRate - 1) * userCount <= 2000 * Hits(s) < (2 * s.successRate + 1) * userCount)
  {
    MappedAt(rows, userCount, i);
    MapScenarioRate(rows[i], userCount);
  }

  /** ScenarioRates for one row and its mapped scenario. */
  lemma MapScenarioRate(row: Row, userCount: nat)
    requires WellFormedScenario(row)
    ensures var s := MapScenario(row, userCount);
      && s.clicks == Counter(row, ClickKeys)
      && s.logins == Counter(row, LoginKeys)
      && s.fileOpens == Counter(row, FileOpenKeys)
      && s.macroExecutions == Counter(row, MacroKeys)
      && s.reported == Counter(row, ReportedKeys)
      && (userCount == 0 ==> s.successRate == 0)
      && (userCount > 0 ==>
            (2 * s.successRate - 1) * userCount <= 2000 * Hits(s) < (2 * s.successRate + 1) * userCount)
  {
    var s := MapScenario(row, userCount);
    RoundedBand(Hits(s), userCount, 1000, s.successRate);
  }

  /** The rounding band of RoundRatio, for a value known to be it. */
  lemma RoundedBand(num: nat, den: nat, scale: nat, t: nat)
    requires t == RoundRatio(num, den, scale)
    ensures den == 0 ==> t == 0
    ensures den > 0 ==> (2 * t - 1) * den <= 2 * scale * num < (2 * t + 1) * den
  {
  }

  /** The overview rates, for `totalUsers` users, `totalScenarios` scenarios
      and the totals t: each is the nearest whole number of tenths of a
      percent to its ratio, halves rounded up, and 0 when its denominator is 0. */
  lemma OverviewRounding(totalUsers: nat, totalScenarios: nat, t: Totals)
    ensures var o := OverviewOf(totalUsers, totalScenarios, t);
      && o.totalClicks == t.clicks
      && (totalUsers == 0 ==> o.clickRate == 0)
      && (totalUsers > 0 ==>
            (2 * o.clickRate - 1) * totalUsers <= 2000 * t.clicks < (2 * o.clickRate + 1) * totalUsers)
      && (totalScenarios == 0 ==> o.successRate == 0)
      && (totalScenarios > 0 ==>
            (2 * o.successRate - 1) * totalScenarios <= 2000 * t.successful < (2 * o.successRate + 1) * totalScenarios)
  {
    var o := OverviewOf(totalUsers, totalScenarios, t);
    RoundedBand(t.clicks, totalUsers, 1000, o.clickRate);
    RoundedBand(t.successful, totalScenarios, 1000, o.successRate);
  }

  /** The reported/successful ratio is the nearest whole percentage to
      reported / successful, halves rounded up, and 0 without a successful
      scenario. */
  lemma RatioRounding(t: Totals)
    ensures var rs := RatioOf(t);
      && rs.reported == t.reported && rs.successful == t.successful
      && (t.successful == 0 ==> rs.ratio == 0)
      && (t.successful > 0 ==>
            (2 * rs.ratio - 1) * t.successful <= 200 * t.reported < (2 * rs.ratio + 1) * t.successful)
  {
    RoundedBand(t.reported, t.successful, 100, RatioOf(t).ratio);
  }

  /** The ranking of a scenario list and its first three, as sequences. */
  lemma RankedStats(m: seq<ScenarioStat>)
    ensures var ranked := Sorting.InsertionSort(m, RateKey); var top := Take(ranked, 3);
      && multiset(ranked) == multiset(m)
      && Sorting.SortedDesc(ranked, RateKey)
      && (forall v :: Sorting.WithKey(ranked, RateKey, v) == Sorting.WithKey(m, RateKey, v))
      && |top| == (if |m| < 3 then |m| else 3)
      && top == ranked[..|top|]
      && (forall i, j :: 0 <= i < |top| <= j < |ranked| ==> top[i].successRate >= ranked[j].successRate)
  {
    var ranked := Sorting.InsertionSort(m, RateKey);
    Sorting.InsertionSortPermutes(m, RateKey);
    Sorting.InsertionSortSorted(m, RateKey);
    forall v ensures Sorting.WithKey(ranked, RateKey, v) == Sorting.WithKey(m, RateKey, v) {
      Sorting.InsertionSortStable(m, RateKey, v);
    }
    var top := Take(ranked, 3);
    forall i, j | 0 <= i < |top| <= j < |ranked|
      ensures top[i].successRate >= ranked[j].successRate
    {
      assert top[i] == ranked[i];
      assert RateKey(ranked[i]) >= RateKey(ranked[j]);
    }
  }

  /** How analyzePhishingData assembles its result: the mapped scenarios, then
      the overview and the ratio from their totals, the ranking, and its top three. */
  lemma AnalysisParts(rows: seq<Row>, userCount: nat)
    requires forall i :: 0 <= i < |rows| ==> WellFormedScenario(rows[i])
    ensures var a := AnalysisOf(rows, userCount); var m := MappedScenarios(rows, userCount);
      && |m| == |rows|
      && a.overview == OverviewOf(userCount, |rows|, TotalsOf(m))
      && a.reportedVsSuccessful == RatioOf(TotalsOf(m))
      && a.scenarioStats == Sorting.InsertionSort(m, RateKey)
      && a.topScenarios == Take(a.scenarioStats, 3)
      && a.topFactors == Take(Sorting.InsertionSort(FactorEntries(a.scenarioStats), CountKey), 3)
  {
  }

  /** scenarioStats is the mapped scenario list reordered: a permutation,
      non-increasing in success rate, and scenarios of equal rate keep their
      input order. */
  lemma Ranking(rows: seq<Row>, userCount: nat)
    requires forall i :: 0 <= i < |rows| ==> WellFormedScenario(rows[i])
    ensures var a := AnalysisOf(rows, userCount); var m := MappedScenarios(rows, userCount);
      && multiset(a.scenarioStats) == multiset(m)
      && Sorting.SortedDesc(a.scenarioStats, RateKey)
      && (forall v :: Sorting.WithKey(a.scenarioStats, RateKey, v) == Sorting.WithKey(m, RateKey, v))
  {
    AnalysisParts(rows, userCount);
    RankedStats(MappedScenarios(rows, userCount));
  }

  /** topScenarios is the first min(3, n) entries of scenarioStats, none
      ranked below a scenario left out. */
  lemma TopScenarios(rows: seq<Row>, userCount: nat)
    requires forall i :: 0 <= i < |rows| ==> WellFormedScenario(rows[i])
    ensures var a := AnalysisOf(rows, userCount);
      && |a.topScenarios| == (if |rows| < 3 then |rows| else 3)
      && a.topScenarios == a.scenarioStats[..|a.topScenarios|]
      && (forall i, j :: 0 <= i < |a.topScenarios| <= j < |a.scenarioStats| ==>
            a.topScenarios[i].successRate >= a.scenarioStats[j].successRate)
  {
    AnalysisParts(rows, userCount);
    RankedStats(MappedScenarios(rows, userCount));
  }

  /** The overall success rate lies in [0, 100 %], the rates are 0 when their
      denominator is 0, and the risk class follows the thresholds on the
      unrounded rate. */
  lemma OverviewRates(rows: seq<Row>, userCount: nat)
    requires forall i :: 0 <= i < |rows| ==> WellFormedScenario(rows[i])
    ensures var o := AnalysisOf(rows, userCount).overview; var s := AnalysisOf(rows, userCount).reportedVsSuccessful.successful;
      && o.successRate <= 1000
      && (userCount == 0 ==> o.clickRate == 0)
      && (|rows| == 0 ==> o.successRate == 0 && o.riskLevel == Niedrig)
      && (o.riskLevel == Kritisch <==> 10 * s > 7 * |rows|)
      && (o.riskLevel == Niedrig <==> 10 * s <= 3 * |rows|)
  {
    var m := MappedScenarios(rows, userCount);
    SuccessfulAtMostScenarios(m);
    RateAtMostHundred(TotalsOf(m).successful, |rows|);
    RiskByCounts(TotalsOf(m).successful, |rows|);
  }

  /** The first three entries of a scenario list's factor table sorted by
      count, as a sequence. */
  lemma RankedFactors(stats: seq<ScenarioStat>)
    ensures var table := FactorEntries(stats); var sorted := Sorting.InsertionSort(table, CountKey);
      var top := Take(sorted, 3);
      && |top| == (if |table| < 3 then |table| else 3)
      && top == sorted[..|top|]
      && (forall i, j :: 0 <= i < |top| <= j < |sorted| ==> top[i].count >= sorted[j].count)
      && Sorting.SortedDesc(top, CountKey)
      && multiset(top) <= multiset(table)
      && (|stats| > 0 ==> |top| >= 1)
  {
    var table := FactorEntries(stats);
    TopOfRanking(table, CountKey, 3);
    FactorEntriesCounts(stats);
    if |stats| > 0 {
      assert table != [];
    }
  }

  /** topFactors: the three most frequent factors. They are the leading
      min(3, k) entries of the factor table sorted by count, none counted
      less often than an entry left out, drawn from the table, and there is
      at least one when there is a scenario. */
  lemma TopFactors(rows: seq<Row>, userCount: nat)
    requires forall i :: 0 <= i < |rows| ==> WellFormedScenario(rows[i])
    ensures var a := AnalysisOf(rows, userCount); var table := FactorEntries(a.scenarioStats);
      var sorted := Sorting.InsertionSort(table, CountKey);
      && |a.topFactors| == (if |table| < 3 then |table| else 3)
      && a.topFactors == sorted[..|a.topFactors|]
      && (forall i, j :: 0 <= i < |a.topFactors| <= j < |sorted| ==> a.topFactors[i].count >= sorted[j].count)
      && Sorting.SortedDesc(a.topFactors, CountKey)
      && multiset(a.topFactors) <= multiset(table)
      && (|rows| > 0 ==> |a.topFactors| >= 1)
  {
    AnalysisParts(rows, userCount);
    RankedFactors(AnalysisOf(rows, userCount).scenarioStats);
  }
}
