/** The pure decisions of the PDF report generator in services/pdfGenerator.js:
    the colour of a risk label, where the table helpers place each cell, how
    long texts are shortened, which rows a table shows and how they alternate,
    the wording of the training comparison and the choice of recommendations.
    The drawing library, fonts, the vertical page layout and page breaks are
    not modelled; a table helper returns the drawing it would issue. */
module Render {
  import opened Text

  const PrimaryColor := "#062E3A"
  const AccentColor := "#F39200"
  const Green := "#28A745"
  const Red := "#DC3545"
  const LightGray := "#F8F9FA"
  const White := "#FFFFFF"

  // ---------------------------------------------------------------------------
  // Risk label

  /** `getRiskColor(riskLevel)`. */
  function RiskColor(riskLevel: string): (c: string)
    ensures c == Red || c == AccentColor || c == Green
  {
    if riskLevel == "Hoch" then Red
    else if riskLevel == "Mittel" then AccentColor
    else Green
  }

  /** Only 'Hoch' is red and only 'Mittel' is the accent colour; every other
      label, 'Kritisch' and 'Niedrig' included, is green. */
  lemma RiskColorClasses(riskLevel: string)
    ensures RiskColor(riskLevel) == Red <==> riskLevel == "Hoch"
    ensures RiskColor(riskLevel) == AccentColor <==> riskLevel == "Mittel"
    ensures RiskColor(riskLevel) == Green <==> riskLevel != "Hoch" && riskLevel != "Mittel"
    ensures RiskColor("Kritisch") == Green && RiskColor("Niedrig") == Green
  {
    assert Red != AccentColor && Red != Green && AccentColor != Green by {
      assert Red[1] != AccentColor[1] && Red[1] != Green[1] && AccentColor[1] != Green[1];
    }
  }

  const UrgentRecommendations: seq<string> := [
    "• DRINGEND: Sofortige Durchführung von Security-Awareness-Trainings für alle Mitarbeiter",
    "• Regelmäßige Phishing-Simulationen zur Sensibilisierung (mindestens monatlich)",
    "• Implementierung technischer Schutzmaßnahmen (E-Mail-Filter, Warnhinweise)",
    "• Etablierung eines klaren Meldeprozesses für verdächtige E-Mails",
    "• Level-basierte Schulungen mit Fokus auf besonders anfällige Gruppen"]

  const MediumRecommendations: seq<string> := [
    "• Fortführung regelmäßiger Security-Awareness-Schulungen (quartalsweise)",
    "• Regelmäßige Phishing-Simulationen zur Sensibilisierung",
    "• Verbesserung der Meldekultur durch Incentivierung",
    "• Technische Schutzmaßnahmen evaluieren und implementieren",
    "• Level-basierte Schulungen für besonders anfällige Bereiche"]

  const MaintenanceRecommendations: seq<string> := [
    "• Aufrechterhaltung des aktuellen Schulungsniveaus",
    "• Kontinuierliche Phishing-Simulationen zur Wachsamkeit (halbjährlich)",
    "• Positive Verstärkung des guten Meldeverhaltens",
    "• Meldesysteme weiter stärken und bekannt machen",
    "• Best-Practice-Sharing zwischen den Sicherheitslevels"]

  /** The recommendation list of the closing section, chosen by label. */
  function Recommendations(riskLevel: string): (r: seq<string>)
    ensures r == UrgentRecommendations || r == MediumRecommendations || r == MaintenanceRecommendations
    ensures |r| == 5
  {
    if riskLevel == "Hoch" then UrgentRecommendations
    else if riskLevel == "Mittel" then MediumRecommendations
    else MaintenanceRecommendations
  }

  /** The recommendations follow the colour: red goes with the urgent list,
      the accent colour with the medium list, green with the maintenance list. */
  lemma RecommendationsMatchColor(riskLevel: string)
    ensures RiskColor(riskLevel) == Red <==> Recommendations(riskLevel) == UrgentRecommendations
    ensures RiskColor(riskLevel) == AccentColor <==> Recommendations(riskLevel) == MediumRecommendations
    ensures RiskColor(riskLevel) == Green <==> Recommendations(riskLevel) == MaintenanceRecommendations
  {
    RiskColorClasses(riskLevel);
    var u, m, k := UrgentRecommendations[0], MediumRecommendations[0], MaintenanceRecommendations[0];
    assert u[|u| - 1] == 'r' && m[|m| - 1] == ')' && k[|k| - 1] == 's';
  }

  // ---------------------------------------------------------------------------
  // Table helpers

  /** `columnWidths.reduce((a, b) => a + b, 0)`. */
  function Sum(widths: seq<int>): int
  {
    if widths == [] then 0 else Sum(widths[..|widths| - 1]) + widths[|widths| - 1]
  }

  /** A text placed at (x, y) and wrapped to width. */
  datatype TextCell = TextCell(text: string, x: int, y: int, width: int)

  /** A filled rectangle with its fill colour. */
  datatype Rect = Rect(x: int, y: int, width: int, height: int, fill: string)

  /** What a table helper draws: the background, then one text per column. */
  datatype TableLine = TableLine(background: Rect, cells: seq<TextCell>)

  /** The column loop shared by both helpers: text i starts 5 points right of
      the left edge of column i, which is x plus the widths of the columns
      before it, and is wrapped to its column width less 10. */
  method PlaceCells(texts: seq<string>, x: int, textY: int, columnWidths: seq<int>) returns (cells: seq<TextCell>)
    requires |texts| <= |columnWidths|
    ensures |cells| == |texts|
    ensures forall i :: 0 <= i < |texts| ==>
      cells[i] == TextCell(texts[i], x + Sum(columnWidths[..i]) + 5, textY, columnWidths[i] - 10)
  {
    cells := [];
    var currentX := x;
    for i := 0 to |texts|
      invariant |cells| == i
      invariant currentX == x + Sum(columnWidths[..i])
      invariant forall j :: 0 <= j < i ==>
        cells[j] == TextCell(texts[j], x + Sum(columnWidths[..j]) + 5, textY, columnWidths[j] - 10)
    {
      cells := cells + [TextCell(texts[i], currentX + 5, textY, columnWidths[i] - 10)];
      currentX := currentX + columnWidths[i];
      assert columnWidths[..i + 1][..i] == columnWidths[..i];
    }
  }

  /** `drawTableHeader(doc, headers, x, y, columnWidths)`. */
  method DrawTableHeader(headers: seq<string>, x: int, y: int, columnWidths: seq<int>) returns (line: TableLine)
    requires |headers| <= |columnWidths|
    ensures line.background == Rect(x, y, Sum(columnWidths), 20, PrimaryColor)
    ensures |line.cells| == |headers|
    ensures forall i :: 0 <= i < |headers| ==>
      line.cells[i] == TextCell(headers[i], x + Sum(columnWidths[..i]) + 5, y + 6, columnWidths[i] - 10)
  {
    var cells := PlaceCells(headers, x, y + 6, columnWidths);
    line := TableLine(Rect(x, y, Sum(columnWidths), 20, PrimaryColor), cells);
  }

  /** `drawTableRow(doc, values, x, y, columnWidths, isAlternate)`, with the
      values already turned into text. */
  method DrawTableRow(values: seq<string>, x: int, y: int, columnWidths: seq<int>, isAlternate: bool) returns (line: TableLine)
    requires |values| <= |columnWidths|
    ensures line.background == Rect(x, y, Sum(columnWidths), 18, if isAlternate then LightGray else White)
    ensures |line.cells| == |values|
    ensures forall i :: 0 <= i < |values| ==>
      line.cells[i] == TextCell(values[i], x + Sum(columnWidths[..i]) + 5, y + 5, columnWidths[i] - 10)
  {
    var cells := PlaceCells(values, x, y + 5, columnWidths);
    line := TableLine(Rect(x, y, Sum(columnWidths), 18, if isAlternate then LightGray else White), cells);
  }

  /** With non-negative widths, the columns tile the background from left to
      right: column i spans [x + Sum(w[..i]), x + Sum(w[..i + 1])] inside
      [x, x + Sum(w)]. */
  lemma {:induction false} ColumnsInsideBackground(columnWidths: seq<int>, i: nat)
    requires forall k :: 0 <= k < |columnWidths| ==> columnWidths[k] >= 0
    requires i < |columnWidths|
    ensures 0 <= Sum(columnWidths[..i])
    ensures Sum(columnWidths[..i + 1]) == Sum(columnWidths[..i]) + columnWidths[i]
    ensures Sum(columnWidths[..i + 1]) <= Sum(columnWidths)
  {
    assert columnWidths[..i + 1][..i] == columnWidths[..i];
    SumNonNegative(columnWidths[..i]);
    SumPrefix(columnWidths, i + 1);
  }

  lemma {:induction false} SumNonNegative(w: seq<int>)
    requires forall k :: 0 <= k < |w| ==> w[k] >= 0
    ensures Sum(w) >= 0
  {
    if w != [] {
      SumNonNegative(w[..|w| - 1]);
    }
  }

  lemma {:induction false} SumPrefix(w: seq<int>, n: nat)
    requires forall k :: 0 <= k < |w| ==> w[k] >= 0
    requires n <= |w|
    ensures Sum(w[..n]) <= Sum(w)
  {
    if n < |w| {
      SumPrefix(w[..|w| - 1], n);
      assert w[..|w| - 1][..n] == w[..n];
    } else {
      assert w[..n] == w;
    }
  }

  // ---------------------------------------------------------------------------
  // Truncation

  /** `description.substring(0, 50) + (description.length > 50 ? '...' : '')`. */
  function DescriptionCell(description: string): (r: string)
    ensures |description| <= 50 ==> r == description
    ensures |description| > 50 ==> |r| == 53 && r == description[..50] + "..."
    ensures StartsWith(r, Prefix(description, 50))
  {
    Prefix(description, 50) + (if |description| > 50 then "..." else "")
  }

  /** A scenario row of the top-scenario table. */
  datatype PdfScenario = PdfScenario(scenarioId: string, description: string, attacksSent: nat, successRate: string)

  /** A vulnerable user as the user table reads it. */
  datatype VulnerableUser = VulnerableUser(
    id: string, level: string, sent: nat, successful: nat, clicked: nat,
    trainingsCompleted: nat, vulnerability: string)

  /** A scenario as the detailed scenario table reads it. */
  datatype ScenarioDetail = ScenarioDetail(
    scenarioId: string, exploitType: string, level: string, successRate: string,
    attacksClicked: nat, attacksLogins: nat, attacksFilesOpened: nat, attacksMacrosExecuted: nat)

  /** The texts and shading of a table row. */
  datatype RowText = RowText(values: seq<string>, isAlternate: bool)

  /** The rows of the top-scenario table: shortened description, alternating
      shading from the second row on. */
  function TopScenarioRows(scenarios: seq<PdfScenario>): (rows: seq<RowText>)
    ensures |rows| == |scenarios|
    ensures forall i :: 0 <= i < |rows| ==>
      && rows[i].isAlternate == (i % 2 == 1)
      && |rows[i].values| == 4
      && rows[i].values[1] == DescriptionCell(scenarios[i].description)
      && |rows[i].values[1]| <= 53
  {
    seq(|scenarios|, i requires 0 <= i < |scenarios| =>
      var s := scenarios[i];
      RowText([s.scenarioId, DescriptionCell(s.description), NatToString(s.attacksSent), s.successRate + "%"], i % 2 == 1))
  }

  /** The rows of the vulnerable-user table: the first ten users, the ID cut
      to eight characters. */
  function VulnerableUserRows(users: seq<VulnerableUser>): (rows: seq<RowText>)
    ensures |rows| == if |users| <= 10 then |users| else 10
    ensures forall i :: 0 <= i < |rows| ==>
      && rows[i].isAlternate == (i % 2 == 1)
      && |rows[i].values| == 7
      && rows[i].values[0] == Prefix(users[i].id, 8)
      && |rows[i].values[0]| <= 8
  {
    var shown := if |users| <= 10 then users else users[..10];
    seq(|shown|, i requires 0 <= i < |shown| =>
      var u := shown[i];
      RowText([Prefix(u.id, 8), u.level, NatToString(u.sent), NatToString(u.successful),
               NatToString(u.clicked), NatToString(u.trainingsCompleted), u.vulnerability + "%"], i % 2 == 1))
  }

  /** The rows of the detailed scenario table: ID cut to 8, exploit type to 15. */
  function ScenarioDetailRows(scenarios: seq<ScenarioDetail>): (rows: seq<RowText>)
    ensures |rows| == |scenarios|
    ensures forall i :: 0 <= i < |rows| ==>
      && rows[i].isAlternate == (i % 2 == 1)
      && |rows[i].values| == 8
      && rows[i].values[0] == Prefix(scenarios[i].scenarioId, 8)
      && rows[i].values[1] == Prefix(scenarios[i].exploitType, 15)
      && |rows[i].values[1]| <= 15
  {
    seq(|scenarios|, i requires 0 <= i < |scenarios| =>
      var s := scenarios[i];
      RowText([Prefix(s.scenarioId, 8), Prefix(s.exploitType, 15), s.level, s.successRate + "%",
               NatToString(s.attacksClicked), NatToString(s.attacksLogins),
               NatToString(s.attacksFilesOpened), NatToString(s.attacksMacrosExecuted)], i % 2 == 1))
  }

  // ---------------------------------------------------------------------------
  // Level table

  datatype Level = Level(level: string, employees: nat, attacksSent: nat, attacksSuccessful: nat, clickRate: string)

  /** `level.employees > 0 || level.attacksSent > 0`. */
  predicate LevelVisible(l: Level)
  {
    l.employees > 0 || l.attacksSent > 0
  }

  /** `levelData.some(l => l.employees > 0)`: whether the level table appears. */
  predicate LevelTableShown(levels: seq<Level>)
  {
    exists i :: 0 <= i < |levels| && levels[i].employees > 0
  }

  /** Whenever the level table appears, it has at least one row: a level with
      employees is always visible. */
  lemma LevelTableHasRows(levels: seq<Level>)
    requires LevelTableShown(levels)
    ensures |VisibleIndices(levels)| >= 1
  {
    var i :| 0 <= i < |levels| && levels[i].employees > 0;
    assert LevelVisible(levels[i]);
    assert i in VisibleIndices(levels);
  }

  /** A drawn level row: the index of its level in levelData, its vertical
      position and its texts. */
  datatype LevelRow = LevelRow(index: nat, y: int, text: RowText)

  function LevelRowText(l: Level, index: nat): RowText
  {
    RowText(["Level " + l.level, NatToString(l.attacksSent), NatToString(l.attacksSuccessful), l.clickRate + "%"],
            index % 2 == 1)
  }

  /** The positions of the visible levels, in order. */
  function VisibleIndices(levels: seq<Level>): (r: seq<nat>)
    ensures forall k :: 0 <= k < |r| ==> r[k] < |levels| && LevelVisible(levels[r[k]])
    ensures forall k, m :: 0 <= k < m < |r| ==> r[k] < r[m]
    ensures forall i :: 0 <= i < |levels| && LevelVisible(levels[i]) ==> i in r
  {
    if levels == [] then []
    else
      var n := |levels| - 1;
      var init := VisibleIndices(levels[..n]);
      assert forall i :: 0 <= i < n ==> levels[..n][i] == levels[i];
      if LevelVisible(levels[n]) then init + [n] else init
  }

  /** The level-table loop: only visible levels get a row; a row is shaded by
      the parity of its level's index in levelData (not of its row number),
      and rows are stacked 18 points apart below the 20-point header. */
  method LevelRows(levels: seq<Level>, tableY: int) returns (rows: seq<LevelRow>)
    ensures |rows| == |VisibleIndices(levels)|
    ensures forall k :: 0 <= k < |rows| ==>
      var i := VisibleIndices(levels)[k];
      rows[k] == LevelRow(i, tableY + 20 + 18 * k, LevelRowText(levels[i], i))
  {
    rows := [];
    var currentY := tableY + 20;
    for index := 0 to |levels|
      invariant rows == LevelRowsOf(levels[..index], tableY)
      invariant currentY == tableY + 20 + 18 * |rows|
    {
      var level := levels[index];
      assert levels[..index + 1][..index] == levels[..index];
      if level.employees > 0 || level.attacksSent > 0 {
        rows := rows + [LevelRow(index, currentY, LevelRowText(level, index))];
        currentY := currentY + 18;
      }
    }
    assert levels[..|levels|] == levels;
    LevelRowsOfMeaning(levels, tableY);
  }

  /** The rows the level loop draws for `levels`. */
  function LevelRowsOf(levels: seq<Level>, tableY: int): seq<LevelRow>
  {
    if levels == [] then []
    else
      var n := |levels| - 1;
      var init := LevelRowsOf(levels[..n], tableY);
      if LevelVisible(levels[n]) then init + [LevelRow(n, tableY + 20 + 18 * |init|, LevelRowText(levels[n], n))]
      else init
  }

  lemma {:induction false} LevelRowsOfMeaning(levels: seq<Level>, tableY: int)
    ensures |LevelRowsOf(levels, tableY)| == |VisibleIndices(levels)|
    ensures forall k :: 0 <= k < |LevelRowsOf(levels, tableY)| ==>
      var i := VisibleIndices(levels)[k];
      LevelRowsOf(levels, tableY)[k] == LevelRow(i, tableY + 20 + 18 * k, LevelRowText(levels[i], i))
  {
    if levels != [] {
      var n := |levels| - 1;
      LevelRowsOfMeaning(levels[..n], tableY);
      assert forall i :: 0 <= i < n ==> levels[..n][i] == levels[i];
    }
  }

  // ---------------------------------------------------------------------------
  // Training comparison

  /** `x.toFixed(1)` for a non-negative value given in tenths. */
  function FormatTenths(t: nat): (s: string)
    ensures |s| >= 3 && s[|s| - 2] == '.'
    ensures AllDigits(s[..|s| - 2]) && IsDigit(s[|s| - 1])
    ensures ParseDigits(s[..|s| - 2]) * 10 + DigitValue(s[|s| - 1]) == t
  {
    var whole := NatToString(t / 10);
    ParseNatToString(t / 10);
    var s := whole + "." + [DigitChar(t % 10)];
    assert s[..|s| - 2] == whole;
    s
  }

  function Abs(d: int): nat
  {
    if d < 0 then -d else d
  }

  /** The comparison word: 'niedrigere' exactly when the rate without
      training exceeds the rate with training, 'höhere' otherwise (equal rates
      included). */
  function TrainingWord(withTrainingRate: int, withoutTrainingRate: int): string
  {
    if withoutTrainingRate - withTrainingRate > 0 then "niedrigere" else "höhere"
  }

  const TrainingIntro := "Benutzer mit abgeschlossenen Trainings zeigen eine um "
  const TrainingOutro := " Erfolgsquote bei Phishing-Angriffen."

  /** The sentence of the training section, for the two success rates in
      tenths of a percent: the magnitude of their difference with one decimal,
      then the comparison word. */
  function TrainingSentence(withTrainingRate: int, withoutTrainingRate: int): (s: string)
    ensures StartsWith(s, TrainingIntro + FormatTenths(Abs(withoutTrainingRate - withTrainingRate)))
    ensures EndsWith(s, TrainingWord(withTrainingRate, withoutTrainingRate) + TrainingOutro)
  {
    var head := TrainingIntro + FormatTenths(Abs(withoutTrainingRate - withTrainingRate));
    var tail := TrainingWord(withTrainingRate, withoutTrainingRate) + TrainingOutro;
    var s := head + " Prozentpunkte " + tail;
    assert s[..|head|] == head;
    assert s[|s| - |tail|..] == tail;
    s
  }

  /** Exchanging the two rates keeps the printed magnitude and, unless the
      rates are equal, flips the word; equal rates read 'höhere'. */
  lemma TrainingSwap(a: int, b: int)
    ensures FormatTenths(Abs(b - a)) == FormatTenths(Abs(a - b))
    ensures a != b ==> TrainingWord(a, b) != TrainingWord(b, a)
    ensures a == b ==> TrainingWord(a, b) == "höhere"
    ensures a != b ==> TrainingSentence(a, b) != TrainingSentence(b, a)
  {
    assert "niedrigere"[0] != "höhere"[0];
    if a != b {
      assert |TrainingWord(a, b)| != |TrainingWord(b, a)|;
      assert |TrainingSentence(a, b)| != |TrainingSentence(b, a)|;
    }
  }
}
