/** The export archive reader of services/zipProcessor.js: the entries of an
    opened ZIP archive are sorted into three CSV slots by file name, the
    extraction fails unless all three are filled with non-empty text, and each
    slot is then parsed into records. Decompression and CSV tokenising are
    foreign: the archive arrives as its entry list (or the error opening it
    raised) and the parser as a function from text to records. */
module Archive {
  import opened Text

  /** One archive entry: its name, whether it is a directory, its text. */
  datatype Entry = Entry(entryName: string, isDirectory: bool, text: string)

  /** The three properties of the `csvFiles` object the entry loop fills. */
  datatype Slot = Scenarios | Users | Company

  /** The `csvFiles` object: a slot is None until an entry has been assigned to it. */
  datatype CsvFiles = CsvFiles(scenarios: Option<string>, users: Option<string>, company: Option<string>)

  /** The texts of a complete archive, as `validateAndExtractZip` returns them. */
  datatype CsvTexts = CsvTexts(scenarios: string, users: string, company: string)

  /** The record lists `processZipFile` returns. */
  datatype Export = Export(scenarios: seq<Row>, users: seq<Row>, company: seq<Row>)

  /** The message of the missing-files error, character for character as the
      source file spells it: its "ä" is stored UTF-8 encoded twice, so the
      string holds the two characters "Ã¤". */
  const MissingFilesMessage := "ZIP-Datei enthÃ¤lt nicht alle erforderlichen CSV-Dateien (Szenarien, Benutzer, Unternehmen)"
  const FailurePrefix := "ZIP-Verarbeitung fehlgeschlagen: "

  /** The file-name keyword that selects a slot. */
  function Keyword(slot: Slot): string
  {
    match slot
    case Scenarios => "phishing"
    case Users => "user"
    case Company => "company"
  }

  /** The order in which the entry loop tests the slots' keywords. */
  function Priority(slot: Slot): nat
  {
    match slot
    case Scenarios => 0
    case Users => 1
    case Company => 2
  }

  /** The slot an entry is written to, if any: directories are skipped; a file
      whose lower-cased name ends in `.csv` goes to the first slot whose keyword
      (`phishing`, `user`, `company`) its lower-cased name contains. */
  function Classify(e: Entry): Option<Slot>
  {
    if e.isDirectory then None
    else
      var fileName := ToLower(e.entryName);
      if Contains(fileName, "phishing") && EndsWith(fileName, ".csv") then Some(Scenarios)
      else if Contains(fileName, "user") && EndsWith(fileName, ".csv") then Some(Users)
      else if Contains(fileName, "company") && EndsWith(fileName, ".csv") then Some(Company)
      else None
  }

  /** An entry is classified into a slot only when it is a `.csv` file whose
      lower-cased name contains that slot's keyword and none of the keywords
      tested before it; a `.csv` file is left out only when it contains none. */
  lemma ClassifyFirstKeyword(e: Entry)
    ensures var fileName := ToLower(e.entryName); var r := Classify(e);
      && (r.Some? ==>
            && !e.isDirectory && EndsWith(fileName, ".csv")
            && Contains(fileName, Keyword(r.value))
            && forall other :: Priority(other) < Priority(r.value) ==> !Contains(fileName, Keyword(other)))
      && (r.None? && !e.isDirectory && EndsWith(fileName, ".csv") ==>
            forall slot :: !Contains(fileName, Keyword(slot)))
  {
  }

  function Get(f: CsvFiles, slot: Slot): Option<string>
  {
    match slot
    case Scenarios => f.scenarios
    case Users => f.users
    case Company => f.company
  }

  function Set(f: CsvFiles, slot: Slot, text: string): (g: CsvFiles)
    ensures Get(g, slot) == Some(text)
    ensures forall other :: other != slot ==> Get(g, other) == Get(f, other)
  {
    match slot
    case Scenarios => f.(scenarios := Some(text))
    case Users => f.(users := Some(text))
    case Company => f.(company := Some(text))
  }

  /** The `csvFiles` object after the loop has visited `entries`. */
  function Collected(entries: seq<Entry>): CsvFiles
  {
    if entries == [] then CsvFiles(None, None, None)
    else
      var before := Collected(entries[..|entries| - 1]);
      var e := entries[|entries| - 1];
      match Classify(e)
      case None => before
      case Some(slot) => Set(before, slot, e.text)
  }

  /** A slot is filled exactly when some entry is classified into it, and
      then it holds the text of such an entry. */
  lemma {:induction false} CollectedSlots(entries: seq<Entry>, slot: Slot)
    ensures Get(Collected(entries), slot).None? <==>
      forall k :: 0 <= k < |entries| ==> Classify(entries[k]) != Some(slot)
    ensures Get(Collected(entries), slot).Some? ==>
      exists k :: 0 <= k < |entries| && Classify(entries[k]) == Some(slot)
        && entries[k].text == Get(Collected(entries), slot).value
  {
    if entries != [] {
      var n := |entries| - 1;
      var init := entries[..n];
      var e := entries[n];
      CollectedSlots(init, slot);
      assert forall k :: 0 <= k < n ==> init[k] == entries[k];
      if Classify(e) == Some(slot) {
        assert Get(Collected(entries), slot) == Some(e.text);
        assert Classify(entries[n]) == Some(slot) && entries[n].text == e.text;
      } else {
        assert Get(Collected(entries), slot) == Get(Collected(init), slot);
        if Get(Collected(init), slot).Some? {
          var k :| 0 <= k < n && Classify(init[k]) == Some(slot) && init[k].text == Get(Collected(init), slot).value;
          assert Classify(entries[k]) == Some(slot) && entries[k].text == Get(Collected(entries), slot).value;
        }
      }
    }
  }

  /** A slot that no entry is classified into stays empty. */
  lemma {:induction false} CollectedUntouched(entries: seq<Entry>, slot: Slot)
    requires forall k :: 0 <= k < |entries| ==> Classify(entries[k]) != Some(slot)
    ensures Get(Collected(entries), slot) == None
  {
    if entries != [] {
      var init := entries[..|entries| - 1];
      assert forall k :: 0 <= k < |init| ==> init[k] == entries[k];
      CollectedUntouched(init, slot);
    }
  }

  /** Last wins: a slot holds the text of the last entry classified into it. */
  lemma {:induction false} CollectedLastWins(entries: seq<Entry>, slot: Slot, k: nat)
    requires k < |entries| && Classify(entries[k]) == Some(slot)
    requires forall j :: k < j < |entries| ==> Classify(entries[j]) != Some(slot)
    ensures Get(Collected(entries), slot) == Some(entries[k].text)
  {
    var init := entries[..|entries| - 1];
    var e := entries[|entries| - 1];
    if k < |entries| - 1 {
      assert init[k] == entries[k];
      forall j | k < j < |init| ensures Classify(init[j]) != Some(slot) {
        assert init[j] == entries[j];
      }
      CollectedLastWins(init, slot, k);
      var c := Classify(e);
      assert c != Some(slot);
    }
  }

  /** A directory, or a file that matches no slot, can be removed from the
      archive without changing anything. */
  lemma {:induction false} IgnoredEntry(a: seq<Entry>, e: Entry, b: seq<Entry>)
    requires Classify(e) == None
    ensures Collected(a + [e] + b) == Collected(a + b)
  {
    if b == [] {
      assert a + [e] + b == a + [e];
      assert (a + [e])[..|a|] == a;
      assert a + b == a;
    } else {
      var init := b[..|b| - 1];
      IgnoredEntry(a, e, init);
      assert (a + [e] + b)[..|a + [e] + b| - 1] == a + [e] + init;
      assert (a + b)[..|a + b| - 1] == a + init;
    }
  }

  /** The classification looks only at the lower-cased name, so it is the
      same for names that differ only in letter case. */
  lemma ClassifyCaseInsensitive(e: Entry)
    ensures Classify(e) == Classify(e.(entryName := ToLower(e.entryName)))
  {
    ToLowerIdempotent(e.entryName);
  }

  /** A slot counts as filled only when it holds a non-empty text. */
  predicate Filled(o: Option<string>)
  {
    o.Some? && o.value != ""
  }

  predicate Complete(f: CsvFiles)
  {
    Filled(f.scenarios) && Filled(f.users) && Filled(f.company)
  }

  /** `validateAndExtractZip(zipPath)` on the opened archive: the entry loop,
      then the completeness check. Every error, from opening the archive or
      from the check, is rethrown with the failure prefix. */
  method ValidateAndExtractZip(archive: Result<seq<Entry>>) returns (r: Result<CsvTexts>)
    ensures r.Ok? <==> archive.Ok? && Complete(Collected(archive.value))
    ensures r.Err? ==> StartsWith(r.message, FailurePrefix)
    ensures archive.Err? ==> r == Err(FailurePrefix + archive.message)
    ensures archive.Ok? && !Complete(Collected(archive.value)) ==> r == Err(FailurePrefix + MissingFilesMessage)
    ensures archive.Ok? && Complete(Collected(archive.value)) ==>
      var f := Collected(archive.value);
      r == Ok(CsvTexts(f.scenarios.value, f.users.value, f.company.value))
  {
    if archive.Err? {
      return Err(FailurePrefix + archive.message);
    }
    var zipEntries := archive.value;
    var scenarios: Option<string> := None;
    var users: Option<string> := None;
    var company: Option<string> := None;
    for i := 0 to |zipEntries|
      invariant CsvFiles(scenarios, users, company) == Collected(zipEntries[..i])
    {
      var entry := zipEntries[i];
      assert zipEntries[..i + 1][..i] == zipEntries[..i];
      if !entry.isDirectory {
        var fileName := ToLower(entry.entryName);
        if Contains(fileName, "phishing") && EndsWith(fileName, ".csv") {
          scenarios := Some(entry.text);
        } else if Contains(fileName, "user") && EndsWith(fileName, ".csv") {
          users := Some(entry.text);
        } else if Contains(fileName, "company") && EndsWith(fileName, ".csv") {
          company := Some(entry.text);
        }
      }
    }
    assert zipEntries[..|zipEntries|] == zipEntries;
    if !Filled(scenarios) || !Filled(users) || !Filled(company) {
      return Err(FailurePrefix + MissingFilesMessage);
    }
    r := Ok(CsvTexts(scenarios.value, users.value, company.value));
  }

  /** `processZipFile(zipPath)`: extraction, then `parseCSV` of each slot. */
  method ProcessZipFile(archive: Result<seq<Entry>>, parseCsv: string -> seq<Row>) returns (r: Result<Export>)
    ensures r.Ok? <==> archive.Ok? && Complete(Collected(archive.value))
    ensures r.Err? ==> StartsWith(r.message, FailurePrefix)
    ensures archive.Err? ==> r == Err(FailurePrefix + archive.message)
    ensures archive.Ok? && !Complete(Collected(archive.value)) ==> r == Err(FailurePrefix + MissingFilesMessage)
    ensures archive.Ok? && Complete(Collected(archive.value)) ==>
      var f := Collected(archive.value);
      r == Ok(Export(parseCsv(f.scenarios.value), parseCsv(f.users.value), parseCsv(f.company.value)))
  {
    var csvFiles := ValidateAndExtractZip(archive);
    if csvFiles.Err? {
      return Err(csvFiles.message);
    }
    var scenarios := parseCsv(csvFiles.value.scenarios);
    var users := parseCsv(csvFiles.value.users);
    var company := parseCsv(csvFiles.value.company);
    r := Ok(Export(scenarios, users, company));
  }
}
