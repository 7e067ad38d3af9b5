/**
 * The matching and keying steps of the luminosity extraction script: DAS
 * file names matched against the OpenData file list, the luminosity CSV
 * rows keyed by (run, lumisection), the run-to-lumisections map of one
 * file's DAS reply, and the per-file luminosity dict. Luminosity values
 * stay opaque: a row's value is the text of its column 6, and the summing
 * `get_lumi` is a parameter.
 */
module Lumi {
  import opened Wrappers
  import opened Errors
  import opened Text

  const DasPrefix: string := "/store/data/"
  const OpenDataPrefix: string := "root://eospublic.cern.ch//eos/opendata/cms/"

  /** The OpenData name of a DAS file: every `/store/data/` rewritten to the EOS prefix. */
  function OpenDataName(dasFile: string): string {
    Replace(dasFile, DasPrefix, OpenDataPrefix)
  }

  /** A DAS path under `/store/data/` is moved under the EOS prefix and otherwise kept. */
  lemma OpenDataNameOfStorePath(rest: string)
    requires !Contains(rest, DasPrefix)
    ensures OpenDataName(DasPrefix + rest) == OpenDataPrefix + rest
  {
    var s := DasPrefix + rest;
    assert StartsWith(s, DasPrefix);
    assert s[|DasPrefix|..] == rest;
    ReplaceAbsent(rest, DasPrefix, OpenDataPrefix);
  }

  // ---------------------------------------------------------------------
  // get_file_list_dict
  // ---------------------------------------------------------------------

  /** `get_file_list_dict` as a left fold over the DAS files. */
  function FileList(opendataList: seq<string>, dasFiles: seq<string>): map<string, string>
    decreases |dasFiles|
  {
    if dasFiles == [] then map[]
    else
      var d := FileList(opendataList, dasFiles[..|dasFiles| - 1]);
      var das := dasFiles[|dasFiles| - 1];
      if OpenDataName(das) in opendataList then d[OpenDataName(das) := das] else d
  }

  /**
   * `get_file_list_dict`: each DAS file whose OpenData name is in the list is
   * stored under that name; the others are reported and dropped.
   */
  method GetFileListDict(opendataList: seq<string>, dasFiles: seq<string>) returns (fileListDict: map<string, string>)
    ensures fileListDict == FileList(opendataList, dasFiles)
  {
    fileListDict := map[];
    for i := 0 to |dasFiles|
      invariant fileListDict == FileList(opendataList, dasFiles[..i])
    {
      assert dasFiles[..i + 1][..i] == dasFiles[..i];
      var opendataFileName := OpenDataName(dasFiles[i]);
      if opendataFileName in opendataList {
        fileListDict := fileListDict[opendataFileName := dasFiles[i]];
      }
    }
    assert dasFiles[..|dasFiles|] == dasFiles;
  }

  /** DAS file `i` is the last one whose OpenData name is `k`. */
  predicate LastProducer(dasFiles: seq<string>, k: string, i: int) {
    0 <= i < |dasFiles| && OpenDataName(dasFiles[i]) == k
    && forall j :: i < j < |dasFiles| ==> OpenDataName(dasFiles[j]) != k
  }

  /** The keys are exactly the OpenData names of DAS files that are in the OpenData list. */
  lemma {:induction false} FileListKeys(opendataList: seq<string>, dasFiles: seq<string>)
    ensures forall k :: k in FileList(opendataList, dasFiles) <==>
      k in opendataList && exists i :: 0 <= i < |dasFiles| && OpenDataName(dasFiles[i]) == k
    decreases |dasFiles|
  {
    if dasFiles != [] {
      var n := |dasFiles| - 1;
      var prev := dasFiles[..n];
      FileListKeys(opendataList, prev);
      forall k ensures k in FileList(opendataList, dasFiles) <==>
        k in opendataList && exists i :: 0 <= i < |dasFiles| && OpenDataName(dasFiles[i]) == k
      {
        if exists i :: 0 <= i < |dasFiles| && OpenDataName(dasFiles[i]) == k {
          var i :| 0 <= i < |dasFiles| && OpenDataName(dasFiles[i]) == k;
          if i < n {
            assert prev[i] == dasFiles[i];
          }
        }
        if k in FileList(opendataList, prev) {
          var i :| 0 <= i < n && OpenDataName(prev[i]) == k;
          assert dasFiles[i] == prev[i];
        }
      }
    }
  }

  /** Each key maps to the last DAS file that produced it. */
  lemma {:induction false} FileListValues(opendataList: seq<string>, dasFiles: seq<string>)
    ensures forall k :: k in FileList(opendataList, dasFiles) ==>
      exists i :: LastProducer(dasFiles, k, i) && FileList(opendataList, dasFiles)[k] == dasFiles[i]
    decreases |dasFiles|
  {
    if dasFiles != [] {
      var n := |dasFiles| - 1;
      var prev := dasFiles[..n];
      var d := FileList(opendataList, dasFiles);
      FileListValues(opendataList, prev);
      FileListKeys(opendataList, prev);
      forall k | k in d
        ensures exists i :: LastProducer(dasFiles, k, i) && d[k] == dasFiles[i]
      {
        if k == OpenDataName(dasFiles[n]) && k in opendataList {
          assert LastProducer(dasFiles, k, n);
        } else {
          var i :| LastProducer(prev, k, i) && FileList(opendataList, prev)[k] == prev[i];
          assert dasFiles[i] == prev[i];
          assert LastProducer(dasFiles, k, i);
        }
      }
    }
  }

  /** Dropping and overwriting only shrink: at most one entry per DAS file. */
  lemma {:induction false} FileListSize(opendataList: seq<string>, dasFiles: seq<string>)
    ensures |FileList(opendataList, dasFiles)| <= |dasFiles|
    decreases |dasFiles|
  {
    if dasFiles != [] {
      FileListSize(opendataList, dasFiles[..|dasFiles| - 1]);
    }
  }

  // ---------------------------------------------------------------------
  // get_run_lumi_dict
  // ---------------------------------------------------------------------

  /** A data row: run, lumisection and the text of its luminosity column. */
  datatype Entry = Entry(run: int, ls: int, lumi: string)

  /** What one CSV row yields. */
  datatype RowOutcome = Comment | Data(entry: Entry) | Raises(error: Exception)

  /**
   * One row of a luminosity CSV: `row[0]` must exist; a first field starting
   * with `#` is a comment; otherwise run and lumisection are the integers
   * before the first `:` of fields 0 and 1, and field 6 is the luminosity.
   */
  function ParseRow(row: seq<string>): RowOutcome {
    if |row| == 0 then Raises(IndexError)
    else if StartsWith(row[0], "#") then Comment
    else
      var runText := BeforeFirst(row[0], ':');
      match ParseInt(runText)
      case None => Raises(ValueError(runText))
      case Some(run) =>
        if |row| < 2 then Raises(IndexError)
        else
          var lsText := BeforeFirst(row[1], ':');
          match ParseInt(lsText)
          case None => Raises(ValueError(lsText))
          case Some(ls) =>
            if |row| < 7 then Raises(IndexError)
            else Data(Entry(run, ls, row[6]))
  }

  /**
   * A row is a comment exactly when its first field starts with `#`; a data
   * row has a seventh field, kept as its luminosity; a bad row raises only
   * `IndexError` or `ValueError`.
   */
  lemma ParseRowOutcomes(row: seq<string>)
    ensures ParseRow(row).Comment? <==> |row| > 0 && StartsWith(row[0], "#")
    ensures ParseRow(row).Data? ==> |row| >= 7 && ParseRow(row).entry.lumi == row[6]
    ensures ParseRow(row).Raises? ==> ParseRow(row).error == IndexError || ParseRow(row).error.ValueError?
  {
  }

  /**
   * A row written as `str(run):fill, str(ls):..., ...` reads back as the
   * entry (run, ls) with field 6 as its luminosity.
   */
  lemma ParseRowOfKeys(run: nat, ls: nat, fill: string, lsTail: string, rest: seq<string>)
    requires |rest| >= 5
    ensures ParseRow([NatToString(run) + ":" + fill, NatToString(ls) + ":" + lsTail] + rest)
      == Data(Entry(run, ls, rest[4]))
  {
    var runText, lsText := NatToString(run), NatToString(ls);
    var row := [runText + ":" + fill, lsText + ":" + lsTail] + rest;
    BeforeFirstPrefix(runText, ':', fill);
    BeforeFirstPrefix(lsText, ':', lsTail);
    IntToStringRoundTrip(run);
    IntToStringRoundTrip(ls);
    assert row[0][0] == runText[0];
    ParsedRow(row, run, ls);
  }

  /** A row whose two keys parse and that has a seventh field is data. */
  lemma ParsedRow(row: seq<string>, run: int, ls: int)
    requires |row| >= 7 && |row[0]| > 0 && row[0][0] != '#'
    requires ParseInt(BeforeFirst(row[0], ':')) == Some(run) && ParseInt(BeforeFirst(row[1], ':')) == Some(ls)
    ensures ParseRow(row) == Data(Entry(run, ls, row[6]))
  {
  }

  /** One row of the loop applied to the entries read so far. */
  function CsvStep(acc: Result<seq<Entry>, Exception>, row: seq<string>): Result<seq<Entry>, Exception> {
    match acc
    case Err(e) => Err(e)
    case Ok(es) =>
      match ParseRow(row)
      case Comment => Ok(es)
      case Raises(e) => Err(e)
      case Data(x) => Ok(es + [x])
  }

  /** The entries of one CSV file, in row order; the first bad row raises. */
  function CsvEntries(rows: seq<seq<string>>): (r: Result<seq<Entry>, Exception>)
    ensures r.Ok? ==> |r.value| <= |rows|
    decreases |rows|
  {
    if rows == [] then Ok([])
    else CsvStep(CsvEntries(rows[..|rows| - 1]), rows[|rows| - 1])
  }

  /** The first `r + 1` rows are the first `r` and then row `r`. */
  lemma CsvEntriesNext(rows: seq<seq<string>>, r: nat)
    requires r < |rows|
    ensures CsvEntries(rows[..r + 1]) == CsvStep(CsvEntries(rows[..r]), rows[r])
  {
    assert rows[..r + 1][..r] == rows[..r];
  }

  /** Once a row has raised, the later rows change nothing. */
  lemma {:induction false} CsvEntriesStuck(rows: seq<seq<string>>, r: nat)
    requires r <= |rows| && CsvEntries(rows[..r]).Err?
    ensures CsvEntries(rows) == CsvEntries(rows[..r])
    decreases |rows|
  {
    if r < |rows| {
      var n := |rows| - 1;
      assert rows[..n][..r] == rows[..r];
      CsvEntriesStuck(rows[..n], r);
    } else {
      assert rows[..r] == rows;
    }
  }

  /**
   * The body of the row loop, applied to the entries `read` so far: the
   * header report when `lineCount` is 1, a comment row skipped without
   * counting, or a parsed row appended and counted twice. The count is two
   * per entry read, so never 1 here, and the header branch never runs.
   */
  method ReadRow(row: seq<string>, read: seq<Entry>, lineCount: nat) returns (next: seq<Entry>, count: nat, raised: Option<Exception>)
    requires lineCount == 2 * |read|
    ensures raised.Some? ==> CsvStep(Ok(read), row) == Err(raised.value)
    ensures raised.None? ==> CsvStep(Ok(read), row) == Ok(next) && count == 2 * |next|
  {
    next, count, raised := read, lineCount, None;
    if lineCount == 1 {
      assert false;
    } else if |row| == 0 {
      raised := Some(IndexError);
    } else if StartsWith(row[0], "#") {
      // `continue`: the row is neither parsed nor counted
    } else {
      count := count + 1;
      var outcome := ParseRow(row);
      if outcome.Raises? {
        raised := Some(outcome.error);
        return;
      }
      next := read + [outcome.entry];
      count := count + 1;
    }
  }

  /**
   * The row loop of `get_run_lumi_dict` over one file, appending to the
   * entries of the files before it: the entries of `CsvEntries`, or the
   * first row's exception; `line_count` ends at two per data row.
   */
  method ReadCsv(rows: seq<seq<string>>, entries0: seq<Entry>) returns (entries: seq<Entry>, lineCount: nat, raised: Option<Exception>)
    ensures raised.None? ==> |entries0| <= |entries| && entries[..|entries0|] == entries0
    ensures raised.None? ==> CsvEntries(rows) == Ok(entries[|entries0|..]) && lineCount == 2 * (|entries| - |entries0|)
    ensures raised.Some? ==> CsvEntries(rows) == Err(raised.value)
  {
    var read: seq<Entry> := [];
    lineCount := 0;
    var r := 0;
    while r < |rows|
      invariant r <= |rows| && CsvEntries(rows[..r]) == Ok(read) && lineCount == 2 * |read|
    {
      CsvEntriesNext(rows, r);
      var err;
      read, lineCount, err := ReadRow(rows[r], read, lineCount);
      if err.Some? {
        CsvEntriesStuck(rows, r + 1);
        return entries0 + read, lineCount, err;
      }
      r := r + 1;
    }
    assert rows[..r] == rows;
    entries, raised := entries0 + read, None;
    assert entries[..|entries0|] == entries0 && entries[|entries0|..] == read;
  }

  /** The entries of all CSV files, file after file; the first bad row raises. */
  function AllEntries(files: seq<seq<seq<string>>>): Result<seq<Entry>, Exception>
    decreases |files|
  {
    if files == [] then Ok([])
    else match AllEntries(files[..|files| - 1])
      case Err(e) => Err(e)
      case Ok(es) =>
        match CsvEntries(files[|files| - 1])
        case Err(e) => Err(e)
        case Ok(more) => Ok(es + more)
  }

  /** Once a file has raised, the later files change nothing. */
  lemma {:induction false} AllEntriesStuck(files: seq<seq<seq<string>>>, f: nat)
    requires f <= |files| && AllEntries(files[..f]).Err?
    ensures AllEntries(files) == AllEntries(files[..f])
    decreases |files|
  {
    if f < |files| {
      var n := |files| - 1;
      assert files[..n][..f] == files[..f];
      AllEntriesStuck(files[..n], f);
    } else {
      assert files[..f] == files;
    }
  }

  /** `run_lumi_dict`: run to lumisection to luminosity. */
  type RunLumiTable = map<int, map<int, string>>

  /** The assignments `run_lumi_dict[run][ls] = lumi`, in entry order. */
  function Table(entries: seq<Entry>): RunLumiTable
    decreases |entries|
  {
    if entries == [] then map[]
    else
      var t := Table(entries[..|entries| - 1]);
      var e := entries[|entries| - 1];
      var inner := if e.run in t then t[e.run] else map[];
      t[e.run := inner[e.ls := e.lumi]]
  }

  /** `RUN_LUMI_DICT[run][ls]`: `None` for a pair the defaultdicts read as 0. */
  function Lookup(t: RunLumiTable, run: int, ls: int): Option<string> {
    if run in t && ls in t[run] then Some(t[run][ls]) else None
  }

  /** Entry `i` is the last one keyed (`run`, `ls`). */
  predicate LastEntry(entries: seq<Entry>, run: int, ls: int, i: int) {
    0 <= i < |entries| && entries[i].run == run && entries[i].ls == ls
    && forall j :: i < j < |entries| ==> !(entries[j].run == run && entries[j].ls == ls)
  }

  /**
   * A (run, lumisection) pair reads as the luminosity of its last row, and
   * as the default exactly when no row names it.
   */
  lemma {:induction false} TableLookup(entries: seq<Entry>, run: int, ls: int)
    ensures Lookup(Table(entries), run, ls).None? <==>
      forall i :: 0 <= i < |entries| ==> !(entries[i].run == run && entries[i].ls == ls)
    ensures Lookup(Table(entries), run, ls).Some? ==>
      exists i :: LastEntry(entries, run, ls, i) && Lookup(Table(entries), run, ls) == Some(entries[i].lumi)
    decreases |entries|
  {
    if entries != [] {
      var n := |entries| - 1;
      var prev := entries[..n];
      TableLookup(prev, run, ls);
      var e := entries[n];
      if e.run == run && e.ls == ls {
        assert LastEntry(entries, run, ls, n);
      } else {
        assert Lookup(Table(entries), run, ls) == Lookup(Table(prev), run, ls);
        forall i | 0 <= i < n ensures entries[i] == prev[i] {
        }
        if Lookup(Table(prev), run, ls).Some? {
          var i :| LastEntry(prev, run, ls, i) && Lookup(Table(prev), run, ls) == Some(prev[i].lumi);
          assert LastEntry(entries, run, ls, i);
        }
      }
    }
  }

  /** The assignment loop of `get_run_lumi_dict`. */
  method BuildTable(entries: seq<Entry>) returns (runLumiDict: RunLumiTable)
    ensures runLumiDict == Table(entries)
  {
    runLumiDict := map[];
    for k := 0 to |entries|
      invariant runLumiDict == Table(entries[..k])
    {
      assert entries[..k + 1][..k] == entries[..k];
      var e := entries[k];
      if e.run !in runLumiDict {
        runLumiDict := runLumiDict[e.run := map[]];
      }
      runLumiDict := runLumiDict[e.run := runLumiDict[e.run][e.ls := e.lumi]];
    }
    assert entries[..|entries|] == entries;
  }

  /**
   * `get_run_lumi_dict` over the given CSV files (the 2011 and the 2012
   * file, as rows of fields): collect the entries, then key them.
   */
  method GetRunLumiDict(files: seq<seq<seq<string>>>) returns (runLumiDict: RunLumiTable, raised: Option<Exception>)
    ensures raised.None? ==> AllEntries(files).Ok? && runLumiDict == Table(AllEntries(files).value)
    ensures raised.Some? ==> AllEntries(files) == Err(raised.value)
  {
    var myList: seq<Entry> := [];
    for f := 0 to |files|
      invariant AllEntries(files[..f]) == Ok(myList)
    {
      assert files[..f + 1][..f] == files[..f];
      var entries, _, r := ReadCsv(files[f], myList);
      if r.Some? {
        AllEntriesStuck(files, f + 1);
        return map[], r;
      }
      assert entries == myList + entries[|myList|..];
      myList := entries;
    }
    assert files[..|files|] == files;
    runLumiDict := BuildTable(myList);
    raised := None;
  }

  // ---------------------------------------------------------------------
  // get_run_lumisections
  // ---------------------------------------------------------------------

  /** One `lumi` record of a DAS reply item: its run and its lumisections. */
  datatype FileLumis = FileLumis(runNumber: int, lumiSectionNum: seq<int>)

  /** One item of the DAS JSON reply: its `lumi` list. */
  datatype LumiItem = LumiItem(lumi: seq<FileLumis>)

  /** `lumi_dict[item['lumi'][0]['run_number']] = item['lumi'][0]['lumi_section_num']`, item by item. */
  function RunLumisections(items: seq<LumiItem>): (r: Result<map<int, seq<int>>, Exception>)
    ensures r.Err? ==> r.error == IndexError
    ensures r.Ok? ==> |r.value.Keys| <= |items|
    decreases |items|
  {
    if items == [] then Ok(map[])
    else match RunLumisections(items[..|items| - 1])
      case Err(e) => Err(e)
      case Ok(d) =>
        var item := items[|items| - 1];
        if |item.lumi| == 0 then Err(IndexError)
        else Ok(d[item.lumi[0].runNumber := item.lumi[0].lumiSectionNum])
  }

  /** Once an item has raised, the later items change nothing. */
  lemma {:induction false} RunLumisectionsStuck(items: seq<LumiItem>, k: nat)
    requires k <= |items| && RunLumisections(items[..k]).Err?
    ensures RunLumisections(items) == RunLumisections(items[..k])
    decreases |items|
  {
    if k < |items| {
      var n := |items| - 1;
      assert items[..n][..k] == items[..k];
      RunLumisectionsStuck(items[..n], k);
    } else {
      assert items[..k] == items;
    }
  }

  /** The mapping loop of `get_run_lumisections` over the decoded reply. */
  method GetRunLumisections(items: seq<LumiItem>) returns (lumiDict: map<int, seq<int>>, raised: Option<Exception>)
    ensures raised.None? ==> RunLumisections(items) == Ok(lumiDict)
    ensures raised.Some? ==> RunLumisections(items) == Err(raised.value)
  {
    lumiDict := map[];
    for k := 0 to |items|
      invariant RunLumisections(items[..k]) == Ok(lumiDict)
    {
      assert items[..k + 1][..k] == items[..k];
      if |items[k].lumi| == 0 {
        RunLumisectionsStuck(items, k + 1);
        return lumiDict, Some(IndexError);
      }
      lumiDict := lumiDict[items[k].lumi[0].runNumber := items[k].lumi[0].lumiSectionNum];
    }
    assert items[..|items|] == items;
    raised := None;
  }

  /** Item `i` is the last one whose first record names `run`. */
  predicate LastRun(items: seq<LumiItem>, run: int, i: int) {
    0 <= i < |items| && |items[i].lumi| > 0 && items[i].lumi[0].runNumber == run
    && forall j :: i < j < |items| && |items[j].lumi| > 0 ==> items[j].lumi[0].runNumber != run
  }

  /**
   * The reply maps to a dict exactly when every item has a `lumi` record;
   * otherwise the mapping raises `IndexError`.
   */
  lemma {:induction false} RunLumisectionsSpec(items: seq<LumiItem>)
    ensures RunLumisections(items).Ok? <==> forall i :: 0 <= i < |items| ==> |items[i].lumi| > 0
    ensures RunLumisections(items).Err? ==> RunLumisections(items).error == IndexError
    decreases |items|
  {
    if items != [] {
      var n := |items| - 1;
      RunLumisectionsSpec(items[..n]);
      forall i | 0 <= i < n ensures items[i] == items[..n][i] {
      }
    }
  }

  /** After a successful mapping every item's run is a key. */
  lemma {:induction false} RunLumisectionsKeys(items: seq<LumiItem>)
    requires RunLumisections(items).Ok?
    ensures forall i :: 0 <= i < |items| ==> |items[i].lumi| > 0 && items[i].lumi[0].runNumber in RunLumisections(items).value
    decreases |items|
  {
    RunLumisectionsSpec(items);
    if items != [] {
      var n := |items| - 1;
      RunLumisectionsKeys(items[..n]);
      forall i | 0 <= i < n ensures items[i] == items[..n][i] {
      }
    }
  }

  /**
   * After a successful mapping each run holds the lumisections of the last
   * item naming it.
   */
  lemma {:induction false} RunLumisectionsValues(items: seq<LumiItem>)
    requires RunLumisections(items).Ok?
    ensures forall run :: run in RunLumisections(items).value ==>
      exists i :: LastRun(items, run, i) && RunLumisections(items).value[run] == items[i].lumi[0].lumiSectionNum
    decreases |items|
  {
    if items != [] {
      var n := |items| - 1;
      var prev := items[..n];
      assert RunLumisections(prev).Ok?;
      RunLumisectionsValues(prev);
      var d := RunLumisections(items).value;
      var last := items[n].lumi[0];
      assert d == RunLumisections(prev).value[last.runNumber := last.lumiSectionNum];
      forall run | run in d
        ensures exists i :: LastRun(items, run, i) && d[run] == items[i].lumi[0].lumiSectionNum
      {
        if run == last.runNumber {
          assert LastRun(items, run, n);
        } else {
          var i :| LastRun(prev, run, i) && RunLumisections(prev).value[run] == prev[i].lumi[0].lumiSectionNum;
          assert items[i] == prev[i];
          assert LastRun(items, run, i);
        }
      }
    }
  }

  // ---------------------------------------------------------------------
  // get_file_lumi_dict
  // ---------------------------------------------------------------------

  /**
   * `get_file_lumi_dict`: one entry per file of the input, holding what
   * `getLumi` (the summing `get_lumi`) makes of its runs and lumisections.
   */
  method GetFileLumiDict<L>(allRunLumisections: map<string, map<int, seq<int>>>, getLumi: map<int, seq<int>> -> L)
    returns (fileLumiDict: map<string, L>)
    ensures fileLumiDict.Keys == allRunLumisections.Keys
    ensures forall key :: key in allRunLumisections ==> fileLumiDict[key] == getLumi(allRunLumisections[key])
  {
    fileLumiDict := map[];
    var todo := allRunLumisections.Keys;
    while todo != {}
      invariant todo <= allRunLumisections.Keys
      invariant fileLumiDict.Keys == allRunLumisections.Keys - todo
      invariant forall key :: key in fileLumiDict ==> fileLumiDict[key] == getLumi(allRunLumisections[key])
      decreases |todo|
    {
      var key :| key in todo;
      fileLumiDict := fileLumiDict[key := getLumi(allRunLumisections[key])];
      todo := todo - {key};
    }
  }
}
