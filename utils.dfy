/** `Config.read_config` and `Utilities.read_spreadsheet` (utils.py). */
module Utils {
  import opened Wrappers
  import opened Lists
  import opened Text
  import opened OrderedMap
  import opened Spreadsheet

  // ---------------------------------------------------------------------
  // Configuration: `key=value` lines
  // ---------------------------------------------------------------------

  /** `(key, val) = line.rstrip().split("=")` raised ValueError at line
      `index`, whose stripped text split into `pieces` pieces (not two). */
  datatype ConfigError = MalformedLine(index: nat, pieces: nat)

  /** A line binds a key when, trailing whitespace removed, it holds exactly
      one `=`. */
  predicate WellFormedLine(line: string)
  {
    multiset(Rstrip(line))['='] == 1
  }

  /** One line: the two pieces around `=`, or the number of pieces when
      there are not two. */
  function ParseLine(line: string): (r: Result<(string, string), nat>)
    ensures r.Success? <==> WellFormedLine(line)
    ensures r.Failure? ==> r.error == multiset(Rstrip(line))['='] + 1
    ensures r.Success? ==>
      '=' !in r.value.0 && '=' !in r.value.1 && r.value.0 + "=" + r.value.1 == Rstrip(line)
  {
    var pieces := Split(Rstrip(line), '=');
    SplitCount(Rstrip(line), '=');
    if |pieces| == 2 then
      SplitPiecesFree(Rstrip(line), '=', 0);
      SplitPiecesFree(Rstrip(line), '=', 1);
      SplitJoin(Rstrip(line), '=');
      JoinCons(pieces[0], pieces[1..], '=');
      Success((pieces[0], pieces[1]))
    else
      Failure(|pieces|)
  }

  /** The dictionary after reading `lines` in order, or the error of the
      first line that does not split in two. */
  function ParseConfig(lines: seq<string>): (r: Result<map<string, string>, ConfigError>)
    ensures r.Success? <==> forall i :: 0 <= i < |lines| ==> WellFormedLine(lines[i])
    ensures r.Failure? ==> r.error.index < |lines| && !WellFormedLine(lines[r.error.index])
  {
    if lines == [] then Success(map[])
    else
      match ParseConfig(lines[..|lines| - 1])
      case Failure(e) => Failure(e)
      case Success(m) =>
        match ParseLine(lines[|lines| - 1])
        case Failure(n) => Failure(MalformedLine(|lines| - 1, n))
        case Success(kv) => Success(m[kv.0 := kv.1])
  }

  lemma {:induction false} ParseConfigFailureSticks(lines: seq<string>, i: nat)
    requires i <= |lines|
    requires ParseConfig(lines[..i]).Failure?
    ensures ParseConfig(lines) == ParseConfig(lines[..i])
  {
    if i < |lines| {
      var init := lines[..|lines| - 1];
      assert init[..i] == lines[..i];
      ParseConfigFailureSticks(init, i);
      assert lines[..|lines|] == lines;
    } else {
      assert lines[..i] == lines;
    }
  }

  /** `Config.read_config` over the lines of the file: fills the dictionary
      line by line; a later line with a key already seen overwrites it. */
  method ReadConfig(lines: seq<string>) returns (r: Result<map<string, string>, ConfigError>)
    ensures r == ParseConfig(lines)
  {
    var configuration: map<string, string> := map[];
    for i := 0 to |lines|
      invariant ParseConfig(lines[..i]) == Success(configuration)
    {
      assert lines[..i + 1][..i] == lines[..i];
      var pieces := Split(Rstrip(lines[i]), '=');
      if |pieces| != 2 {
        ParseConfigFailureSticks(lines, i + 1);
        return Failure(MalformedLine(i, |pieces|));
      }
      configuration := configuration[pieces[0] := pieces[1]];
    }
    assert lines[..|lines|] == lines;
    return Success(configuration);
  }

  /** Reading fails exactly when some line does not hold exactly one `=`
      after trailing whitespace is removed, and the error names the first
      such line. */
  lemma {:induction false} ParseConfigFailure(lines: seq<string>)
    ensures ParseConfig(lines).Failure? <==> exists i :: 0 <= i < |lines| && !WellFormedLine(lines[i])
    ensures ParseConfig(lines).Failure? ==>
      var e := ParseConfig(lines).error;
      && e.index < |lines|
      && !WellFormedLine(lines[e.index])
      && e.pieces == multiset(Rstrip(lines[e.index]))['='] + 1
      && forall j :: 0 <= j < e.index ==> WellFormedLine(lines[j])
  {
    if lines != [] {
      var init := lines[..|lines| - 1];
      ParseConfigFailure(init);
      SplitCount(Rstrip(lines[|lines| - 1]), '=');
      assert forall j :: 0 <= j < |init| ==> init[j] == lines[j];
    }
  }

  /** A blank line, or one of whitespace only, makes reading fail: it is not
      skipped. */
  lemma BlankLineRejected(lines: seq<string>, i: nat)
    requires i < |lines|
    requires forall c :: c in lines[i] ==> IsSpace(c)
    ensures ParseConfig(lines).Failure?
  {
    assert !WellFormedLine(lines[i]);
    ParseConfigFailure(lines);
  }

  /** Line `line` binds `k` to `v`. */
  predicate Binds(line: string, k: string, v: string)
  {
    ParseLine(line) == Success((k, v))
  }

  /** After a successful read, a key holds the value of the last line that
      names it: a later line overwrites an earlier one. */
  lemma {:induction false} LastLineWins(lines: seq<string>, i: nat, k: string, v: string)
    requires ParseConfig(lines).Success?
    requires i < |lines| && Binds(lines[i], k, v)
    requires forall j, v' :: i < j < |lines| ==> !Binds(lines[j], k, v')
    ensures k in ParseConfig(lines).value && ParseConfig(lines).value[k] == v
  {
    var init := lines[..|lines| - 1];
    if i < |lines| - 1 {
      forall j, v' | i < j < |init| ensures !Binds(init[j], k, v') {
        assert init[j] == lines[j];
      }
      LastLineWins(init, i, k, v);
      var last := ParseLine(lines[|lines| - 1]).value;
      assert !Binds(lines[|lines| - 1], k, last.1);
    }
  }

  /** Every key of a successful read is bound, to its value, by some line. */
  lemma {:induction false} KeysComeFromLines(lines: seq<string>, k: string)
    requires ParseConfig(lines).Success?
    requires k in ParseConfig(lines).value
    ensures exists i :: 0 <= i < |lines| && Binds(lines[i], k, ParseConfig(lines).value[k])
  {
    var init := lines[..|lines| - 1];
    var last := ParseLine(lines[|lines| - 1]).value;
    if last.0 != k {
      KeysComeFromLines(init, k);
      var i :| 0 <= i < |init| && Binds(init[i], k, ParseConfig(init).value[k]);
      assert lines[i] == init[i];
    } else {
      assert Binds(lines[|lines| - 1], k, ParseConfig(lines).value[k]);
    }
  }

  /** A setting that can be written as one `key=value` line and read back:
      neither side holds `=` or a line break, and the value does not end in
      whitespace (which `rstrip` would remove). */
  predicate Storable(kv: (string, string))
  {
    && '=' !in kv.0 && '=' !in kv.1
    && '\n' !in kv.0 && '\n' !in kv.1
    && '\r' !in kv.0 && '\r' !in kv.1
    && (kv.1 == [] || !IsSpace(kv.1[|kv.1| - 1]))
  }

  /** The file text that writes each setting on its own line. */
  function RenderConfig(settings: seq<(string, string)>): (lines: seq<string>)
    ensures |lines| == |settings|
  {
    seq(|settings|, i requires 0 <= i < |settings| => settings[i].0 + "=" + settings[i].1 + "\n")
  }

  /** A storable setting written as a line reads back as itself. */
  lemma StorableLine(k: string, v: string)
    requires Storable((k, v))
    ensures ParseLine(k + "=" + v + "\n") == Success((k, v))
  {
    RstripTrailing(k + "=" + v, "\n");
    SplitOnce(k, v, '=');
  }

  /** Round trip: settings with distinct keys, each storable, written one per
      line, read back to a dictionary binding exactly those keys to exactly
      those values. */
  lemma {:induction false} ConfigRoundTrip(settings: seq<(string, string)>)
    requires forall i :: 0 <= i < |settings| ==> Storable(settings[i])
    requires NoDup(Keys(settings))
    ensures ParseConfig(RenderConfig(settings)).Success?
    ensures forall k :: k in ParseConfig(RenderConfig(settings)).value <==> k in Keys(settings)
    ensures forall i :: 0 <= i < |settings| ==> ParseConfig(RenderConfig(settings)).value[settings[i].0] == settings[i].1
  {
    if settings != [] {
      var n := |settings| - 1;
      var init := settings[..n];
      var k, v := settings[n].0, settings[n].1;
      assert Keys(init) == Keys(settings)[..n];
      assert Keys(settings) == Keys(init) + [k];
      assert forall i :: 0 <= i < |init| ==> init[i] == settings[i];
      ConfigRoundTrip(init);
      RenderConfigSnoc(settings);
      var m := ParseConfig(RenderConfig(init)).value;
      BindSnocKeys(settings, m);
      assert forall i :: 0 <= i < n ==> settings[i].0 in m by {
        forall i | 0 <= i < n ensures settings[i].0 in m {
          assert Keys(init)[i] == settings[i].0;
        }
      }
      BindSnocValues(settings, m);
    }
  }

  /** Binding the last setting on top of a dictionary that holds exactly the
      earlier keys gives a dictionary that holds exactly all of them. */
  lemma BindSnocKeys<K, V>(settings: seq<(K, V)>, m: map<K, V>)
    requires settings != []
    requires forall k :: k in m <==> k in Keys(settings[..|settings| - 1])
    ensures var last := settings[|settings| - 1];
      forall k :: k in m[last.0 := last.1] <==> k in Keys(settings)
  {
    var n := |settings| - 1;
    assert Keys(settings) == Keys(settings[..n]) + [settings[n].0];
  }

  /** Binding the last setting, whose key is new, keeps every earlier
      binding and adds its own. */
  lemma BindSnocValues<K, V>(settings: seq<(K, V)>, m: map<K, V>)
    requires settings != [] && NoDup(Keys(settings))
    requires forall i :: 0 <= i < |settings| - 1 ==> settings[i].0 in m && m[settings[i].0] == settings[i].1
    ensures var last := settings[|settings| - 1];
      forall i :: 0 <= i < |settings| ==> m[last.0 := last.1][settings[i].0] == settings[i].1
  {
    var n := |settings| - 1;
    forall i | 0 <= i < n ensures settings[i].0 != settings[n].0 {
      assert Keys(settings)[i] != Keys(settings)[n];
    }
  }

  /** Writing one more setting adds it to what the earlier lines read as. */
  lemma RenderConfigSnoc(settings: seq<(string, string)>)
    requires settings != [] && Storable(settings[|settings| - 1])
    requires ParseConfig(RenderConfig(settings[..|settings| - 1])).Success?
    ensures ParseConfig(RenderConfig(settings)) ==
      var last := settings[|settings| - 1];
      Success(ParseConfig(RenderConfig(settings[..|settings| - 1])).value[last.0 := last.1])
  {
    var n := |settings| - 1;
    var lines := RenderConfig(settings);
    assert lines[..n] == RenderConfig(settings[..n]);
    StorableLine(settings[n].0, settings[n].1);
    assert lines[n] == settings[n].0 + "=" + settings[n].1 + "\n";
  }

  // ---------------------------------------------------------------------
  // Spreadsheet reading: dispatch on the file name's suffix
  // ---------------------------------------------------------------------

  /** What the suffix selects: a workbook of sheets, or a delimited text
      file with the given separator. */
  datatype Format = WorkbookFile | DelimitedFile(separator: string)

  /** The branch `read_spreadsheet` takes, tested in its order; `None` for
      any other suffix.  Each branch is chosen by its suffixes alone,
      whatever the order of the tests: the suffixes exclude each other. */
  function FormatOf(fileName: string): (r: Option<Format>)
    ensures r == Some(WorkbookFile) <==> EndsWith(fileName, ".xlsx") || EndsWith(fileName, ".xls")
    ensures r == Some(DelimitedFile(",")) <==> EndsWith(fileName, ".csv")
    ensures r == Some(DelimitedFile("\t")) <==> EndsWith(fileName, ".txt") || EndsWith(fileName, ".tsv")
    ensures r.None? <==>
      !EndsWith(fileName, ".xlsx") && !EndsWith(fileName, ".xls") && !EndsWith(fileName, ".csv")
      && !EndsWith(fileName, ".txt") && !EndsWith(fileName, ".tsv")
  {
    LastOfSuffix(fileName, ".csv");
    if EndsWith(fileName, ".xlsx") || EndsWith(fileName, ".xls") then Some(WorkbookFile)
    else if EndsWith(fileName, ".csv") then Some(DelimitedFile(","))
    else if EndsWith(fileName, ".txt") || EndsWith(fileName, ".tsv") then Some(DelimitedFile("\t"))
    else None
  }

  /** Suffixes are matched case-sensitively: a name ending in an upper-case
      letter, as in "hub.XLSX", "hub.CsV" or "hub.TSV", is not recognised. */
  lemma SuffixIsCaseSensitive(fileName: string)
    requires |fileName| > 0 && 'A' <= fileName[|fileName| - 1] <= 'Z'
    ensures FormatOf(fileName).None?
  {
    LastOfSuffix(fileName, ".xlsx");
    LastOfSuffix(fileName, ".xls");
    LastOfSuffix(fileName, ".csv");
    LastOfSuffix(fileName, ".txt");
    LastOfSuffix(fileName, ".tsv");
  }

  lemma LastOfSuffix(s: string, suffix: string)
    requires |suffix| > 0
    ensures EndsWith(s, suffix) ==> s[|s| - 1] == suffix[|suffix| - 1]
  {
    if |suffix| <= |s| {
      assert s[|s| - |suffix|..][|suffix| - 1] == s[|s| - 1];
    }
  }

  /** What `read_spreadsheet` hands back: the sheet-name-keyed dictionary of
      a workbook, or the single table of a delimited file together with the
      separator it was read with. */
  datatype Loaded = Sheets(book: Workbook) | Frame(separator: string, table: Sheet)

  /** The loop that fills `sheet_to_df_map`, one assignment per sheet name,
      with `parse` standing for pandas' parsing of one sheet. */
  method SheetMap(sheetNames: seq<string>, parse: string -> Sheet) returns (book: Workbook)
    ensures DistinctKeys(book)
    ensures Keys(book) == Dedup(sheetNames)
    ensures NoDup(sheetNames) ==> Keys(book) == sheetNames
    ensures forall name :: name in sheetNames ==> Lookup(book, name) == Some(parse(name))
  {
    book := [];
    for i := 0 to |sheetNames|
      invariant DistinctKeys(book)
      invariant Keys(book) == Dedup(sheetNames[..i])
      invariant forall name :: name in sheetNames[..i] ==> Lookup(book, name) == Some(parse(name))
    {
      var name := sheetNames[i];
      assert sheetNames[..i + 1] == sheetNames[..i] + [name];
      DedupSnoc(sheetNames[..i], name);
      DedupElements(sheetNames[..i], name);
      DedupNoDup(sheetNames[..i + 1]);
      forall n | n in sheetNames[..i + 1] && n != name
        ensures Lookup(Put(book, name, parse(name)), n) == Some(parse(n))
      {
        PutOther(book, name, parse(name), n);
      }
      book := Put(book, name, parse(name));
    }
    assert sheetNames[..|sheetNames|] == sheetNames;
    if NoDup(sheetNames) {
      DedupOfNoDup(sheetNames);
    }
  }

  /** `Utilities.read_spreadsheet`: a workbook is read sheet by sheet, a
      `.csv` file with separator "," and a `.txt`/`.tsv` file with a tab;
      any other name yields `None` without an error.  `sheetNames` and
      `parseSheet` stand for the workbook pandas opens, `parseDelimited` for
      pandas reading the file with a given separator. */
  method ReadSpreadsheet(fileName: string, sheetNames: seq<string>, parseSheet: string -> Sheet,
                         parseDelimited: string -> Sheet) returns (r: Option<Loaded>)
    ensures r.None? <==> FormatOf(fileName).None?
    ensures FormatOf(fileName) == Some(WorkbookFile) ==>
      && r.Some? && r.value.Sheets?
      && Keys(r.value.book) == Dedup(sheetNames)
      && forall name :: name in sheetNames ==> Lookup(r.value.book, name) == Some(parseSheet(name))
    ensures FormatOf(fileName) == Some(DelimitedFile(",")) ==> r == Some(Frame(",", parseDelimited(",")))
    ensures FormatOf(fileName) == Some(DelimitedFile("\t")) ==> r == Some(Frame("\t", parseDelimited("\t")))
  {
    if EndsWith(fileName, ".xlsx") || EndsWith(fileName, ".xls") {
      var book := SheetMap(sheetNames, parseSheet);
      return Some(Sheets(book));
    } else if EndsWith(fileName, ".csv") {
      return Some(Frame(",", parseDelimited(",")));
    } else if EndsWith(fileName, ".txt") || EndsWith(fileName, ".tsv") {
      return Some(Frame("\t", parseDelimited("\t")));
    }
    return None;
  }
}
