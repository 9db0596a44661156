/** assigner.py: read the hub's description and abstract and the accounts
    to link from the parsed workbook, build the two statements, and run
    them one connection at a time.  The Oracle server is replaced by a stub
    that records what it executes and accepts only the logins it knows. */
module Assigner {
  import opened Wrappers
  import opened Lists
  import opened Text
  import opened OrderedMap
  import opened Spreadsheet
  import opened Sql

  /** The Python exceptions that end a run early. */
  datatype Error =
    | MissingSheet(sheet: string)               // KeyError on the workbook
    | TooFewColumns(sheet: string, index: nat)  // IndexError on list(sheet.items())[index]
    | MissingRow(row: int)                      // KeyError on a column
    | MissingSetting(key: string)               // KeyError on the configuration
    | FetchallOnNone                            // AttributeError: `None.fetchall()`

  // ---------------------------------------------------------------------
  // Reading the workbook
  // ---------------------------------------------------------------------

  /** `extract_datahub_info`: the cells at row keys 3 and 4 of the second
      column of sheet "General", as (description, abstract). */
  function ExtractDatahubInfo(book: Workbook): (r: Result<(string, string), Error>)
    ensures r == Failure(MissingSheet("General")) <==> "General" !in Keys(book)
    ensures r == Failure(TooFewColumns("General", 1)) <==>
      "General" in Keys(book) && |Lookup(book, "General").value| < 2
  {
    match Lookup(book, "General")
    case None => Failure(MissingSheet("General"))
    case Some(general) =>
      if |general| < 2 then Failure(TooFewColumns("General", 1))
      else
        var column := general[1].1;
        match Lookup(column, 3)
        case None => Failure(MissingRow(3))
        case Some(description) =>
          match Lookup(column, 4)
          case None => Failure(MissingRow(4))
          case Some(abstractText) => Success((description, abstractText))
  }

  /** In a well-formed workbook, the pair returned is exactly the two cells
      that sit at row keys 3 and 4 of the second column of "General". */
  lemma ExtractDatahubInfoCells(book: Workbook, general: Sheet, description: string, abstractText: string)
    requires WellFormed(book)
    requires ("General", general) in book && |general| >= 2
    requires (3, description) in general[1].1 && (4, abstractText) in general[1].1
    ensures ExtractDatahubInfo(book) == Success((description, abstractText))
  {
    LookupEntry(book, "General", general);
    var i :| 0 <= i < |book| && book[i] == ("General", general);
    assert WellFormedSheet(book[i].1);
    LookupEntry(general[1].1, 3, description);
    LookupEntry(general[1].1, 4, abstractText);
  }

  /** Conversely, a successful extraction read cells that are there. */
  lemma ExtractDatahubInfoFound(book: Workbook)
    requires ExtractDatahubInfo(book).Success?
    ensures exists general: Sheet ::
      && ("General", general) in book && |general| >= 2
      && (3, ExtractDatahubInfo(book).value.0) in general[1].1
      && (4, ExtractDatahubInfo(book).value.1) in general[1].1
  {
    LookupFound(book, "General");
    var general := Lookup(book, "General").value;
    LookupFound(general[1].1, 3);
    LookupFound(general[1].1, 4);
  }

  /** `extract_webin_accounts`: the distinct values of the fifth column of
      "Data_Providers".  Python builds `list(set(...))`, whose order is not
      specified; the loop takes the elements in an arbitrary order. */
  method ExtractWebinAccounts(book: Workbook) returns (r: Result<seq<string>, Error>)
    ensures r == Failure(MissingSheet("Data_Providers")) <==> "Data_Providers" !in Keys(book)
    ensures r == Failure(TooFewColumns("Data_Providers", 4)) <==>
      "Data_Providers" in Keys(book) && |Lookup(book, "Data_Providers").value| < 5
    ensures r.Failure? <==>
      "Data_Providers" !in Keys(book) || |Lookup(book, "Data_Providers").value| < 5
    ensures r.Success? ==>
      var column := Lookup(book, "Data_Providers").value[4].1;
      && NoDup(r.value)
      && (forall x :: x in r.value <==> x in Values(column))
      && |r.value| == |set x | x in Values(column)|
  {
    var providers: Option<Sheet> := Lookup(book, "Data_Providers");
    if providers.None? {
      return Failure(MissingSheet("Data_Providers"));
    }
    if |providers.value| < 5 {
      return Failure(TooFewColumns("Data_Providers", 4));
    }
    var column := providers.value[4].1;
    var remaining := set x | x in Values(column);
    ghost var all := remaining;
    var accounts: seq<string> := [];
    while remaining != {}
      invariant remaining <= all
      invariant NoDup(accounts)
      invariant forall x :: x in accounts <==> x in all && x !in remaining
      invariant |accounts| + |remaining| == |all|
      decreases |remaining|
    {
      var x :| x in remaining;
      accounts := accounts + [x];
      remaining := remaining - {x};
    }
    return Success(accounts);
  }

  // ---------------------------------------------------------------------
  // The two statements
  // ---------------------------------------------------------------------

  /** `assign_datahub`: the `add_dcc_account` block, the five values pasted
      between quotes verbatim, status 'ACTIVE' and a null last argument. */
  function AssignStatement(dh: string, pw: string, webin: string, description: string, abstractText: string): (stmt: string)
    ensures stmt == RenderBlock([Call("add_dcc_account", HubArgs(dh, pw, webin, description, abstractText))])
  {
    HubBlockText(dh, pw, webin, description, abstractText);
    "begin\n\tera.PORTAL_DCC_PKG.add_dcc_account('" + dh + "', '" + pw + "', '" + webin + "', '"
      + description + "', '" + abstractText + "', 'ACTIVE', null);\nend;\n"
  }

  /** The rendered `add_dcc_account` block is the format string of the source. */
  lemma HubBlockText(dh: string, pw: string, webin: string, description: string, abstractText: string)
    ensures RenderBlock([Call("add_dcc_account", HubArgs(dh, pw, webin, description, abstractText))])
      == "begin\n\tera.PORTAL_DCC_PKG.add_dcc_account('" + dh + "', '" + pw + "', '" + webin + "', '"
         + description + "', '" + abstractText + "', 'ACTIVE', null);\nend;\n"
  {
    var x0 := "begin\n\tera.PORTAL_DCC_PKG.add_dcc_account('";
    var s, tail := "', '", "', 'ACTIVE', null);\nend;\n";
    HubBlockNested(dh, pw, webin, description, abstractText);
    Flatten(x0, s, tail, dh, pw, webin, description, abstractText);
  }

  /** The arguments of the `add_dcc_account` call. */
  function HubArgs(dh: string, pw: string, webin: string, description: string, abstractText: string): (args: seq<Arg>)
    ensures |args| == 7 && args[5] == Str("ACTIVE") && args[6] == Null
  {
    [Str(dh), Str(pw), Str(webin), Str(description), Str(abstractText), Str("ACTIVE"), Null]
  }

  lemma HubArgsText(dh: string, pw: string, webin: string, description: string, abstractText: string)
    ensures RenderArgs(HubArgs(dh, pw, webin, description, abstractText))
         == "'" + (dh + "', '" + (pw + "', '" + (webin + "', '" + (description + "', '"
              + (abstractText + ("'" + ", " + "'ACTIVE', null"))))))
  {
    var args := HubArgs(dh, pw, webin, description, abstractText);
    assert args[5..] == [Str("ACTIVE"), Null];
    assert RenderArgs(args[5..]) == "'ACTIVE', null" by {
      assert args[5..][1..] == [Null];
    }
    assert args[4..] == [Str(abstractText)] + args[5..];
    StrArgCons(abstractText, args[5..]);
    assert args[3..] == [Str(description)] + args[4..];
    StrArgCons(description, args[4..]);
    assert args[2..] == [Str(webin)] + args[3..];
    StrArgCons(webin, args[3..]);
    assert args[1..] == [Str(pw)] + args[2..];
    StrArgCons(pw, args[2..]);
    assert args == [Str(dh)] + args[1..];
    StrArgCons(dh, args[1..]);
    QuotedList("'", ", ", "', '", "'ACTIVE', null", dh, pw, webin, description, abstractText);
  }

  lemma HubBlockNested(dh: string, pw: string, webin: string, description: string, abstractText: string)
    ensures RenderBlock([Call("add_dcc_account", HubArgs(dh, pw, webin, description, abstractText))])
         == "begin\n\tera.PORTAL_DCC_PKG.add_dcc_account('" + (dh + "', '" + (pw + "', '" + (webin + "', '"
              + (description + "', '" + (abstractText + "', 'ACTIVE', null);\nend;\n")))))
  {
    var args := HubArgs(dh, pw, webin, description, abstractText);
    var q, s, last := "'", "', '", "'ACTIVE', null";
    var m := dh + s + (pw + s + (webin + s + (description + s + (abstractText + (q + ", " + last)))));
    HubArgsText(dh, pw, webin, description, abstractText);
    assert RenderCalls([Call("add_dcc_account", args)]) == "" + RenderCall(Call("add_dcc_account", args));
    WrapBlock("begin\n", CallHead, "add_dcc_account", "(", q, RenderArgs(args), m, ");\n", "end;\n");
    MoveTail(dh, pw, webin, description, abstractText, s, q + ", " + last, ");\n" + "end;\n");
    HubLiterals();
  }

  lemma HubLiterals()
    ensures "begin\n" + CallHead + "add_dcc_account" + "(" + "'" == "begin\n\tera.PORTAL_DCC_PKG.add_dcc_account('"
    ensures ("'" + ", " + "'ACTIVE', null") + (");\n" + "end;\n") == "', 'ACTIVE', null);\nend;\n"
  {
  }

  /** The rendering of a quoted argument followed by more. */
  lemma StrArgCons(a: string, rest: seq<Arg>)
    requires rest != []
    ensures RenderArgs([Str(a)] + rest) == "'" + a + "'" + ", " + RenderArgs(rest)
  {
    assert ([Str(a)] + rest)[1..] == rest;
  }

  // Regrouping steps for the hub statement: each moves a few pieces of a
  // concatenation, so that the rendered block and the format string of the
  // source can be matched piece by piece.

  lemma QuotedItem(q: string, cm: string, s: string, x: string, n: string, w: string)
    requires s == q + cm + q
    requires n == q + w
    ensures q + x + q + cm + n == q + (x + s + w)
  {
  }

  lemma QuotedList(q: string, cm: string, s: string, last: string, a: string, b: string, c: string, d: string, e: string)
    requires s == q + cm + q
    ensures q + a + q + cm + (q + b + q + cm + (q + c + q + cm + (q + d + q + cm + (q + e + q + cm + last))))
         == q + (a + s + (b + s + (c + s + (d + s + (e + (q + cm + last))))))
  {
    var n5 := q + e + q + cm + last;
    assert n5 == q + (e + (q + cm + last));
    QuotedItem(q, cm, s, d, n5, e + (q + cm + last));
    var n4 := q + d + q + cm + n5;
    QuotedItem(q, cm, s, c, n4, d + s + (e + (q + cm + last)));
    var n3 := q + c + q + cm + n4;
    QuotedItem(q, cm, s, b, n3, c + s + (d + s + (e + (q + cm + last))));
    var n2 := q + b + q + cm + n3;
    QuotedItem(q, cm, s, a, n2, b + s + (c + s + (d + s + (e + (q + cm + last)))));
  }

  lemma WrapBlock(begin: string, head: string, proc: string, open: string, q: string, r: string, m: string,
                  close: string, end: string)
    requires r == q + m
    ensures begin + ("" + (head + proc + open + r + close)) + end == (begin + head + proc + open + q) + (m + (close + end))
  {
  }

  lemma MoveTail(a: string, b: string, c: string, d: string, e: string, s: string, t: string, z: string)
    ensures (a + s + (b + s + (c + s + (d + s + (e + t))))) + z == a + s + (b + s + (c + s + (d + s + (e + (t + z)))))
  {
  }

  lemma Flatten(x0: string, s: string, t: string, a: string, b: string, c: string, d: string, e: string)
    ensures x0 + (a + s + (b + s + (c + s + (d + s + (e + t))))) == x0 + a + s + b + s + c + s + d + s + e + t
  {
  }

  /** When no value holds a quote, the statement is exactly one call of
      `add_dcc_account` with the five values, 'ACTIVE' and null. */
  lemma AssignStatementReadsBack(dh: string, pw: string, webin: string, description: string, abstractText: string)
    requires '\'' !in dh && '\'' !in pw && '\'' !in webin && '\'' !in description && '\'' !in abstractText
    ensures ParseBlock(AssignStatement(dh, pw, webin, description, abstractText)) ==
      Some([Call("add_dcc_account", [Str(dh), Str(pw), Str(webin), Str(description), Str(abstractText), Str("ACTIVE"), Null])])
  {
    BlockRoundTrip([Call("add_dcc_account", [Str(dh), Str(pw), Str(webin), Str(description), Str(abstractText), Str("ACTIVE"), Null])]);
  }

  /** Nothing is escaped: a quote in a value can move text from one argument
      to the next, so different inputs give the same statement. */
  lemma AssignStatementNotEscaped()
    ensures AssignStatement("dcc_a', 'x", "pw", "Webin-1", "D", "A")
         == AssignStatement("dcc_a", "x', 'pw", "Webin-1", "D", "A")
  {
    var s := "', '";
    assert "dcc_a', 'x" + s + "pw" == "dcc_a" + s + "x', 'pw";
    SwapFirstTwo("begin\n\tera.PORTAL_DCC_PKG.add_dcc_account('", s, "', 'ACTIVE', null);\nend;\n",
      "dcc_a', 'x", "pw", "dcc_a", "x', 'pw", "Webin-1", "D", "A");
  }

  lemma SwapFirstTwo(x0: string, s: string, t: string, a: string, b: string, a': string, b': string,
                     c: string, d: string, e: string)
    requires a + s + b == a' + s + b'
    ensures x0 + a + s + b + s + c + s + d + s + e + t == x0 + a' + s + b' + s + c + s + d + s + e + t
  {
    assert x0 + a + s + b == x0 + (a + s + b);
    assert x0 + a' + s + b' == x0 + (a' + s + b');
  }

  /** The calls `assign_webin_accounts` makes: one per account, in the
      order given, each naming the hub. */
  function LinkCalls(accounts: seq<string>, dh: string): (cs: seq<Call>)
    ensures |cs| == |accounts|
  {
    seq(|accounts|, i requires 0 <= i < |accounts| => Call("add_dcc_to_submission_account", [Str(accounts[i]), Str(dh)]))
  }

  /** One rendered link call is the line the source's loop appends. */
  lemma LinkLine(account: string, dh: string)
    ensures RenderCall(Call("add_dcc_to_submission_account", [Str(account), Str(dh)]))
         == "\tera.PORTAL_DCC_PKG.add_dcc_to_submission_account('" + account + "', '" + dh + "');\n"
  {
    var args := [Str(account), Str(dh)];
    assert args[1..] == [Str(dh)];
    assert RenderArgs(args[1..]) == "'" + dh + "'";
    var p := CallHead + "add_dcc_to_submission_account" + "(";
    assert p + "'" == "\tera.PORTAL_DCC_PKG.add_dcc_to_submission_account('";
    assert "'" + ");\n" == "');\n";
    RegroupLink(p, account, dh, ");\n");
  }

  lemma RegroupLink(p: string, a: string, b: string, r: string)
    ensures p + ("'" + a + "'" + ", " + ("'" + b + "'")) + r == (p + "'") + a + "', '" + b + ("'" + r)
  {
  }

  /** One more account adds its line at the end of the calls so far. */
  lemma LinkStep(accounts: seq<string>, i: nat, dh: string)
    requires i < |accounts|
    ensures RenderCalls(LinkCalls(accounts[..i + 1], dh))
         == RenderCalls(LinkCalls(accounts[..i], dh))
            + ("\tera.PORTAL_DCC_PKG.add_dcc_to_submission_account('" + accounts[i] + "', '" + dh + "');\n")
  {
    var cs := LinkCalls(accounts[..i + 1], dh);
    assert cs[..i] == LinkCalls(accounts[..i], dh);
    LinkLine(accounts[i], dh);
  }

  /** `assign_webin_accounts`: accumulates one call line per account and
      wraps the lines in `begin`/`end;`. */
  method AssignWebinAccounts(accounts: seq<string>, dh: string) returns (stmt: string)
    ensures stmt == RenderBlock(LinkCalls(accounts, dh))
  {
    var add := "";
    for i := 0 to |accounts|
      invariant add == RenderCalls(LinkCalls(accounts[..i], dh))
    {
      var line := "\tera.PORTAL_DCC_PKG.add_dcc_to_submission_account('" + accounts[i] + "', '" + dh + "');\n";
      LinkStep(accounts, i, dh);
      add := add + line;
    }
    assert accounts[..|accounts|] == accounts;
    stmt := "begin\n" + add + "end;\n";
  }

  /** No accounts: an empty block. */
  lemma EmptyLinkBlock(dh: string)
    ensures RenderBlock(LinkCalls([], dh)) == "begin\nend;\n"
  {
  }

  /** When no account and not the hub name holds a quote, the linking
      statement reads back as one call per account, in input order, each
      linking that account to the hub. */
  lemma LinkBlockReadsBack(accounts: seq<string>, dh: string)
    requires '\'' !in dh
    requires forall i :: 0 <= i < |accounts| ==> '\'' !in accounts[i]
    ensures ParseBlock(RenderBlock(LinkCalls(accounts, dh))).Some?
    ensures var cs := ParseBlock(RenderBlock(LinkCalls(accounts, dh))).value;
      && |cs| == |accounts|
      && forall i :: 0 <= i < |cs| ==> cs[i] == Call("add_dcc_to_submission_account", [Str(accounts[i]), Str(dh)])
  {
    var cs := LinkCalls(accounts, dh);
    forall i | 0 <= i < |cs| ensures Readable(cs[i]) {
      assert cs[i].args == [Str(accounts[i]), Str(dh)];
      assert Quoteless(cs[i].args);
    }
    BlockRoundTrip(cs);
  }

  // ---------------------------------------------------------------------
  // The database, one connection per statement
  // ---------------------------------------------------------------------

  type Row = seq<string>

  /** Stand-in for the Oracle server: where it listens, which logins it
      accepts, the rows any query fetches, and every statement executed on
      it, in order. */
  class Database {
    const host: string
    const port: string
    const service: string
    const logins: set<(string, string)>
    const rows: seq<Row>
    var executed: seq<string>

    constructor (host: string, port: string, service: string, logins: set<(string, string)>, rows: seq<Row>)
      ensures this.host == host && this.port == port && this.service == service
      ensures this.logins == logins && this.rows == rows && executed == []
    {
      this.host, this.port, this.service := host, port, service;
      this.logins, this.rows := logins, rows;
      executed := [];
    }

    /** Whether `cx_Oracle.connect` succeeds for this address and login. */
    predicate Accepts(host: string, port: string, service: string, usr: string, pwd: string)
    {
      host == this.host && port == this.port && service == this.service && (usr, pwd) in logins
    }

    /** `cursor.execute`: the statement is recorded, and a cursor over the
      rows comes back for a query, `None` for anything else. */
    method Execute(statement: string) returns (cursor: Option<seq<Row>>)
      modifies this
      ensures executed == old(executed) + [statement]
      ensures cursor.Some? <==> ReturnsRows(statement)
      ensures cursor.Some? ==> cursor.value == rows
    {
      executed := executed + [statement];
      cursor := if ReturnsRows(statement) then Some(rows) else None;
    }
  }

  /** Whether the server answers a statement with a result set.  A PL/SQL
      block, text opening with "begin", does not. */
  predicate ReturnsRows(statement: string)
  {
    !(|statement| >= 5 && statement[..5] == "begin")
  }

  /** Both statements of a run are blocks, so neither yields rows. */
  lemma BlockReturnsNoRows(cs: seq<Call>)
    ensures !ReturnsRows(RenderBlock(cs))
  {
    assert RenderBlock(cs)[..5] == "begin";
  }

  class Connection {
    const db: Database
    var open: bool

    constructor (db: Database)
      ensures this.db == db && open
    {
      this.db := db;
      open := true;
    }

    method Close()
      modifies this
      ensures !open
    {
      open := false;
    }
  }

  /** What `fetch_metadata` returns when it ran the statement: the fetched
      rows for a query, otherwise the empty string `""`. */
  datatype Fetched = Frame(rows: seq<Row>) | NoFrame

  /** `MetadataFromDatabase`: one statement, one connection. */
  class MetadataFromDatabase {
    const query: string
    const host: string
    const port: string
    const service: string
    var usr: string
    var pwd: string
    var connection: Connection?

    constructor (query: string, host: string, port: string, service: string)
      ensures this.query == query && this.host == host && this.port == port && this.service == service
      ensures connection == null
    {
      this.query, this.host, this.port, this.service := query, host, port, service;
      usr, pwd := "", "";
      connection := null;
    }

    /** `get_oracle_usr_pwd`, with the operator's answers as parameters. */
    method GetOracleUsrPwd(usr: string, pwd: string)
      modifies this`usr, this`pwd
      ensures this.usr == usr && this.pwd == pwd
    {
      this.usr, this.pwd := usr, pwd;
    }

    /** `setup_connection`: the connection is `None` when the server refuses. */
    method SetupConnection(db: Database)
      modifies this`connection
      ensures connection != null <==> db.Accepts(host, port, service, usr, pwd)
      ensures connection != null ==> fresh(connection) && connection.db == db && connection.open
    {
      connection := null;
      if db.Accepts(host, port, service, usr, pwd) {
        connection := new Connection(db);
      }
    }

    /** `fetch_metadata`: nothing runs and `None` comes back when the
      connection could not be made; otherwise the statement runs once.  For
      text containing "SELECT" the rows are fetched from what `execute`
      returned, which raises `AttributeError` when that was `None` and
      leaves the connection open; otherwise the result is the rows, or `""`
      for other text, and the connection is closed before returning. */
    method FetchMetadata(db: Database, usr: string, pwd: string) returns (r: Result<Option<Fetched>, Error>)
      modifies this, db
      ensures this.usr == usr && this.pwd == pwd
      ensures r == Success(None) <==> !db.Accepts(host, port, service, usr, pwd)
      ensures r == Success(None) ==> db.executed == old(db.executed) && connection == null
      ensures r.Failure? <==>
        db.Accepts(host, port, service, usr, pwd) && Contains(query, "SELECT") && !ReturnsRows(query)
      ensures r.Failure? ==>
        r.error == FetchallOnNone && db.executed == old(db.executed) + [query]
        && connection != null && connection.open
      ensures r.Success? && r.value.Some? ==>
        && db.executed == old(db.executed) + [query]
        && r.value.value == (if Contains(query, "SELECT") then Frame(db.rows) else NoFrame)
        && connection != null && !connection.open
    {
      GetOracleUsrPwd(usr, pwd);
      SetupConnection(db);
      if connection == null {
        return Success(None);
      }
      var searchQuery := db.Execute(query);
      var df := NoFrame;
      if Contains(query, "SELECT") {
        if searchQuery.None? {
          return Failure(FetchallOnNone);
        }
        df := Frame(searchQuery.value);
      }
      connection.Close();
      return Success(Some(df));
    }
  }

  // ---------------------------------------------------------------------
  // The run
  // ---------------------------------------------------------------------

  /** `configuration[key]`. */
  function Setting(configuration: map<string, string>, key: string): (r: Result<string, Error>)
    ensures r.Success? <==> key in configuration
    ensures r.Success? ==> r.value == configuration[key]
    ensures r.Failure? ==> r.error == MissingSetting(key)
  {
    if key in configuration then Success(configuration[key]) else Failure(MissingSetting(key))
  }

  /** The database address, read HOST, then PORT, then SERVICE. */
  function Address(configuration: map<string, string>): (r: Result<(string, string, string), Error>)
    ensures r.Success? <==> "HOST" in configuration && "PORT" in configuration && "SERVICE" in configuration
    ensures r.Success? ==> r.value == (configuration["HOST"], configuration["PORT"], configuration["SERVICE"])
    ensures r.Failure? ==>
      && r.error.MissingSetting? && r.error.key in ["HOST", "PORT", "SERVICE"]
      && r.error.key !in configuration
      && (r.error.key != "HOST" ==> "HOST" in configuration)
      && (r.error.key == "SERVICE" ==> "PORT" in configuration)
  {
    if "HOST" !in configuration then Failure(MissingSetting("HOST"))
    else if "PORT" !in configuration then Failure(MissingSetting("PORT"))
    else if "SERVICE" !in configuration then Failure(MissingSetting("SERVICE"))
    else Success((configuration["HOST"], configuration["PORT"], configuration["SERVICE"]))
  }

  /** Everything the run computes before it first touches the database:
      the hub statement, or the error that stops it first. */
  function HubStatement(book: Workbook, dh: string, pw: string, configuration: map<string, string>): (r: Result<string, Error>)
    ensures r.Success? <==>
      ExtractDatahubInfo(book).Success? && "WEBIN" in configuration && Address(configuration).Success?
    ensures ExtractDatahubInfo(book).Failure? ==> r == Failure(ExtractDatahubInfo(book).error)
    ensures ExtractDatahubInfo(book).Success? && "WEBIN" !in configuration ==> r == Failure(MissingSetting("WEBIN"))
    ensures ExtractDatahubInfo(book).Success? && "WEBIN" in configuration && Address(configuration).Failure? ==>
      r == Failure(Address(configuration).error)
    ensures r.Success? ==>
      var info := ExtractDatahubInfo(book).value;
      r.value == AssignStatement(dh, pw, configuration["WEBIN"], info.0, info.1)
  {
    match ExtractDatahubInfo(book)
    case Failure(e) => Failure(e)
    case Success(info) =>
      match Setting(configuration, "WEBIN")
      case Failure(e) => Failure(e)
      case Success(webin) =>
        match Address(configuration)
        case Failure(e) => Failure(e)
        case Success(_) => Success(AssignStatement(dh, pw, webin, info.0, info.1))
  }

  /** One `MetadataFromDatabase(...).fetch_metadata()` as `assign_configure`
      makes it: the statement runs exactly when the server accepts the login,
      and it raises exactly when it ran, contains "SELECT" and yields no rows. */
  method RunStatement(statement: string, host: string, port: string, service: string,
                      db: Database, login: (string, string))
    returns (error: Option<Error>)
    modifies db
    ensures db.executed == old(db.executed) +
      (if db.Accepts(host, port, service, login.0, login.1) then [statement] else [])
    ensures error.Some? <==>
      db.Accepts(host, port, service, login.0, login.1) && Contains(statement, "SELECT") && !ReturnsRows(statement)
    ensures error.Some? ==> error.value == FetchallOnNone
  {
    var session := new MetadataFromDatabase(statement, host, port, service);
    var fetched := session.FetchMetadata(db, login.0, login.1);
    error := if fetched.Failure? then Some(fetched.error) else None;
  }

  /** `assign_configure`: the hub statement first, then the linking
      statement, each on a connection of its own, with the operator's two
      logins as parameters.  A refused connection does not stop the run; an
      exception does, and whatever ran before it stays run.  `accounts` are
      the accounts the linking statement names, once it is built; `error`
      is the exception that ended the run, if any.  As both statements are
      blocks, either of them raises exactly when it runs and its text
      contains "SELECT". */
  method AssignConfigure(book: Workbook, dh: string, pw: string, configuration: map<string, string>,
                         db: Database, login1: (string, string), login2: (string, string))
    returns (accounts: seq<string>, error: Option<Error>)
    modifies db
    ensures HubStatement(book, dh, pw, configuration).Failure? ==>
      error == Some(HubStatement(book, dh, pw, configuration).error) && db.executed == old(db.executed)
    ensures HubStatement(book, dh, pw, configuration).Success? ==>
      var address := Address(configuration).value;
      var hub := HubStatement(book, dh, pw, configuration).value;
      var hubRan := db.Accepts(address.0, address.1, address.2, login1.0, login1.1);
      var hubRaised := hubRan && Contains(hub, "SELECT");
      var built := !hubRaised && "Data_Providers" in Keys(book) && |Lookup(book, "Data_Providers").value| >= 5;
      var link := RenderBlock(LinkCalls(accounts, dh));
      var linkRan := built && db.Accepts(address.0, address.1, address.2, login2.0, login2.1);
      && db.executed == old(db.executed) + (if hubRan then [hub] else []) + (if linkRan then [link] else [])
      && (error.None? <==> built && !(linkRan && Contains(link, "SELECT")))
      && (hubRaised || (linkRan && Contains(link, "SELECT")) ==> error == Some(FetchallOnNone))
      && (!hubRaised && "Data_Providers" !in Keys(book) ==> error == Some(MissingSheet("Data_Providers")))
      && (!hubRaised && "Data_Providers" in Keys(book) && !built ==> error == Some(TooFewColumns("Data_Providers", 4)))
      && (!built ==> accounts == [])
      && (built ==>
           var column := Lookup(book, "Data_Providers").value[4].1;
           NoDup(accounts) && forall x :: x in accounts <==> x in Values(column))
  {
    accounts := [];
    var info := ExtractDatahubInfo(book);
    if info.Failure? {
      return [], Some(info.error);
    }
    var webin := Setting(configuration, "WEBIN");
    if webin.Failure? {
      return [], Some(webin.error);
    }
    var assignSql := AssignStatement(dh, pw, webin.value, info.value.0, info.value.1);
    var address := Address(configuration);
    if address.Failure? {
      return [], Some(address.error);
    }
    var (host, port, service) := address.value;
    BlockReturnsNoRows([Call("add_dcc_account", HubArgs(dh, pw, webin.value, info.value.0, info.value.1))]);
    error := RunStatement(assignSql, host, port, service, db, login1);
    if error.Some? {
      return [], error;
    }

    var extracted := ExtractWebinAccounts(book);
    if extracted.Failure? {
      return [], Some(extracted.error);
    }
    accounts := extracted.value;
    var webinSql := AssignWebinAccounts(accounts, dh);
    BlockReturnsNoRows(LinkCalls(accounts, dh));
    error := RunStatement(webinSql, host, port, service, db, login2);
  }

  /** A hub name containing "SELECT" makes the hub statement contain it, so
      `fetch_metadata` calls `fetchall` on `None` and the run stops once the
      hub statement has run. */
  lemma SelectInHubNameRaises(dh: string, pw: string, webin: string, description: string, abstractText: string)
    requires Contains(dh, "SELECT")
    ensures Contains(AssignStatement(dh, pw, webin, description, abstractText), "SELECT")
  {
    var p := "begin\n\tera.PORTAL_DCC_PKG.add_dcc_account('";
    var q := "', '" + pw + "', '" + webin + "', '" + description + "', '" + abstractText + "', 'ACTIVE', null);\nend;\n";
    assert AssignStatement(dh, pw, webin, description, abstractText) == p + dh + q;
    ContainsInside(p, dh, q, "SELECT");
  }
}
