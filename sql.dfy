/** The shape of the PL/SQL text assigner.py sends to the database: a
    `begin ... end;` block of stored-procedure calls in the package
    `era.PORTAL_DCC_PKG`, one per line, each argument a quoted string or
    `null`.  Values are pasted between quotes as they are: nothing is
    escaped.  The parser beside the renderer is the partner that shows what
    the text says, and for which values it says it unambiguously. */
module Sql {
  import opened Wrappers

  datatype Arg = Str(text: string) | Null

  datatype Call = Call(proc: string, args: seq<Arg>)

  function RenderArg(a: Arg): string
  {
    match a
    case Str(t) => "'" + t + "'"
    case Null => "null"
  }

  /** The argument list, separated by ", ". */
  function RenderArgs(args: seq<Arg>): string
  {
    if args == [] then ""
    else if |args| == 1 then RenderArg(args[0])
    else RenderArg(args[0]) + ", " + RenderArgs(args[1..])
  }

  /** What every call line starts with: a tab and the package name. */
  const CallHead: string := "\tera.PORTAL_DCC_PKG."

  /** One call on a line of its own, indented by a tab. */
  function RenderCall(c: Call): string
  {
    CallHead + c.proc + "(" + RenderArgs(c.args) + ");\n"
  }

  /** The calls one after another, appended in order as a loop does. */
  function RenderCalls(cs: seq<Call>): string
  {
    if cs == [] then "" else RenderCalls(cs[..|cs| - 1]) + RenderCall(cs[|cs| - 1])
  }

  function RenderBlock(cs: seq<Call>): string
  {
    "begin\n" + RenderCalls(cs) + "end;\n"
  }

  // ---------------------------------------------------------------------
  // Reading a block back
  // ---------------------------------------------------------------------

  /** The text before the first `c` and the text after it. */
  function TakeUntil(s: string, c: char): (r: Option<(string, string)>)
    ensures r.Some? ==> |r.value.1| < |s|
  {
    if s == [] then None
    else if s[0] == c then Some(([], s[1..]))
    else
      match TakeUntil(s[1..], c)
      case None => None
      case Some(pr) => Some(([s[0]] + pr.0, pr.1))
  }

  function ParseArg(s: string): (r: Option<(Arg, string)>)
    ensures r.Some? ==> |r.value.1| < |s|
  {
    if "null" <= s then Some((Null, s[4..]))
    else if s != [] && s[0] == '\'' then
      match TakeUntil(s[1..], '\'')
      case None => None
      case Some(tr) => Some((Str(tr.0), tr.1))
    else None
  }

  /** One or more arguments separated by ", ", and the text after them. */
  function ParseArgs(s: string): (r: Option<(seq<Arg>, string)>)
    ensures r.Some? ==> |r.value.1| < |s|
    decreases |s|
  {
    match ParseArg(s)
    case None => None
    case Some(ar) =>
      if ", " <= ar.1 then
        match ParseArgs(ar.1[2..])
        case None => None
        case Some(mr) => Some(([ar.0] + mr.0, mr.1))
      else Some(([ar.0], ar.1))
  }

  function ParseCall(s: string): (r: Option<(Call, string)>)
    ensures r.Some? ==> |r.value.1| < |s|
  {
    var head := CallHead;
    if !(head <= s) then None
    else
      match TakeUntil(s[|head|..], '(')
      case None => None
      case Some(pr) =>
        var parsed := if ")" <= pr.1 then Some(([], pr.1)) else ParseArgs(pr.1);
        match parsed
        case None => None
        case Some(ar) => if ");\n" <= ar.1 then Some((Call(pr.0, ar.0), ar.1[3..])) else None
  }

  function ParseCalls(s: string): Option<seq<Call>>
    decreases |s|
  {
    if s == "end;\n" then Some([])
    else
      match ParseCall(s)
      case None => None
      case Some(cr) =>
        match ParseCalls(cr.1)
        case None => None
        case Some(cs) => Some([cr.0] + cs)
  }

  /** The calls a statement makes, if it is a block this module renders. */
  function ParseBlock(s: string): Option<seq<Call>>
  {
    if "begin\n" <= s then ParseCalls(s[6..]) else None
  }

  // ---------------------------------------------------------------------
  // Round trip
  // ---------------------------------------------------------------------

  /** A call whose text reads back as itself: the procedure name has no "("
      and no string argument holds a quote. */
  predicate Readable(c: Call)
  {
    '(' !in c.proc && Quoteless(c.args)
  }

  lemma {:induction false} TakeUntilFirst(p: string, c: char, rest: string)
    requires c !in p
    ensures TakeUntil(p + [c] + rest, c) == Some((p, rest))
  {
    if p != [] {
      assert (p + [c] + rest)[1..] == p[1..] + [c] + rest;
      TakeUntilFirst(p[1..], c, rest);
      assert p == [p[0]] + p[1..];
    }
  }

  lemma ParseRenderedArg(a: Arg, tail: string)
    requires a.Str? ==> '\'' !in a.text
    ensures ParseArg(RenderArg(a) + tail) == Some((a, tail))
  {
    var s := RenderArg(a) + tail;
    match a
    case Null =>
      assert s[4..] == tail;
    case Str(t) =>
      assert s[0] == '\'';
      assert !("null" <= s);
      assert s[1..] == t + ['\''] + tail;
      TakeUntilFirst(t, '\'', tail);
  }

  /** No string argument holds a quote. */
  predicate Quoteless(args: seq<Arg>)
  {
    forall i :: 0 <= i < |args| ==> args[i].Str? ==> '\'' !in args[i].text
  }

  lemma QuotelessTail(args: seq<Arg>)
    requires args != [] && Quoteless(args)
    ensures Quoteless(args[1..])
  {
    assert forall i :: 0 <= i < |args| - 1 ==> args[1..][i] == args[i + 1];
  }

  /** ParseArgs on text that starts with one argument and then continues
      with ", " and more arguments. */
  lemma ParseArgsCons(s: string, args: seq<Arg>, rest: string, tail: string)
    requires args != []
    requires ParseArg(s) == Some((args[0], rest))
    requires ", " <= rest && ParseArgs(rest[2..]) == Some((args[1..], tail))
    ensures ParseArgs(s) == Some((args, tail))
  {
    assert [args[0]] + args[1..] == args;
  }

  lemma Reassociate(a: string, b: string, c: string, d: string)
    ensures a + b + c + d == a + (b + (c + d))
  {
  }

  lemma PrefixOfConcat(p: string, q: string)
    ensures p <= p + q && (p + q)[|p|..] == q
  {
  }

  lemma {:induction false} ParseRenderedArgs(args: seq<Arg>, tail: string)
    requires args != [] && Quoteless(args)
    requires !(", " <= tail)
    ensures ParseArgs(RenderArgs(args) + tail) == Some((args, tail))
  {
    if |args| == 1 {
      assert RenderArgs(args) == RenderArg(args[0]);
      ParseRenderedArg(args[0], tail);
      assert [args[0]] == args;
    } else {
      var first, others := RenderArg(args[0]), RenderArgs(args[1..]);
      assert RenderArgs(args) == first + ", " + others;
      Reassociate(first, ", ", others, tail);
      var rest := ", " + (others + tail);
      PrefixOfConcat(", ", others + tail);
      ParseRenderedArg(args[0], rest);
      QuotelessTail(args);
      ParseRenderedArgs(args[1..], tail);
      ParseArgsCons(RenderArgs(args) + tail, args, rest, tail);
    }
  }

  lemma ParseRenderedCall(c: Call, tail: string)
    requires Readable(c)
    ensures ParseCall(RenderCall(c) + tail) == Some((c, tail))
  {
    var head := CallHead;
    var s := RenderCall(c) + tail;
    var afterArgs := ");\n" + tail;
    assert s == head + c.proc + "(" + RenderArgs(c.args) + afterArgs;
    assert s[|head|..] == c.proc + ['('] + (RenderArgs(c.args) + afterArgs);
    TakeUntilFirst(c.proc, '(', RenderArgs(c.args) + afterArgs);
    if c.args == [] {
      assert RenderArgs(c.args) + afterArgs == afterArgs;
    } else {
      assert RenderArgs(c.args) + afterArgs != [] && (RenderArgs(c.args) + afterArgs)[0] != ')' by {
        if c.args[0].Str? {
          assert (RenderArgs(c.args) + afterArgs)[0] == '\'';
        } else {
          assert (RenderArgs(c.args) + afterArgs)[0] == 'n';
        }
      }
      assert afterArgs[0] == ')';
      ParseRenderedArgs(c.args, afterArgs);
    }
    assert afterArgs[3..] == tail;
  }

  lemma RenderCallsCons(c: Call, cs: seq<Call>)
    ensures RenderCalls([c] + cs) == RenderCall(c) + RenderCalls(cs)
    decreases |cs|
  {
    if cs != [] {
      var all := [c] + cs;
      assert all[..|all| - 1] == [c] + cs[..|cs| - 1];
      RenderCallsCons(c, cs[..|cs| - 1]);
    }
  }

  lemma {:induction false} ParseRenderedCalls(cs: seq<Call>)
    requires forall i :: 0 <= i < |cs| ==> Readable(cs[i])
    ensures ParseCalls(RenderCalls(cs) + "end;\n") == Some(cs)
  {
    if cs != [] {
      RenderCallsCons(cs[0], cs[1..]);
      assert [cs[0]] + cs[1..] == cs;
      var s := RenderCalls(cs) + "end;\n";
      assert s == RenderCall(cs[0]) + (RenderCalls(cs[1..]) + "end;\n");
      assert s[0] == '\t';
      ParseRenderedCall(cs[0], RenderCalls(cs[1..]) + "end;\n");
      ParseRenderedCalls(cs[1..]);
    }
  }

  /** Round trip: a block of readable calls reads back as exactly those
      calls, in order. */
  lemma BlockRoundTrip(cs: seq<Call>)
    requires forall i :: 0 <= i < |cs| ==> Readable(cs[i])
    ensures ParseBlock(RenderBlock(cs)) == Some(cs)
  {
    var s := RenderBlock(cs);
    var body := RenderCalls(cs) + "end;\n";
    assert s == "begin\n" + body;
    assert "begin\n" <= s && s[6..] == body;
    ParseRenderedCalls(cs);
  }
}
