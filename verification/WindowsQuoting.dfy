/** Quoting of Windows command lines (lib/Basic/ShellUtility.cpp:22-84), and the rule by which such
    a line is split again: 2n backslashes before a quote stand for n and the quote is a
    metacharacter, 2n + 1 stand for n and the quote is literal, and other backslashes stand for
    themselves. */
module WindowsQuoting {

  const QUOTE: string := "\""
  const SPACE: string := " "

  predicate IsSpace(c: char) {
    c == ' ' || c == '\t' || c == '\n' || c == '\U{B}'
  }

  predicate NeedsQuote(s: string) {
    exists i :: 0 <= i < |s| && (IsSpace(s[i]) || s[i] == '"')
  }

  // ---- Runs of backslashes ----------------------------------------------------------------------

  function Repeat(n: nat): (r: string)
    ensures |r| == n && forall i :: 0 <= i < n ==> r[i] == '\\'
  {
    seq(n, _ => '\\')
  }

  /** How many backslashes `s` begins with. */
  function Backslashes(s: string): (n: nat)
    ensures n <= |s| && (forall i :: 0 <= i < n ==> s[i] == '\\') && (n < |s| ==> s[n] != '\\')
  {
    if s == "" || s[0] != '\\' then 0 else Backslashes(s[1..]) + 1
  }

  lemma BackslashesOf(n: nat, t: string)
    requires t == "" || t[0] != '\\'
    ensures Backslashes(Repeat(n) + t) == n && (Repeat(n) + t)[n..] == t
  {
    var s := Repeat(n) + t;
    var m := Backslashes(s);
    assert n < |s| ==> s[n] == t[0];
    assert m <= n;
    assert m < |s| ==> s[m] != '\\';
  }

  /** A text is a run of backslashes, or such a run, another character and the rest. */
  datatype Run = Last(n: nat) | Then(n: nat, c: char, rest: string)

  function RunOf(s: string): (r: Run)
    ensures r.n == Backslashes(s)
    ensures s == if r.Last? then Repeat(r.n) else Repeat(r.n) + [r.c] + r.rest
    ensures r.Then? ==> r.c != '\\' && |r.rest| < |s| && s[r.n] == r.c && s[r.n + 1..] == r.rest
  {
    var n := Backslashes(s);
    if n == |s| then Last(n) else Then(n, s[n], s[n + 1..])
  }

  // ---- Splitting ----------------------------------------------------------------------------------

  /** The rest of an argument, inside or outside quotes, and what follows it. */
  function Argument(s: string, quoted: bool): (r: (string, string))
    ensures |r.1| <= |s|
    decreases |s|
  {
    var n := Backslashes(s);
    if n < |s| && s[n] == '"' then
      if n % 2 == 0 then
        var (w, rest) := Argument(s[n + 1..], !quoted);
        (Repeat(n / 2) + w, rest)
      else
        var (w, rest) := Argument(s[n + 1..], quoted);
        (Repeat(n / 2) + QUOTE + w, rest)
    else if n > 0 then
      var (w, rest) := Argument(s[n..], quoted);
      (Repeat(n) + w, rest)
    else if s == "" || (!quoted && IsSpace(s[0])) then ("", s)
    else
      var (w, rest) := Argument(s[1..], quoted);
      ([s[0]] + w, rest)
  }

  lemma {:induction false} ArgumentShrinks(s: string, quoted: bool)
    requires s != "" && (quoted || !IsSpace(s[0]))
    ensures |Argument(s, quoted).1| < |s|
  {
    var n := Backslashes(s);
    if n < |s| && s[n] == '"' {
    } else if n > 0 {
      assert |Argument(s[n..], quoted).1| <= |s| - n;
    }
  }

  function Split(s: string): seq<string>
    decreases |s|
  {
    if s == "" then []
    else if IsSpace(s[0]) then Split(s[1..])
    else
      ArgumentShrinks(s, false);
      var (w, rest) := Argument(s, false);
      [w] + Split(rest)
  }

  // ---- Quoting ------------------------------------------------------------------------------------

  /** The text that stands for `s` inside quotes, with the closing quote. */
  function Closing(s: string): string
    decreases |s|
  {
    match RunOf(s)
    case Last(n) => Repeat(2 * n) + QUOTE
    case Then(n, c, rest) =>
      if c == '"' then Repeat(2 * n + 1) + QUOTE + Closing(rest) else Repeat(n) + [c] + Closing(rest)
  }

  function Quoted(s: string): string {
    if NeedsQuote(s) then QUOTE + Closing(s) else s
  }

  lemma {:induction false} ClosingLonger(s: string)
    ensures |Closing(s)| > |s|
    decreases |s|
  {
    match RunOf(s) case Last(n) => case Then(n, c, rest) => ClosingLonger(rest);
  }

  /** Quotes are put around an argument exactly if it has white space or a quotation mark in it. */
  lemma AsItIsIff(s: string)
    ensures Quoted(s) == s <==> ' ' !in s && '\t' !in s && '\n' !in s && '\U{B}' !in s && '"' !in s
  {
    ClosingLonger(s);
  }

  function Joined(args: seq<string>): string {
    if args == [] then "" else Joined(args[..|args| - 1]) + Quoted(args[|args| - 1]) + SPACE
  }

  function Line(args: seq<string>): string {
    var line := Joined(args);
    if line == "" then "" else line[..|line| - 1]
  }

  /** Reads a run of backslashes from position `i` on. */
  method CountBackslashes(s: string, i: nat) returns (j: nat)
    requires i <= |s|
    ensures i <= j <= |s| && j - i == Backslashes(s[i..])
  {
    j := i;
    while j != |s| && s[j] == '\\'
      invariant i <= j <= |s|
      invariant forall k :: i <= k < j ==> s[k] == '\\'
    {
      j := j + 1;
    }
    var n := Backslashes(s[i..]);
    assert j < |s| ==> s[i..][j - i] != '\\';
    assert n < |s| - i ==> s[i..][n] != '\\' && s[i..][n] == s[i + n];
  }

  lemma Regroup(a: string, b: string, c: string, d: string)
    ensures a + b + c + d == a + b + (c + d)
  {
  }

  lemma ClosingFrom(s: string, i: nat, j: nat)
    requires i <= j <= |s| && j - i == Backslashes(s[i..])
    ensures j == |s| ==> Closing(s[i..]) == Repeat(2 * (j - i)) + QUOTE
    ensures j < |s| && s[j] == '"' ==> Closing(s[i..]) == Repeat(2 * (j - i) + 1) + QUOTE + Closing(s[j + 1..])
    ensures j < |s| && s[j] != '"' ==> Closing(s[i..]) == Repeat(j - i) + [s[j]] + Closing(s[j + 1..])
  {
    hide Repeat, Backslashes;
    var run := RunOf(s[i..]);
    if j < |s| { assert s[i..][j - i] == s[j] && s[i..][j - i + 1..] == s[j + 1..]; }
  }

  /** What is written for the run of backslashes from `i` to `j` and the character after it. */
  function Piece(s: string, i: nat, j: nat): string
    requires i <= j < |s|
  {
    Repeat(if s[j] == '"' then 2 * (j - i) + 1 else j - i) + [s[j]]
  }

  lemma PieceOf(s: string, i: nat, j: nat, escaped: string)
    requires i <= j < |s| && j - i == Backslashes(s[i..])
    ensures escaped + Piece(s, i, j) + Closing(s[j + 1..]) == escaped + Closing(s[i..])
  {
    hide Repeat, Backslashes, Closing;
    ClosingFrom(s, i, j);
    assert Closing(s[i..]) == Piece(s, i, j) + Closing(s[j + 1..]);
    assert escaped + Piece(s, i, j) + Closing(s[j + 1..]) == escaped + (Piece(s, i, j) + Closing(s[j + 1..]));
  }

  method FormatWindowsCommandArg(s: string) returns (r: string)
    ensures r == Quoted(s)
  {
    hide Closing;
    if !NeedsQuote(s) { return s; }
    r := Enclosed(s);
  }

  method Enclosed(s: string) returns (r: string)
    ensures r == QUOTE + Closing(s)
  {
    hide Backslashes, Closing;
    var escaped := QUOTE;
    var i := 0;
    assert s[0..] == s;
    while i != |s|
      invariant 0 <= i <= |s|
      invariant escaped + Closing(s[i..]) == QUOTE + Closing(s)
      decreases |s| - i
    {
      var j := CountBackslashes(s, i);
      var numBackslashes := j - i;
      if j == |s| {
        ClosingFrom(s, i, j);
        r := escaped + (Repeat(numBackslashes * 2) + QUOTE);
        return;
      }
      PieceOf(s, i, j, escaped);
      if s[j] == '"' {
        escaped := escaped + (Repeat(2 * numBackslashes + 1) + [s[j]]);
      } else {
        escaped := escaped + (Repeat(numBackslashes) + [s[j]]);
      }
      i := j + 1;
    }
    EmptyClosing();
    assert s[i..] == "";
    r := escaped + QUOTE;
  }

  lemma EmptyClosing()
    ensures Closing("") == QUOTE
  {
    assert RunOf("") == Last(0);
    assert Repeat(0) == "";
  }

  method FormatWindowsCommandString(args: seq<string>) returns (line: string)
    ensures line == Line(args)
  {
    line := "";
    for i := 0 to |args|
      invariant line == Joined(args[..i])
    {
      assert args[..i + 1][..i] == args[..i];
      var arg := FormatWindowsCommandArg(args[i]);
      line := line + (arg + SPACE);
      assert line == Joined(args[..i]) + arg + SPACE;
    }
    assert args[..|args|] == args;
    if |line| > 0 { line := line[..|line| - 1]; }
  }

  // ---- The round trip ---------------------------------------------------------------------------------

  lemma ArgumentQuote(n: nat, t: string, quoted: bool)
    ensures var (w, rest) := Argument(t, if n % 2 == 0 then !quoted else quoted);
      Argument(Repeat(n) + QUOTE + t, quoted) == (Repeat(n / 2) + (if n % 2 == 0 then "" else QUOTE) + w, rest)
  {
    var s := Repeat(n) + QUOTE + t;
    assert s == Repeat(n) + (QUOTE + t);
    BackslashesOf(n, QUOTE + t);
    assert s[n] == '"' && s[n + 1..] == t;
    assert Repeat(n / 2) + "" == Repeat(n / 2);
  }

  lemma ArgumentChar(c: char, t: string, quoted: bool)
    requires c != '\\' && c != '"' && (quoted || !IsSpace(c))
    ensures var (w, rest) := Argument(t, quoted); Argument([c] + t, quoted) == ([c] + w, rest)
  {
    var u := [c] + t;
    assert Backslashes(u) == 0 && u[1..] == t;
  }

  lemma ArgumentRun(n: nat, u: string, quoted: bool)
    requires u == "" || (u[0] != '\\' && u[0] != '"')
    ensures var (w, rest) := Argument(u, quoted); Argument(Repeat(n) + u, quoted) == (Repeat(n) + w, rest)
  {
    BackslashesOf(n, u);
    if n == 0 { assert Repeat(0) + u == u && forall w: string :: Repeat(0) + w == w; }
  }

  lemma ArgumentPlain(n: nat, c: char, t: string, quoted: bool)
    requires c != '\\' && c != '"' && (quoted || !IsSpace(c))
    ensures var (w, rest) := Argument(t, quoted);
      Argument(Repeat(n) + [c] + t, quoted) == (Repeat(n) + [c] + w, rest)
  {
    hide Argument, Repeat, IsSpace;
    var (w, rest) := Argument(t, quoted);
    assert Repeat(n) + [c] + t == Repeat(n) + ([c] + t);
    ArgumentRun(n, [c] + t, quoted);
    ArgumentChar(c, t, quoted);
    assert Repeat(n) + ([c] + w) == Repeat(n) + [c] + w;
  }

  lemma Halves(n: nat)
    ensures 2 * n % 2 == 0 && 2 * n / 2 == n && (2 * n + 1) % 2 == 1 && (2 * n + 1) / 2 == n
  {
  }

  /** Inside quotes, the text for `s` is read as `s`, and the quote is closed. */
  lemma {:induction false} ReadClosing(s: string, t: string)
    ensures var (w, rest) := Argument(t, false);
      Argument(Closing(s) + t, true) == (s + w, rest)
    decreases |s|
  {
    hide Argument, Repeat, Backslashes, Closing, RunOf;
    var (w, rest) := Argument(t, false);
    ClosingIs(s);
    match RunOf(s) {
      case Last(n) =>
        ReadLast(n, t);
      case Then(n, c, y) =>
        ReadClosing(y, t);
        Regroup(Repeat(n), [c], y, w);
        if c == '"' {
          Regroup(Repeat(2 * n + 1), QUOTE, Closing(y), t);
          ReadLiteral(n, Closing(y) + t);
        } else {
          Regroup(Repeat(n), [c], Closing(y), t);
          ArgumentPlain(n, c, Closing(y) + t, true);
        }
    }
  }

  lemma ClosingIs(s: string)
    ensures match RunOf(s)
      case Last(n) => Closing(s) == Repeat(2 * n) + QUOTE
      case Then(n, c, rest) =>
        Closing(s) == if c == '"' then Repeat(2 * n + 1) + QUOTE + Closing(rest) else Repeat(n) + [c] + Closing(rest)
  {
  }

  lemma ReadLast(n: nat, t: string)
    ensures var (w, rest) := Argument(t, false); Argument(Repeat(2 * n) + QUOTE + t, true) == (Repeat(n) + w, rest)
  {
    hide Argument, Repeat;
    Halves(n);
    ArgumentQuote(2 * n, t, true);
    assert Repeat(n) + "" == Repeat(n);
  }

  lemma ReadLiteral(n: nat, u: string)
    ensures var (w, rest) := Argument(u, true); Argument(Repeat(2 * n + 1) + QUOTE + u, true) == (Repeat(n) + QUOTE + w, rest)
  {
    hide Argument, Repeat;
    Halves(n);
    ArgumentQuote(2 * n + 1, u, true);
  }

  predicate EndsArgument(t: string) {
    t == "" || t[0] == ' '
  }

  lemma ArgumentEnds(n: nat, t: string)
    requires EndsArgument(t)
    ensures Argument(Repeat(n) + t, false) == (Repeat(n), t)
  {
    ArgumentRun(n, t, false);
    assert Argument(t, false) == ("", t);
    assert Repeat(n) + "" == Repeat(n);
  }

  lemma NoQuoteRest(n: nat, c: char, y: string)
    requires !NeedsQuote(Repeat(n) + [c] + y)
    ensures !NeedsQuote(y) && !IsSpace(c) && c != '"'
  {
    var s := Repeat(n) + [c] + y;
    assert s[n] == c;
    assert forall i :: 0 <= i < |y| ==> y[i] == s[n + 1 + i];
  }

  /** Text that needs no quotes is read as it stands. */
  lemma {:induction false} ReadPlain(s: string, t: string)
    requires !NeedsQuote(s) && EndsArgument(t)
    ensures Argument(s + t, false) == (s, t)
    decreases |s|
  {
    hide Argument, Repeat, Backslashes, NeedsQuote;
    match RunOf(s) {
      case Last(n) => ArgumentEnds(n, t);
      case Then(n, c, y) =>
        NoQuoteRest(n, c, y);
        ReadPlain(y, t);
        assert s + t == Repeat(n) + [c] + (y + t);
        ArgumentPlain(n, c, y + t, false);
    }
  }

  lemma ReadQuoted(s: string, t: string)
    requires EndsArgument(t)
    ensures Argument(Quoted(s) + t, false) == (s, t)
  {
    hide NeedsQuote, Argument, Closing;
    if NeedsQuote(s) {
      var u := Closing(s) + t;
      assert Quoted(s) + t == QUOTE + u;
      ArgumentOpens(u);
      ReadClosing(s, t);
      ArgumentEnds(0, t);
      assert Repeat(0) + t == t && Repeat(0) == "" && s + "" == s;
    } else {
      ReadPlain(s, t);
    }
  }

  lemma ArgumentOpens(u: string)
    ensures Argument(QUOTE + u, false) == Argument(u, true)
  {
    hide Argument;
    ArgumentQuote(0, u, false);
    assert Repeat(0) == "" && "" + QUOTE + u == QUOTE + u;
    var (w, rest) := Argument(u, true);
    assert "" + "" + w == w;
  }

  lemma QuotedStarts(s: string)
    requires s != ""
    ensures Quoted(s) != "" && !IsSpace(Quoted(s)[0])
  {
  }

  /** The arguments that are not empty. */
  function NonEmpty(args: seq<string>): seq<string> {
    if args == [] then [] else if args[0] == "" then NonEmpty(args[1..]) else [args[0]] + NonEmpty(args[1..])
  }

  /** The rest of a command line, from an argument on. */
  function Onwards(args: seq<string>): string {
    if args == [] then "" else Quoted(args[0]) + (if |args| == 1 then "" else SPACE + Onwards(args[1..]))
  }

  lemma {:induction false} SplitOnwards(args: seq<string>)
    ensures Split(Onwards(args)) == NonEmpty(args)
    decreases |args|
  {
    if args != [] {
      var rest := if |args| == 1 then "" else SPACE + Onwards(args[1..]);
      SplitOnwards(args[1..]);
      assert |args| == 1 ==> args[1..] == [];
      assert Split(rest) == NonEmpty(args[1..]) by {
        if |args| > 1 { assert rest[1..] == Onwards(args[1..]); }
      }
      if args[0] == "" {
        assert Onwards(args) == rest;
      } else {
        QuotedStarts(args[0]);
        ReadQuoted(args[0], rest);
      }
    }
  }

  lemma {:induction false} JoinedOnwards(args: seq<string>, arg: string)
    ensures Joined(args + [arg]) == Onwards(args + [arg]) + SPACE
    decreases |args|
  {
    var all := args + [arg];
    assert all[..|args|] == args;
    if args == [] {
      assert Joined(all) == "" + Quoted(arg) + SPACE;
      assert Onwards(all) == Quoted(arg) + "";
    } else {
      var front, last := args[..|args| - 1], args[|args| - 1];
      assert args == front + [last];
      JoinedOnwards(front, last);
      OnwardsPush(args, arg);
      assert Joined(all) == Joined(args) + Quoted(arg) + SPACE;
    }
  }

  lemma {:induction false} OnwardsPush(args: seq<string>, arg: string)
    requires args != []
    ensures Onwards(args + [arg]) == Onwards(args) + SPACE + Quoted(arg)
    decreases |args|
  {
    var all := args + [arg];
    assert all[1..] == args[1..] + [arg];
    if |args| == 1 {
      assert args[1..] == [] && all[1..] == [arg];
      assert Onwards([arg]) == Quoted(arg) + "" == Quoted(arg);
      assert Onwards(args) == Quoted(args[0]) + "" == Quoted(args[0]);
    } else {
      OnwardsPush(args[1..], arg);
    }
  }

  /** Splitting a formatted command line gives back the arguments, less the empty ones. */
  lemma SplitLine(args: seq<string>)
    ensures Split(Line(args)) == NonEmpty(args)
  {
    if args != [] {
      var front, last := args[..|args| - 1], args[|args| - 1];
      assert args == front + [last];
      JoinedOnwards(front, last);
      assert Line(args) == Onwards(args);
    }
    SplitOnwards(args);
  }

  lemma {:induction false} NonEmptyAll(args: seq<string>)
    ensures |NonEmpty(args)| <= |args| && (NonEmpty(args) == args <==> "" !in args)
  {
    if args != [] {
      NonEmptyAll(args[1..]);
      assert args == [args[0]] + args[1..];
      if args[0] != "" && NonEmpty(args) == args { assert NonEmpty(args)[1..] == args[1..]; }
    }
  }

  /** So the round trip is exact if and only if no argument is empty. */
  lemma RoundTripIff(args: seq<string>)
    ensures Split(Line(args)) == args <==> "" !in args
  {
    SplitLine(args);
    NonEmptyAll(args);
  }
}
