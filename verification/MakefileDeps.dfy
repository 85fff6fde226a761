/** The parser for Makefile-style dependency files, other than on Windows
    (lib/Core/MakefileDepsParser.cpp:25-223). */
module MakefileDeps {
  import opened Options

  datatype Event = Error | RuleStart(name: string) | RuleDependency(name: string) | RuleEnd

  predicate IsWordChar(c: char) {
    c != '\0' && c != '\t' && c != '\r' && c != '\n' && c != ' ' && c != '$' && c != ':'
  }

  // ---- The lexer, on the text still to be read --------------------------------------------------

  function SkipComment(s: string): (r: string)
    ensures |r| <= |s|
  {
    if s == "" || s[0] == '\n' then s else SkipComment(s[1..])
  }

  function SkipWhitespaceAndComments(s: string): (r: string)
    ensures |r| <= |s|
    decreases |s|
  {
    if s == "" then s
    else if s[0] == '#' then SkipWhitespaceAndComments(SkipComment(s[1..]))
    else if s[0] == ' ' || s[0] == '\t' || s[0] == '\n' || s[0] == '\r' then SkipWhitespaceAndComments(s[1..])
    else s
  }

  function SkipNonNewlineWhitespace(s: string): (r: string)
    ensures |r| <= |s|
    decreases |s|
  {
    if s == "" then s
    else if s[0] == ' ' || s[0] == '\t' || s[0] == '\r' then SkipNonNewlineWhitespace(s[1..])
    else if s[0] == '\\' && |s| > 1 && s[1] == '\n' then SkipNonNewlineWhitespace(s[2..])
    else if s[0] == '\\' && |s| > 2 && s[1] == '\r' && s[2] == '\n' then SkipNonNewlineWhitespace(s[3..])
    else s
  }

  function SkipToEndOfLine(s: string): (r: string)
    ensures |r| <= |s| && (s != "" ==> |r| < |s|)
  {
    if s == "" then s else if s[0] == '\n' then s[1..] else SkipToEndOfLine(s[1..])
  }

  /** The text after a word, and the word; or the lexer has gone beyond the end of the text,
      because the text ends inside a backslash escape. */
  datatype Lexed = Overrun | Lexed(rest: string, word: string)

  function Prepend(part: string, r: Lexed): Lexed {
    match r case Overrun => Overrun case Lexed(rest, word) => Lexed(rest, part + word)
  }

  function Unescape(c: char): string {
    if c == ' ' || c == '#' || c == '\\' then [c] else ['\\', c]
  }

  function LexWord(s: string): (r: Lexed)
    ensures r.Lexed? ==> |r.rest| <= |s|
    decreases |s|
  {
    if s == "" then Lexed(s, "")
    else if s[0] == '\\' then
      if |s| > 1 && s[1] == '\n' then Lexed(s, "")
      else if |s| == 1 then Overrun
      else Prepend(Unescape(s[1]), LexWord(s[2..]))
    else if s[0] == '$' && |s| > 1 && s[1] == '$' then Prepend("$", LexWord(s[2..]))
    else if !IsWordChar(s[0]) then Lexed(s, "")
    else Prepend([s[0]], LexWord(s[1..]))
  }

  /** Colons inside a dependency belong to it. */
  function LexColons(s: string, word: string): (r: Lexed)
    ensures r.Lexed? ==> |r.rest| <= |s|
    decreases |s|
  {
    if s == "" || s[0] != ':' then Lexed(s, word) else
    match LexWord(s[1..])
    case Overrun => Overrun
    case Lexed(rest, more) => LexColons(rest, word + ":" + more)
  }

  // ---- The parser -----------------------------------------------------------------------------------

  /** What a part of the parser reports, and the text after it. */
  datatype Parsed = Failed | Parsed(events: seq<Event>, rest: string)

  function Report(events: seq<Event>, r: Parsed): Parsed {
    match r case Failed => Failed case Parsed(more, rest) => Parsed(events + more, rest)
  }

  function ParseDependencies(s: string): (r: Parsed)
    ensures r.Parsed? ==> |r.rest| <= |s|
    decreases |s|
  {
    var s1 := SkipNonNewlineWhitespace(s);
    if s1 == "" || s1[0] == '\n' then Parsed([], s1) else
    match LexWord(s1)
    case Overrun => Failed
    case Lexed(s2, first) =>
      if |s2| == |s1| then Report([Error], ParseDependencies(SkipToEndOfLine(s2))) else
      match LexColons(s2, first)
      case Overrun => Failed
      case Lexed(s3, word) => Report([RuleDependency(word)], ParseDependencies(s3))
  }

  /** Every turn of the loop makes progress, so the parser ends on every input. */
  function ParseFrom(s: string, ignoreSubsequentOutputs: bool): Option<seq<Event>>
    decreases |s|
  {
    var s1 := SkipWhitespaceAndComments(s);
    if s1 == "" then Some([]) else
    match LexWord(s1)
    case Overrun => None
    case Lexed(s2, name) =>
      if |s2| == |s1| then After([Error], ParseFrom(SkipToEndOfLine(s2), ignoreSubsequentOutputs)) else
      var s3 := SkipNonNewlineWhitespace(s2);
      if s3 == "" || s3[0] != ':' then
        After([RuleStart(name), Error, RuleEnd], ParseFrom(SkipToEndOfLine(s3), ignoreSubsequentOutputs)) else
      match ParseDependencies(s3[1..])
      case Failed => None
      case Parsed(events, s4) =>
        var rule := [RuleStart(name)] + events + [RuleEnd];
        if ignoreSubsequentOutputs then Some(rule) else After(rule, ParseFrom(s4, ignoreSubsequentOutputs))
  }

  function After(events: seq<Event>, r: Option<seq<Event>>): Option<seq<Event>> {
    match r case None => None case Some(more) => Some(events + more)
  }

  // ---- When the parser runs off the end ---------------------------------------------------------------

  /** Where a reader is in the text: between rules, in a comment, in the name of a rule or after it,
      among dependencies or in one, on a line that is skipped after an error, after the last rule it
      cares for, or at the end of the text inside a backslash escape. */
  datatype Mode = Between | Comment | Name | AfterName | Dependencies | Dependency | Skipped(inRule: bool) | Stopped | Dangling

  /** How much of `s` goes on with a word: a character, an escape, or nothing. */
  function WordPart(s: string): (n: nat)
    requires s != ""
    ensures n <= |s|
  {
    if s[0] == '\\' then (if |s| == 1 then 1 else if s[1] == '\n' then 0 else 2)
    else if s[0] == '$' && |s| > 1 && s[1] == '$' then 2
    else if IsWordChar(s[0]) then 1
    else 0
  }

  /** How much of `s` is blank within a line: a space, a line continuation, or nothing. */
  function BlankPart(s: string): (n: nat)
    requires s != ""
    ensures n <= |s|
  {
    if s[0] == ' ' || s[0] == '\t' || s[0] == '\r' then 1
    else if s[0] == '\\' && |s| > 1 && s[1] == '\n' then 2
    else if s[0] == '\\' && |s| > 2 && s[1] == '\r' && s[2] == '\n' then 3
    else 0
  }

  function Rank(m: Mode): nat {
    match m
    case Dependency => 4
    case Dependencies => 3
    case Name => 3
    case AfterName => 2
    case Between => 2
    case _ => 1
  }

  /** What a reader at `m` does with `s`: where it is then, and how much of `s` it has read. */
  function Onward(m: Mode, s: string, ignoreSubsequentOutputs: bool): (r: (Mode, nat))
    requires s != "" && !m.Stopped? && !m.Dangling?
    ensures r.1 <= |s| && (r.1 == 0 ==> Rank(r.0) < Rank(m))
  {
    match m
    case Between =>
      if s[0] == '#' then (Comment, 1)
      else if s[0] == ' ' || s[0] == '\t' || s[0] == '\n' || s[0] == '\r' then (Between, 1)
      else if WordPart(s) == 0 then (Skipped(false), 0)
      else (if s == "\\" then Dangling else Name, WordPart(s))
    case Comment => (if s[0] == '\n' then Between else Comment, 1)
    case Name =>
      if WordPart(s) == 0 then (AfterName, 0) else (if s == "\\" then Dangling else Name, WordPart(s))
    case AfterName =>
      if BlankPart(s) > 0 then (AfterName, BlankPart(s)) else if s[0] == ':' then (Dependencies, 1) else (Skipped(false), 0)
    case Dependencies =>
      if BlankPart(s) > 0 then (Dependencies, BlankPart(s))
      else if s[0] == '\n' then (if ignoreSubsequentOutputs then Stopped else Between, 0)
      else if WordPart(s) == 0 then (Skipped(true), 0)
      else (if s == "\\" then Dangling else Dependency, WordPart(s))
    case Dependency =>
      if WordPart(s) > 0 then (if s == "\\" then Dangling else Dependency, WordPart(s))
      else if s[0] == ':' then (Dependency, 1)
      else (Dependencies, 0)
    case Skipped(inRule) => (if s[0] != '\n' then m else if inRule then Dependencies else Between, 1)
  }

  /** Where a reader is at the end of `s`, if it is at `m` at the beginning. */
  function Reading(m: Mode, s: string, ignoreSubsequentOutputs: bool): Mode
    decreases |s|, Rank(m)
  {
    if s == "" || m.Stopped? || m.Dangling? then m else
    var (m', n) := Onward(m, s, ignoreSubsequentOutputs);
    Reading(m', s[n..], ignoreSubsequentOutputs)
  }

  predicate Dangles(m: Mode, s: string, ignoreSubsequentOutputs: bool) {
    Reading(m, s, ignoreSubsequentOutputs).Dangling?
  }

  // Each part of the parser leaves the reader where the next part begins.

  lemma {:induction false} ReadComment(s: string, ignoreSubsequentOutputs: bool)
    ensures Dangles(Comment, s, ignoreSubsequentOutputs) <==> Dangles(Between, SkipComment(s), ignoreSubsequentOutputs)
  {
    if s != "" && s[0] != '\n' { ReadComment(s[1..], ignoreSubsequentOutputs); }
  }

  lemma {:induction false} ReadWhitespace(s: string, ignoreSubsequentOutputs: bool)
    ensures Dangles(Between, s, ignoreSubsequentOutputs) <==> Dangles(Between, SkipWhitespaceAndComments(s), ignoreSubsequentOutputs)
    decreases |s|
  {
    if s == "" {
    } else if s[0] == '#' {
      ReadComment(s[1..], ignoreSubsequentOutputs);
      ReadWhitespace(SkipComment(s[1..]), ignoreSubsequentOutputs);
    } else if s[0] == ' ' || s[0] == '\t' || s[0] == '\n' || s[0] == '\r' {
      ReadWhitespace(s[1..], ignoreSubsequentOutputs);
    }
  }

  lemma {:induction false} ReadBlank(m: Mode, s: string, ignoreSubsequentOutputs: bool)
    requires m.AfterName? || m.Dependencies?
    ensures Reading(m, s, ignoreSubsequentOutputs) == Reading(m, SkipNonNewlineWhitespace(s), ignoreSubsequentOutputs)
    ensures var r := SkipNonNewlineWhitespace(s); r == "" || BlankPart(r) == 0
    decreases |s|
  {
    if s != "" && BlankPart(s) > 0 { ReadBlank(m, s[BlankPart(s)..], ignoreSubsequentOutputs); }
  }

  lemma {:induction false} ReadLine(inRule: bool, s: string, ignoreSubsequentOutputs: bool)
    ensures Dangles(Skipped(inRule), s, ignoreSubsequentOutputs)
      <==> Dangles(if inRule then Dependencies else Between, SkipToEndOfLine(s), ignoreSubsequentOutputs)
  {
    if s != "" && s[0] != '\n' { ReadLine(inRule, s[1..], ignoreSubsequentOutputs); }
  }

  /** A word is over: the text is, or something follows that is not part of it. */
  ghost predicate WordOver(s: string) {
    s == "" || WordPart(s) == 0
  }

  lemma LexPart(s: string)
    requires s != ""
    ensures WordPart(s) == 0 ==> LexWord(s) == Lexed(s, "")
    ensures WordPart(s) > 0 && s == "\\" ==> LexWord(s) == Overrun
    ensures WordPart(s) > 0 && s != "\\" ==> LexWord(s) == Prepend(Piece(s), LexWord(s[WordPart(s)..]))
  {
    if |s| == 1 && s[0] == '\\' { assert s == "\\"; }
  }

  /** The text of that part of a word. */
  function Piece(s: string): string
    requires s != ""
  {
    if s[0] == '\\' then (if |s| == 1 then "" else Unescape(s[1])) else [s[0]]
  }

  lemma {:induction false} ReadWord(m: Mode, s: string, ignoreSubsequentOutputs: bool)
    requires m.Name? || m.Dependency?
    ensures match LexWord(s)
      case Overrun => Dangles(m, s, ignoreSubsequentOutputs)
      case Lexed(rest, _) => Reading(m, s, ignoreSubsequentOutputs) == Reading(m, rest, ignoreSubsequentOutputs) && WordOver(rest)
    decreases |s|
  {
    if s != "" {
      LexPart(s);
      hide LexWord;
      if WordPart(s) > 0 {
        assert Reading(m, s, ignoreSubsequentOutputs) == Reading(if s == "\\" then Dangling else m, s[WordPart(s)..], ignoreSubsequentOutputs);
        if s != "\\" { ReadWord(m, s[WordPart(s)..], ignoreSubsequentOutputs); }
      }
    } else {
      assert LexWord(s) == Lexed(s, "");
    }
  }

  /** The first part of a word. */
  lemma ReadFirst(start: Mode, m: Mode, s: string, ignoreSubsequentOutputs: bool)
    requires s != "" && WordPart(s) > 0
    requires (start.Between? && m.Name? && s[0] != '#' && s[0] != ' ' && s[0] != '\t' && s[0] != '\n' && s[0] != '\r')
      || (start.Dependencies? && m.Dependency? && BlankPart(s) == 0 && s[0] != '\n')
    ensures Reading(start, s, ignoreSubsequentOutputs) == Reading(m, s, ignoreSubsequentOutputs)
    ensures LexWord(s).Lexed? ==> |LexWord(s).rest| < |s|
  {
    LexPart(s);
  }

  lemma {:induction false} ReadColons(s: string, word: string, ignoreSubsequentOutputs: bool)
    requires WordOver(s)
    ensures match LexColons(s, word)
      case Overrun => Dangles(Dependency, s, ignoreSubsequentOutputs)
      case Lexed(rest, _) => Dangles(Dependency, s, ignoreSubsequentOutputs) <==> Dangles(Dependencies, rest, ignoreSubsequentOutputs)
    decreases |s|
  {
    if s != "" && s[0] == ':' {
      ReadWord(Dependency, s[1..], ignoreSubsequentOutputs);
      match LexWord(s[1..]) {
        case Overrun =>
        case Lexed(rest, more) => ReadColons(rest, word + ":" + more, ignoreSubsequentOutputs);
      }
    }
  }

  /** The dependencies of a rule end at the end of a line, or of the text. */
  lemma {:induction false} ReadDependencies(s: string, ignoreSubsequentOutputs: bool)
    ensures match ParseDependencies(s)
      case Failed => Dangles(Dependencies, s, ignoreSubsequentOutputs)
      case Parsed(_, rest) =>
        (Dangles(Dependencies, s, ignoreSubsequentOutputs) <==> !ignoreSubsequentOutputs && Dangles(Between, rest, ignoreSubsequentOutputs))
    decreases |s|
  {
    hide LexWord, LexColons, SkipNonNewlineWhitespace, SkipToEndOfLine;
    var s1 := SkipNonNewlineWhitespace(s);
    ReadBlank(Dependencies, s, ignoreSubsequentOutputs);
    if s1 != "" && s1[0] != '\n' {
      LexPart(s1);
      if WordPart(s1) == 0 {
        ReadLine(true, s1, ignoreSubsequentOutputs);
        ReadDependencies(SkipToEndOfLine(s1), ignoreSubsequentOutputs);
      } else {
        ReadFirst(Dependencies, Dependency, s1, ignoreSubsequentOutputs);
        ReadWord(Dependency, s1, ignoreSubsequentOutputs);
        match LexWord(s1) {
          case Overrun =>
          case Lexed(s2, first) =>
            ReadColons(s2, first, ignoreSubsequentOutputs);
            match LexColons(s2, first) {
              case Overrun =>
              case Lexed(s3, word) => ReadDependencies(s3, ignoreSubsequentOutputs);
            }
        }
      }
    }
  }

  lemma {:induction false} ReadFrom(s: string, ignoreSubsequentOutputs: bool)
    ensures ParseFrom(s, ignoreSubsequentOutputs).None? <==> Dangles(Between, s, ignoreSubsequentOutputs)
    decreases |s|
  {
    hide LexWord, SkipNonNewlineWhitespace, SkipToEndOfLine, SkipWhitespaceAndComments, ParseDependencies;
    var s1 := SkipWhitespaceAndComments(s);
    ReadWhitespace(s, ignoreSubsequentOutputs);
    SkippedAll(s);
    if s1 != "" {
      LexPart(s1);
      if WordPart(s1) == 0 {
        ReadLine(false, s1, ignoreSubsequentOutputs);
        ReadFrom(SkipToEndOfLine(s1), ignoreSubsequentOutputs);
      } else {
        ReadFirst(Between, Name, s1, ignoreSubsequentOutputs);
        ReadWord(Name, s1, ignoreSubsequentOutputs);
        if LexWord(s1).Lexed? { ReadRest(s, s1, ignoreSubsequentOutputs); }
      }
    }
  }

  lemma {:induction false} SkippedAll(s: string)
    ensures var r := SkipWhitespaceAndComments(s); r == "" || (r[0] != '#' && r[0] != ' ' && r[0] != '\t' && r[0] != '\n' && r[0] != '\r')
    decreases |s|
  {
    if s == "" {
    } else if s[0] == '#' {
      SkippedAll(SkipComment(s[1..]));
    } else if s[0] == ' ' || s[0] == '\t' || s[0] == '\n' || s[0] == '\r' {
      SkippedAll(s[1..]);
    }
  }

  /** After the name of a rule. */
  lemma {:induction false} ReadRest(s: string, s1: string, ignoreSubsequentOutputs: bool)
    requires s1 == SkipWhitespaceAndComments(s) && s1 != "" && LexWord(s1).Lexed? && |LexWord(s1).rest| < |s1|
    requires WordOver(LexWord(s1).rest)
    ensures ParseFrom(s, ignoreSubsequentOutputs).None? <==> Dangles(Name, LexWord(s1).rest, ignoreSubsequentOutputs)
    decreases |s|, 0
  {
    hide LexWord, SkipNonNewlineWhitespace, SkipToEndOfLine, SkipWhitespaceAndComments, ParseDependencies;
    var s2 := LexWord(s1).rest;
    var s3 := SkipNonNewlineWhitespace(s2);
    ReadBlank(AfterName, s2, ignoreSubsequentOutputs);
    assert Dangles(Name, s2, ignoreSubsequentOutputs) <==> Dangles(AfterName, s3, ignoreSubsequentOutputs);
    if s3 == "" || s3[0] != ':' {
      ReadLine(false, s3, ignoreSubsequentOutputs);
      ReadFrom(SkipToEndOfLine(s3), ignoreSubsequentOutputs);
    } else {
      ReadDependencies(s3[1..], ignoreSubsequentOutputs);
      if ParseDependencies(s3[1..]).Parsed? && !ignoreSubsequentOutputs {
        ReadFrom(ParseDependencies(s3[1..]).rest, ignoreSubsequentOutputs);
      }
    }
  }

  // The last run of backslashes.

  /** How many backslashes the text ends with. */
  function FinalRun(s: string): (n: nat)
    ensures n <= |s| && (n < |s| ==> s[|s| - n - 1] != '\\') && forall i :: |s| - n <= i < |s| ==> s[i] == '\\'
  {
    if s == "" || s[|s| - 1] != '\\' then 0 else FinalRun(s[..|s| - 1]) + 1
  }

  predicate AllBackslashes(s: string) {
    forall i :: 0 <= i < |s| ==> s[i] == '\\'
  }

  /** A reader that would take a backslash for the beginning of an escape. */
  predicate Reads(m: Mode) {
    m.Between? || m.Name? || m.Dependencies? || m.Dependency?
  }

  lemma RunParts(run: string)
    requires AllBackslashes(run) && run != ""
    ensures WordPart(run) == (if |run| == 1 then 1 else 2) && BlankPart(run) == 0 && (run == "\\" <==> |run| == 1)
    ensures |run| > 1 ==> AllBackslashes(run[2..])
  {
    if |run| == 1 { assert run == "\\"; }
  }

  /** Backslashes are read two by two, and one that is left over has nothing to escape. */
  lemma {:induction false} ReadRun(m: Mode, run: string, ignoreSubsequentOutputs: bool)
    requires AllBackslashes(run) && Reads(m)
    ensures Dangles(m, run, ignoreSubsequentOutputs) <==> |run| % 2 == 1
    decreases |run|
  {
    if run != "" {
      RunParts(run);
      var m' := if m.Between? || m.Name? then Name else Dependency;
      if |run| > 1 {
        ReadRun(m', run[2..], ignoreSubsequentOutputs);
        assert Reading(m, run, ignoreSubsequentOutputs) == Reading(m', run[2..], ignoreSubsequentOutputs);
      } else {
        assert Reading(m, run, ignoreSubsequentOutputs) == Reading(Dangling, run[1..], ignoreSubsequentOutputs);
      }
    }
  }

  lemma {:induction false} SkipRun(m: Mode, run: string, ignoreSubsequentOutputs: bool)
    requires AllBackslashes(run) && !Reads(m) && !m.Dangling?
    ensures !Dangles(m, run, ignoreSubsequentOutputs)
    decreases |run|, Rank(m)
  {
    if run != "" {
      RunParts(run);
      if m.AfterName? {
        SkipRun(Skipped(false), run, ignoreSubsequentOutputs);
      } else if !m.Stopped? {
        SkipRun(m, run[1..], ignoreSubsequentOutputs);
      }
    }
  }

  /** No part of a text reaches into the run of backslashes after it. */
  lemma PartsApart(head: string, run: string)
    requires head != "" && head[|head| - 1] != '\\' && AllBackslashes(run)
    ensures WordPart(head + run) == WordPart(head) && BlankPart(head + run) == BlankPart(head)
    ensures (head + run)[0] == head[0] && head != "\\" && head + run != "\\"
    ensures var n := WordPart(head); (head + run)[n..] == head[n..] + run && (head[n..] == "" || head[n..][|head| - n - 1] != '\\')
    ensures var n := BlankPart(head); (head + run)[n..] == head[n..] + run && (head[n..] == "" || head[n..][|head| - n - 1] != '\\')
    ensures (head + run)[1..] == head[1..] + run && (head[1..] == "" || head[1..][|head| - 2] != '\\')
  {
    var s := head + run;
    assert s[0] == head[0];
    if |head| > 1 {
      assert s[1] == head[1];
    } else {
      assert |s| > 1 ==> s[1] == '\\';
    }
    if |head| > 2 { assert s[2] == head[2]; }
  }

  lemma {:induction false} ReadHead(m: Mode, head: string, run: string, ignoreSubsequentOutputs: bool)
    requires (head == "" || head[|head| - 1] != '\\') && AllBackslashes(run)
    ensures Reading(m, head + run, ignoreSubsequentOutputs) == Reading(Reading(m, head, ignoreSubsequentOutputs), run, ignoreSubsequentOutputs)
    decreases |head|, Rank(m)
  {
    if head == "" {
      assert head + run == run;
    } else {
      if !m.Stopped? && !m.Dangling? {
        OnwardApart(m, head, run, ignoreSubsequentOutputs);
        var (m', n) := Onward(m, head, ignoreSubsequentOutputs);
        ReadHead(m', head[n..], run, ignoreSubsequentOutputs);
      }
    }
  }

  lemma OnwardApart(m: Mode, head: string, run: string, ignoreSubsequentOutputs: bool)
    requires head != "" && head[|head| - 1] != '\\' && AllBackslashes(run) && !m.Stopped? && !m.Dangling?
    ensures Onward(m, head + run, ignoreSubsequentOutputs) == Onward(m, head, ignoreSubsequentOutputs)
    ensures var n := Onward(m, head, ignoreSubsequentOutputs).1;
      (head + run)[n..] == head[n..] + run && (head[n..] == "" || head[n..][|head[n..]| - 1] != '\\')
  {
    hide WordPart, BlankPart;
    PartsApart(head, run);
    assert head + run != "\\" && head != "\\";
  }

  /** Exactly when the parser reads beyond the end: the text ends with an odd number of backslashes,
      and what comes before them leaves the reader where a word may begin or go on; not in a comment,
      nor between a name and its colon, nor on a line skipped after an error, nor after the first
      rule when only that is wanted. */
  lemma OverrunIff(s: string, ignoreSubsequentOutputs: bool)
    ensures ParseFrom(s, ignoreSubsequentOutputs).None?
      <==> FinalRun(s) % 2 == 1 && Reads(Reading(Between, s[..|s| - FinalRun(s)], ignoreSubsequentOutputs))
  {
    hide ParseFrom, Reading, FinalRun;
    var n := FinalRun(s);
    var head, run := s[..|s| - n], s[|s| - n..];
    assert s == head + run;
    ReadFrom(s, ignoreSubsequentOutputs);
    ReadHead(Between, head, run, ignoreSubsequentOutputs);
    var m := Reading(Between, head, ignoreSubsequentOutputs);
    NotDangling(Between, head, ignoreSubsequentOutputs);
    if Reads(m) { ReadRun(m, run, ignoreSubsequentOutputs); } else { SkipRun(m, run, ignoreSubsequentOutputs); }
  }

  lemma {:induction false} NotDangling(m: Mode, head: string, ignoreSubsequentOutputs: bool)
    requires (head == "" || head[|head| - 1] != '\\') && !m.Dangling?
    ensures !Reading(m, head, ignoreSubsequentOutputs).Dangling?
    decreases |head|, Rank(m)
  {
    if head != "" && !m.Stopped? {
      OnwardApart(m, head, "", ignoreSubsequentOutputs);
      var (m', n) := Onward(m, head, ignoreSubsequentOutputs);
      assert head != "\\";
      NotDangling(m', head[n..], ignoreSubsequentOutputs);
    }
  }

  /** On a text that does not end inside a backslash escape, the parser never reads beyond the end. */
  lemma NoOverrun(s: string, ignoreSubsequentOutputs: bool)
    requires FinalRun(s) % 2 == 0
    ensures ParseFrom(s, ignoreSubsequentOutputs).Some?
  {
    OverrunIff(s, ignoreSubsequentOutputs);
  }

  /** A text on which it does. */
  lemma Overruns(ignoreSubsequentOutputs: bool)
    ensures ParseFrom("a:\\", ignoreSubsequentOutputs).None?
  {
    var s := "a:\\";
    assert s[..2] == "a:" && "a:"[1..] == ":" && ":"[1..] == "";
    assert FinalRun(s) == 1;
    assert Reading(Dependencies, "", ignoreSubsequentOutputs) == Dependencies;
    assert Reading(AfterName, ":", ignoreSubsequentOutputs) == Dependencies;
    assert Reading(Name, ":", ignoreSubsequentOutputs) == Dependencies;
    assert Reading(Between, "a:", ignoreSubsequentOutputs) == Dependencies;
    OverrunIff(s, ignoreSubsequentOutputs);
  }

  // ---- The parser, with a cursor ----------------------------------------------------------------------

  lemma Cursor(data: string, cur: nat, n: nat)
    requires cur + n <= |data|
    ensures data[cur..][n..] == data[cur + n..] && (forall i :: cur + i < |data| && 0 <= i ==> data[cur..][i] == data[cur + i])
  {
  }

  method SkipCommentAt(data: string, start: nat) returns (cur: nat)
    requires start <= |data|
    ensures start <= cur <= |data| && data[cur..] == SkipComment(data[start..])
  {
    cur := start;
    while cur < |data| && data[cur] != '\n'
      invariant start <= cur <= |data|
      invariant SkipComment(data[cur..]) == SkipComment(data[start..])
    {
      Cursor(data, cur, 1);
      cur := cur + 1;
    }
  }

  method SkipWhitespaceAndCommentsAt(data: string, start: nat) returns (cur: nat)
    requires start <= |data|
    ensures start <= cur <= |data| && data[cur..] == SkipWhitespaceAndComments(data[start..])
  {
    hide SkipComment;
    cur := start;
    while cur < |data|
      invariant start <= cur <= |data|
      invariant SkipWhitespaceAndComments(data[cur..]) == SkipWhitespaceAndComments(data[start..])
    {
      Cursor(data, cur, 1);
      if data[cur] == '#' {
        cur := SkipCommentAt(data, cur + 1);
      } else if data[cur] == ' ' || data[cur] == '\t' || data[cur] == '\n' || data[cur] == '\r' {
        cur := cur + 1;
      } else {
        break;
      }
    }
  }

  method SkipNonNewlineWhitespaceAt(data: string, start: nat) returns (cur: nat)
    requires start <= |data|
    ensures start <= cur <= |data| && data[cur..] == SkipNonNewlineWhitespace(data[start..])
  {
    hide SkipNonNewlineWhitespace;
    cur := start;
    SkipsAt(data, cur);
    while cur < |data|
      invariant start <= cur <= |data|
      invariant SkipNonNewlineWhitespace(data[cur..]) == SkipNonNewlineWhitespace(data[start..])
      invariant cur == |data| ==> SkipNonNewlineWhitespace(data[cur..]) == data[cur..]
    {
      SkipsAt(data, cur);
      if data[cur] == ' ' || data[cur] == '\t' || data[cur] == '\r' {
        cur := cur + 1;
      } else if data[cur] == '\\' && cur + 1 < |data| && data[cur + 1] == '\n' {
        cur := cur + 2;
      } else if data[cur] == '\\' && cur + 2 < |data| && data[cur + 1] == '\r' && data[cur + 2] == '\n' {
        cur := cur + 3;
      } else {
        break;
      }
      SkipsAt(data, cur);
    }
  }

  /** One turn of the loop, in terms of the text from the cursor on. */
  lemma SkipsAt(data: string, cur: nat)
    requires cur <= |data|
    ensures var skip := SkipNonNewlineWhitespace(data[cur..]);
      skip ==
      if cur == |data| then data[cur..]
      else if data[cur] == ' ' || data[cur] == '\t' || data[cur] == '\r' then SkipNonNewlineWhitespace(data[cur + 1..])
      else if data[cur] == '\\' && cur + 1 < |data| && data[cur + 1] == '\n' then SkipNonNewlineWhitespace(data[cur + 2..])
      else if data[cur] == '\\' && cur + 2 < |data| && data[cur + 1] == '\r' && data[cur + 2] == '\n' then
        SkipNonNewlineWhitespace(data[cur + 3..])
      else data[cur..]
  {
    if cur < |data| { Cursor(data, cur, 1); }
    if cur + 1 < |data| { Cursor(data, cur, 2); }
    if cur + 2 < |data| { Cursor(data, cur, 3); }
  }

  method SkipToEndOfLineAt(data: string, start: nat) returns (cur: nat)
    requires start <= |data|
    ensures start <= cur <= |data| && data[cur..] == SkipToEndOfLine(data[start..])
  {
    cur := start;
    while cur < |data|
      invariant start <= cur <= |data|
      invariant SkipToEndOfLine(data[cur..]) == SkipToEndOfLine(data[start..])
    {
      Cursor(data, cur, 1);
      cur := cur + 1;
      if data[cur - 1] == '\n' { return; }
    }
  }

  /** What the lexer has found, in terms of the cursor. */
  function Result(data: string, ok: bool, cur: nat, word: string): Lexed
    requires cur <= |data|
  {
    if ok then Lexed(data[cur..], word) else Overrun
  }

  lemma PrependTwice(a: string, b: string, r: Lexed)
    ensures Prepend(a, Prepend(b, r)) == Prepend(a + b, r)
  {
    if r.Lexed? { assert a + (b + r.word) == a + b + r.word; }
  }

  /** One turn of the loop in `lexWord`: whether it stops, and what it reads and how far it goes. */
  datatype Turn = Stop | Fault | Read(part: string, n: nat)

  function TurnAt(data: string, cur: nat): (r: Turn)
    requires cur < |data|
    ensures r.Read? ==> 0 < r.n && cur + r.n <= |data|
  {
    if data[cur] == '\\' then
      if cur + 1 < |data| && data[cur + 1] == '\n' then Stop
      else if cur + 1 == |data| then Fault
      else Read(Unescape(data[cur + 1]), 2)
    else if data[cur] == '$' && cur + 1 < |data| && data[cur + 1] == '$' then Read("$", 2)
    else if !IsWordChar(data[cur]) then Stop
    else Read([data[cur]], 1)
  }

  lemma TurnIs(data: string, cur: nat)
    requires cur < |data|
    ensures LexWord(data[cur..]) == match TurnAt(data, cur)
      case Stop => Lexed(data[cur..], "")
      case Fault => Overrun
      case Read(part, n) => Prepend(part, LexWord(data[cur + n..]))
  {
    hide IsWordChar, Unescape;
    Cursor(data, cur, 1);
    if cur + 2 <= |data| { Cursor(data, cur, 2); }
  }

  method LexWordAt(data: string, start: nat) returns (ok: bool, cur: nat, word: string)
    requires start <= |data|
    ensures start <= cur <= |data| && Result(data, ok, cur, word) == LexWord(data[start..])
  {
    hide LexWord, TurnAt;
    ok, cur, word := true, start, "";
    PrependNothing(LexWord(data[start..]));
    while cur < |data|
      invariant start <= cur <= |data|
      invariant Prepend(word, LexWord(data[cur..])) == LexWord(data[start..])
      decreases |data| - cur
    {
      TurnIs(data, cur);
      match TurnAt(data, cur) {
        case Stop =>
          assert word + "" == word;
          return;
        case Fault => return false, cur, word;
        case Read(part, n) =>
          PrependTwice(word, part, LexWord(data[cur + n..]));
          word := word + part;
          cur := cur + n;
      }
    }
    LexAtEnd();
    assert data[cur..] == "" && word + "" == word;
  }

  lemma LexAtEnd()
    ensures LexWord("") == Lexed("", "")
  {
  }

  lemma PrependNothing(r: Lexed)
    ensures Prepend("", r) == r
  {
    if r.Lexed? { assert "" + r.word == r.word; }
  }

  method LexColonsAt(data: string, start: nat, first: string) returns (ok: bool, cur: nat, word: string)
    requires start <= |data|
    ensures start <= cur <= |data| && Result(data, ok, cur, word) == LexColons(data[start..], first)
  {
    hide LexWord;
    ok, cur, word := true, start, first;
    while cur < |data| && data[cur] == ':'
      invariant start <= cur <= |data|
      invariant LexColons(data[cur..], word) == LexColons(data[start..], first)
    {
      Cursor(data, cur, 1);
      var more;
      ok, cur, more := LexWordAt(data, cur + 1);
      if !ok { return; }
      word := word + ":" + more;
    }
  }

  lemma ReportTwice(a: seq<Event>, b: seq<Event>, r: Parsed)
    ensures Report(a, Report(b, r)) == Report(a + b, r)
  {
    if r.Parsed? { assert a + (b + r.events) == a + b + r.events; }
  }

  method ParseDependenciesAt(data: string, start: nat) returns (ok: bool, cur: nat, events: seq<Event>)
    requires start <= |data|
    ensures start <= cur <= |data| && ParseDependencies(data[start..]) == if ok then Parsed(events, data[cur..]) else Failed
  {
    hide LexWord, LexColons, SkipNonNewlineWhitespace, SkipToEndOfLine;
    ok, cur, events := true, start, [];
    assert Report([], ParseDependencies(data[start..])) == ParseDependencies(data[start..]) by { ReportNothing(ParseDependencies(data[start..])); }
    while cur < |data|
      invariant start <= cur <= |data|
      invariant Report(events, ParseDependencies(data[cur..])) == ParseDependencies(data[start..])
      decreases |data| - cur
    {
      var wordStart := SkipNonNewlineWhitespaceAt(data, cur);
      if wordStart == |data| || data[wordStart] == '\n' {
        cur := wordStart;
        assert events + [] == events;
        return;
      }
      var word, next;
      ok, next, word := LexWordAt(data, wordStart);
      if !ok { return; }
      if next == wordStart {
        assert |data[next..]| == |data[wordStart..]|;
        next := SkipToEndOfLineAt(data, next);
        ReportTwice(events, [Error], ParseDependencies(data[next..]));
        events := events + [Error];
      } else {
        ok, next, word := LexColonsAt(data, next, word);
        if !ok { return; }
        ReportTwice(events, [RuleDependency(word)], ParseDependencies(data[next..]));
        events := events + [RuleDependency(word)];
      }
      cur := next;
    }
    AtEnd();
    assert data[cur..] == "" && events + [] == events;
  }

  lemma ReportNothing(r: Parsed)
    ensures Report([], r) == r
  {
    if r.Parsed? { assert [] + r.events == r.events; }
  }

  lemma AtEnd()
    ensures ParseDependencies("") == Parsed([], "") && forall ignore: bool :: ParseFrom("", ignore) == Some([])
  {
  }

  lemma AfterTwice(a: seq<Event>, b: seq<Event>, r: Option<seq<Event>>)
    ensures After(a, After(b, r)) == After(a + b, r)
  {
    if r.Some? { assert a + (b + r.value) == a + b + r.value; }
  }

  lemma AfterNothing(r: Option<seq<Event>>)
    ensures After([], r) == r
  {
    if r.Some? { assert [] + r.value == r.value; }
  }

  /** `parse`: the events it reports; or it fails because the text ends inside an escape. */
  method Parse(data: string, ignoreSubsequentOutputs: bool) returns (ok: bool, events: seq<Event>)
    ensures ParseFrom(data, ignoreSubsequentOutputs) == if ok then Some(events) else None
  {
    hide LexWord, SkipNonNewlineWhitespace, SkipWhitespaceAndComments, SkipToEndOfLine, ParseDependencies;
    var cur := 0;
    ok, events := true, [];
    assert data[0..] == data;
    AfterNothing(ParseFrom(data, ignoreSubsequentOutputs));
    while cur < |data|
      invariant 0 <= cur <= |data|
      invariant After(events, ParseFrom(data[cur..], ignoreSubsequentOutputs)) == ParseFrom(data, ignoreSubsequentOutputs)
      decreases |data| - cur
    {
      var more, next;
      ok, more, next := ParseOne(data, cur, ignoreSubsequentOutputs);
      if !ok { return; }
      AfterTwice(events, more, if next.Some? then ParseFrom(data[next.value..], ignoreSubsequentOutputs) else Some([]));
      events := events + more;
      if next.None? {
        assert events + [] == events;
        return;
      }
      cur := next.value;
    }
    AtEnd();
    assert data[cur..] == "" && events + [] == events;
  }

  /** One turn of the loop: what it reports, and where it goes on. */
  method ParseOne(data: string, cur: nat, ignoreSubsequentOutputs: bool) returns (ok: bool, events: seq<Event>, next: Option<nat>)
    requires cur < |data|
    ensures next.Some? ==> cur < next.value <= |data|
    ensures ParseFrom(data[cur..], ignoreSubsequentOutputs) ==
      if !ok then None
      else After(events, if next.Some? then ParseFrom(data[next.value..], ignoreSubsequentOutputs) else Some([]))
  {
    hide LexWord, SkipNonNewlineWhitespace, SkipWhitespaceAndComments, SkipToEndOfLine, ParseDependencies;
    ok, events, next := true, [], None;
    var wordStart := SkipWhitespaceAndCommentsAt(data, cur);
    if wordStart == |data| {
      assert data[wordStart..] == "" && events + [] == [];
      return;
    }
    var at, name;
    ok, at, name := LexWordAt(data, wordStart);
    if !ok { return; }
    if at == wordStart {
      at := SkipToEndOfLineAt(data, at);
      return true, [Error], Some(at);
    }
    at := SkipNonNewlineWhitespaceAt(data, at);
    if at == |data| || data[at] != ':' {
      at := SkipToEndOfLineAt(data, at);
      return true, [RuleStart(name), Error, RuleEnd], Some(at);
    }
    Cursor(data, at, 1);
    var deps;
    ok, at, deps := ParseDependenciesAt(data, at + 1);
    if !ok { return; }
    events := [RuleStart(name)] + deps + [RuleEnd];
    if ignoreSubsequentOutputs {
      assert events + [] == events;
      return;
    }
    next := Some(at);
  }
}
