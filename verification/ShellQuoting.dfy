/** Quoting for a POSIX shell (lib/Basic/ShellUtility.cpp:87-129), and how a shell reads such text:
    token recognition and quote removal, sections 2.2, 2.3 and 2.6.7 of the POSIX.1-2017 Shell
    Command Language, for the characters that are not left to expansions and operators. */
module ShellQuoting {
  import opened Options

  const TICK: string := "'"

  /** Written as it is. */
  predicate Safe(c: char) {
    'a' <= c <= 'z' || 'A' <= c <= 'Z' || '0' <= c <= '9' || c in "-_/:@#%+=.,"
  }

  predicate AllSafe(s: string) {
    forall i :: 0 <= i < |s| ==> Safe(s[i])
  }

  // ---- How a shell reads text -----------------------------------------------------------------

  predicate Blank(c: char) { c == ' ' || c == '\t' }

  /** Operators, expansions, patterns, double quotes and newlines: what they do is not modelled. */
  predicate Special(c: char) {
    c in "|&;<>()$`\"*?[~\n"
  }

  /** The position of the first single quote, or the length of `s` if there is none. */
  function Tick(s: string): (n: nat)
    ensures n <= |s| && (n < |s| ==> s[n] == '\'') && (forall i :: 0 <= i < n ==> s[i] != '\'')
    ensures n < |s| <==> '\'' in s
  {
    if s == "" || s[0] == '\'' then 0 else Tick(s[1..]) + 1
  }

  function Begun(word: Option<string>): string {
    if word.Some? then word.value else ""
  }

  /** The words of `s`, of which `word` has been read so far; None if a quote is not closed or
      something occurs that is not modelled. A '#' that begins a word begins a comment. */
  function Words(s: string, word: Option<string>): Option<seq<string>>
    decreases |s|
  {
    if s == "" then Some(if word.Some? then [word.value] else [])
    else if s[0] == '\'' then
      var n := Tick(s[1..]);
      if n == |s| - 1 then None else Words(s[n + 2..], Some(Begun(word) + s[1..n + 1]))
    else if s[0] == '\\' then
      if |s| == 1 then None
      else if s[1] == '\n' then Words(s[2..], word)
      else Words(s[2..], Some(Begun(word) + [s[1]]))
    else if Blank(s[0]) then
      var rest := Words(s[1..], None);
      if rest.Some? && word.Some? then Some([word.value] + rest.value) else rest
    else if Special(s[0]) then None
    else if s[0] == '#' && word.None? then (if '\n' in s then None else Some([]))
    else Words(s[1..], Some(Begun(word) + [s[0]]))
  }

  // ---- Quoting -----------------------------------------------------------------------------------

  /** The text that stands for `s` inside single quotes, with the closing quote. */
  function Closing(s: string): string {
    if s == "" then TICK
    else Escape(s[0]) + Closing(s[1..])
  }

  function Quoted(s: string): string {
    if AllSafe(s) then s else TICK + Closing(s)
  }

  /** How many single quotes there are in a text. */
  function Ticks(s: string): nat {
    if s == "" then 0 else Ticks(s[1..]) + if s[0] == '\'' then 1 else 0
  }

  lemma {:induction false} ClosingLength(s: string)
    ensures |Closing(s)| == |s| + 1 + 3 * Ticks(s)
  {
    if s != "" { ClosingLength(s[1..]); }
  }

  /** A word is written as it is exactly if it is made of letters, digits and certain marks. Otherwise
      quotes are put around it, and nothing is added but what its own single quotes need. */
  lemma AsItIsIff(s: string)
    ensures Quoted(s) == s <==>
      forall c :: c in s ==> 'a' <= c <= 'z' || 'A' <= c <= 'Z' || '0' <= c <= '9' || c in {'-', '_', '/', ':', '@', '#', '%', '+', '=', '.', ','}
    ensures Quoted(s) != s ==> |Quoted(s)| == |s| + 2 + 3 * Ticks(s)
  {
    ClosingLength(s);
    forall i | 0 <= i < |s| ensures s[i] in s {}
    Marks();
  }

  lemma Marks()
    ensures forall c :: c in "-_/:@#%+=.," <==> c in {'-', '_', '/', ':', '@', '#', '%', '+', '=', '.', ','}
  {
    var marks := "-_/:@#%+=.,";
    assert marks == ['-', '_', '/', ':', '@', '#', '%', '+', '=', '.', ','];
  }

  function FirstUnsafe(s: string): (n: nat)
    ensures n <= |s| && (n < |s| ==> !Safe(s[n])) && (forall i :: 0 <= i < n ==> Safe(s[i]))
  {
    if s == "" || !Safe(s[0]) then 0 else FirstUnsafe(s[1..]) + 1
  }

  lemma {:induction false} ClosingPlain(s: string, t: string)
    requires '\'' !in s
    ensures Closing(s + t) == s + Closing(t)
  {
    if s == "" {
      assert s + t == t;
    } else {
      assert s[0] in s;
      assert (s + t)[0] == s[0] && (s + t)[1..] == s[1..] + t;
      ClosingPlain(s[1..], t);
    }
  }

  /** Nothing before the first unsafe character is a quote. */
  lemma NoTickBefore(s: string, pos: nat, tick: nat)
    requires pos == FirstUnsafe(s) && tick == pos + Tick(s[pos..])
    ensures '\'' !in s[..tick] && tick <= |s|
  {
    hide Safe, FirstUnsafe;
    forall i | 0 <= i < tick ensures s[i] != '\'' {
      if i < pos { SafeIsPlain(s[i]); } else { assert s[i] == s[pos..][i - pos]; }
    }
  }

  lemma NotAllSafe(s: string, pos: nat)
    requires pos == FirstUnsafe(s)
    ensures AllSafe(s) <==> pos == |s|
  {
  }

  function Escape(c: char): string {
    if c == '\'' then "'\\''" else [c]
  }

  lemma ClosingStep(s: string, i: nat, r: string)
    requires i < |s|
    ensures r + Escape(s[i]) + Closing(s[i + 1..]) == r + Closing(s[i..])
  {
    assert s[i..][0] == s[i] && s[i..][1..] == s[i + 1..];
  }

  method ShellEscaped(s: string) returns (r: string)
    ensures r == Quoted(s)
  {
    hide Safe, Closing, AllSafe, Tick, FirstUnsafe;
    var pos := FirstUnsafe(s);
    NotAllSafe(s, pos);
    if pos == |s| { return s; }
    var tick := pos + Tick(s[pos..]);
    NoTickBefore(s, pos, tick);
    assert s == s[..tick] + s[tick..];
    ClosingPlain(s[..tick], s[tick..]);
    ClosingEnd();
    if tick == |s| {
      assert s[..tick] == s && s[tick..] == "";
      return TICK + s + TICK;
    }
    r := TICK + s[..tick];
    var i := tick;
    while i < |s|
      invariant tick <= i <= |s|
      invariant r + Closing(s[i..]) == TICK + Closing(s)
    {
      ClosingStep(s, i, r);
      if s[i] == '\'' { r := r + "'\\''"; } else { r := r + [s[i]]; }
      i := i + 1;
    }
    assert s[i..] == "";
    r := r + TICK;
  }

  lemma ClosingEnd()
    ensures Closing("") == TICK
  {
  }

  // ---- The round trip ------------------------------------------------------------------------------

  lemma SafeIsPlain(c: char)
    requires Safe(c)
    ensures c != '\'' && c != '\\' && !Blank(c) && !Special(c) && c != '\n'
  {
  }

  /** A text that needs no quotes, in the middle of a word. */
  lemma {:induction false} ReadSafe(s: string, t: string, w: string)
    requires AllSafe(s)
    ensures Words(s + t, Some(w)) == Words(t, Some(w + s))
    decreases |s|
  {
    if s == "" {
      assert s + t == t && w + s == w;
    } else {
      SafeIsPlain(s[0]);
      assert (s + t)[0] == s[0] && (s + t)[1..] == s[1..] + t;
      ReadSafe(s[1..], t, w + [s[0]]);
      assert w + [s[0]] + s[1..] == w + s;
    }
  }

  lemma ReadTicks(part: string, t: string, word: Option<string>)
    requires '\'' !in part
    ensures Words(TICK + part + TICK + t, word) == Words(t, Some(Begun(word) + part))
  {
    var s := TICK + part + TICK + t;
    var u := s[1..];
    assert u == part + TICK + t;
    TickIs(part, t);
    var n := |part|;
    assert s[n + 2..] == t && s[1..n + 1] == part;
    assert s[0] == '\'' && Tick(s[1..]) == n;
  }

  lemma TickIs(part: string, t: string)
    requires '\'' !in part
    ensures Tick(part + TICK + t) == |part|
  {
    var u := part + TICK + t;
    var n := Tick(u);
    assert forall i :: 0 <= i < |part| ==> u[i] == part[i] && part[i] in part;
    assert u[|part|] == '\'';
    assert n <= |part|;
  }

  lemma ReadEscapedTick(t: string, w: string)
    ensures Words("\\'" + t, Some(w)) == Words(t, Some(w + "'"))
  {
    var s := "\\'" + t;
    assert s[2..] == t;
  }

  lemma {:induction false} ClosingHead(s: string)
    ensures var n := Tick(s);
      Closing(s) == s[..n] + if n == |s| then TICK else "'\\''" + Closing(s[n + 1..])
  {
    var n := Tick(s);
    assert s == s[..n] + s[n..];
    ClosingPlain(s[..n], s[n..]);
    if n == |s| { assert s[n..] == ""; } else { assert s[n..][0] == '\'' && s[n..][1..] == s[n + 1..]; }
  }

  /** Quoted text is read as what it stands for. */
  lemma {:induction false} ReadClosing(s: string, t: string, word: Option<string>)
    ensures Words(TICK + Closing(s) + t, word) == Words(t, Some(Begun(word) + s))
    decreases |s|
  {
    hide Words, Closing;
    var n := Tick(s);
    ClosingHead(s);
    var part := s[..n];
    if n == |s| {
      assert part == s;
      assert TICK + (part + TICK) + t == TICK + part + TICK + t;
      ReadTicks(part, t, word);
    } else {
      var y := s[n + 1..];
      var w := Begun(word) + part;
      var u := TICK + Closing(y) + t;
      Regroup(part, Closing(y), t);
      ReadTicks(part, "\\'" + u, word);
      ReadEscapedTick(u, w);
      ReadClosing(y, t, Some(w + "'"));
      RegroupWord(s, n, Begun(word));
    }
  }

  lemma Regroup(part: string, closing: string, t: string)
    ensures TICK + (part + ("'\\''" + closing)) + t == TICK + part + TICK + ("\\'" + (TICK + closing + t))
  {
  }

  lemma RegroupWord(s: string, n: nat, begun: string)
    requires n < |s| && s[n] == '\''
    ensures begun + s[..n] + "'" + s[n + 1..] == begun + s
  {
    assert s == s[..n] + [s[n]] + s[n + 1..];
  }

  /** The exception: a word that is written as it is and begins a comment. */
  predicate LooksLikeComment(s: string) {
    s != "" && s[0] == '#' && AllSafe(s)
  }

  lemma ReadQuoted(s: string, t: string)
    requires s != "" && !LooksLikeComment(s)
    ensures Words(Quoted(s) + t, None) == Words(t, Some(s))
  {
    if AllSafe(s) {
      SafeIsPlain(s[0]);
      assert (s + t)[0] == s[0] && (s + t)[1..] == s[1..] + t;
      assert forall i :: 0 <= i < |s| - 1 ==> s[1..][i] == s[i + 1];
      ReadSafe(s[1..], t, [s[0]]);
      assert "" + [s[0]] == [s[0]] && [s[0]] + s[1..] == s;
    } else {
      ReadClosing(s, t, None);
      assert "" + s == s;
    }
  }

  /** A shell reads the quoted text as one word, the original, if and only if the original is
      not empty and does not look like a comment. */
  lemma OneWordIff(s: string)
    ensures Words(Quoted(s), None) == Some([s]) <==> s != "" && !LooksLikeComment(s)
  {
    assert Quoted(s) + "" == Quoted(s);
    if s != "" && !LooksLikeComment(s) {
      ReadQuoted(s, "");
    } else if s != "" {
      assert Words(s, None) == None || Words(s, None) == Some([]);
    }
  }

  // ---- Command lines -----------------------------------------------------------------------------------

  function Line(args: seq<string>): string {
    if args == [] then "" else Quoted(args[0]) + (if |args| == 1 then "" else " " + Line(args[1..]))
  }

  /** A list of such words, separated by spaces, is read as that list. */
  lemma {:induction false} LineRoundTrip(args: seq<string>)
    requires forall a :: a in args ==> a != "" && !LooksLikeComment(a)
    ensures Words(Line(args), None) == Some(args)
    decreases |args|
  {
    hide Quoted, LooksLikeComment;
    if args != [] {
      assert args[0] in args;
      assert args == [args[0]] + args[1..];
      if |args| == 1 {
        ReadQuoted(args[0], "");
        assert Quoted(args[0]) + "" == Quoted(args[0]);
        assert Words("", Some(args[0])) == Some([args[0]]);
        assert args == [args[0]] && Line(args) == Quoted(args[0]) + "";
      } else {
        assert forall a :: a in args[1..] ==> a in args;
        var rest := " " + Line(args[1..]);
        ReadQuoted(args[0], rest);
        LineRoundTrip(args[1..]);
        assert rest[1..] == Line(args[1..]);
        assert Words(rest, Some(args[0])) == Some([args[0]] + args[1..]);
      }
    }
  }
}
