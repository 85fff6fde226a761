/** In-place normalisation of absolute paths (`Manifest::normalize_path`,
    lib/Ninja/Manifest.cpp:41-132), refining a definition by a stack of components. */
module PathNormalization {

  const SLASH: string := "/"

  /** A component that names something: not empty, not "." and not "..". */
  predicate Name(seg: string) {
    seg != "" && seg != "." && seg != ".." && '/' !in seg
  }

  predicate Names(stack: seq<string>) {
    forall c :: c in stack ==> Name(c)
  }

  // ---- The definition ---------------------------------------------------------------------------

  /** The position of the first slash, or the length of `s` if there is none. */
  function SegmentEnd(s: string): (n: nat)
    ensures n <= |s| && (n < |s| ==> s[n] == '/') && (forall i :: 0 <= i < n ==> s[i] != '/')
    ensures n < |s| <==> '/' in s
  {
    if s == "" || s[0] == '/' then 0 else SegmentEnd(s[1..]) + 1
  }

  /** What a component does to the directory reached: nothing, go up, or go down. */
  function Enter(stack: seq<string>, seg: string): seq<string> {
    if seg == "" || seg == "." then stack
    else if seg == ".." then (if stack == [] then [] else stack[..|stack| - 1])
    else stack + [seg]
  }

  function Tail(stack: seq<string>): string {
    if stack == [] then "" else Tail(stack[..|stack| - 1]) + stack[|stack| - 1] + SLASH
  }

  /** The text of a directory, with a slash at the end. */
  function Dir(stack: seq<string>): string {
    SLASH + Tail(stack)
  }

  /** The normal form of the path that goes on with `rest` from the directory `stack`. */
  function From(stack: seq<string>, rest: string): string
    decreases |rest|
  {
    var n := SegmentEnd(rest);
    var seg := rest[..n];
    if n < |rest| then From(Enter(stack, seg), rest[n + 1..])
    else if Name(seg) then Dir(stack) + seg
    else Dir(Enter(stack, seg))
  }

  function Normal(path: string): string
    requires path != "" && path[0] == '/'
  {
    From([], path[1..])
  }

  // ---- What the definition gives ------------------------------------------------------------------

  lemma SegmentIs(a: string, rest: string)
    requires '/' !in a
    ensures SegmentEnd(a) == |a| && SegmentEnd(a + SLASH + rest) == |a|
  {
    var s := a + SLASH + rest;
    var n := SegmentEnd(s);
    assert forall i :: 0 <= i < |a| ==> s[i] == a[i] && a[i] in a;
    assert s[|a|] == '/';
    assert n <= |a|;
  }

  /** The first component of a path that has one. */
  lemma First(stack: seq<string>, a: string, rest: string)
    requires '/' !in a
    ensures From(stack, a + SLASH + rest) == From(Enter(stack, a), rest)
    ensures Split(a + SLASH + rest) == [a] + Split(rest)
  {
    SegmentIs(a, rest);
    var t := a + SLASH + rest;
    assert t[..|a|] == a && t[|a| + 1..] == rest;
  }

  lemma TailPush(stack: seq<string>, c: string)
    ensures Tail(stack + [c]) == Tail(stack) + c + SLASH
  {
    assert (stack + [c])[..|stack|] == stack;
  }

  lemma EnterNames(stack: seq<string>, seg: string)
    requires Names(stack) && '/' !in seg
    ensures Names(Enter(stack, seg))
  {
  }

  /** The normal form is the text of a directory, with or without a name in it. */
  lemma {:induction false} FromIs(stack: seq<string>, rest: string) returns (dirs: seq<string>, last: string)
    requires Names(stack)
    ensures From(stack, rest) == Dir(dirs) + last && Names(dirs) && (last == "" || Name(last))
    decreases |rest|
  {
    hide Enter, Dir, Names, Name, SegmentEnd;
    var n := SegmentEnd(rest);
    var seg := rest[..n];
    EnterNames(stack, seg);
    if n < |rest| {
      dirs, last := FromIs(Enter(stack, seg), rest[n + 1..]);
    } else if Name(seg) {
      dirs, last := stack, seg;
    } else {
      dirs, last := Enter(stack, seg), "";
      assert Dir(dirs) + "" == Dir(dirs);
    }
  }

  /** Following the text of a directory leads to that directory. */
  lemma {:induction false} Follow(stack: seq<string>, rest: string)
    requires Names(stack)
    ensures From([], Tail(stack) + rest) == From(stack, rest)
    decreases |stack|
  {
    if stack == [] {
      assert Tail(stack) + rest == rest;
    } else {
      var front, c := stack[..|stack| - 1], stack[|stack| - 1];
      assert Name(c) && stack == front + [c];
      assert Tail(stack) + rest == Tail(front) + (c + SLASH + rest);
      Follow(front, c + SLASH + rest);
      First(front, c, rest);
    }
  }

  lemma {:induction false} FromLast(stack: seq<string>, last: string)
    requires last == "" || Name(last)
    ensures From(stack, last) == Dir(stack) + last
  {
    SegmentIs(last, "");
    assert last[..|last|] == last;
    if last == "" { assert Dir(stack) + last == Dir(stack); }
  }

  /** Normalising twice is the same as normalising once. */
  lemma Idempotent(path: string)
    requires path != "" && path[0] == '/'
    ensures var p := Normal(path); p != "" && p[0] == '/' && Normal(p) == p
  {
    var dirs, last := FromIs([], path[1..]);
    var p := Normal(path);
    assert p[1..] == Tail(dirs) + last;
    Follow(dirs, last);
    FromLast(dirs, last);
  }

  /** The components of a path: what lies between its slashes. */
  function Split(s: string): (r: seq<string>)
    ensures r != []
    decreases |s|
  {
    var n := SegmentEnd(s);
    if n < |s| then [s[..n]] + Split(s[n + 1..]) else [s]
  }

  lemma {:induction false} SplitTail(stack: seq<string>, rest: string)
    requires Names(stack)
    ensures Split(Tail(stack) + rest) == stack + Split(rest)
    decreases |stack|
  {
    hide Split, From;
    if stack == [] {
      assert Tail(stack) + rest == rest;
    } else {
      var front, c := stack[..|stack| - 1], stack[|stack| - 1];
      assert Name(c) && stack == front + [c];
      var t := c + SLASH + rest;
      assert Tail(stack) + rest == Tail(front) + t;
      SplitTail(front, t);
      First(front, c, rest);
    }
  }

  /** No component of a normal form is empty, "." or "..", except that the last is empty when
      the path ends with a slash. */
  lemma NoDots(path: string)
    requires path != "" && path[0] == '/'
    ensures Normal(path) != ""
    ensures var segs := Split(Normal(path)[1..]);
      && (forall i :: 0 <= i < |segs| - 1 ==> Name(segs[i]))
      && (segs[|segs| - 1] == "" || Name(segs[|segs| - 1]))
  {
    hide Tail, From, Split, Name;
    var dirs, last := FromIs([], path[1..]);
    assert Normal(path)[1..] == Tail(dirs) + last;
    SplitTail(dirs, last);
    SplitLast(last);
    var segs := Split(Normal(path)[1..]);
    assert segs == dirs + [last];
    forall i | 0 <= i < |segs| - 1 ensures Name(segs[i]) { assert segs[i] in dirs; }
  }

  lemma SplitLast(last: string)
    requires last == "" || Name(last)
    ensures Split(last) == [last]
  {
    SegmentIs(last, "");
  }

  // ---- What normalising does, as laws --------------------------------------------------------------

  /** The directory that is reached from `stack` along `a`. */
  function After(stack: seq<string>, a: string): seq<string>
    decreases |a|
  {
    var n := SegmentEnd(a);
    if n < |a| then After(Enter(stack, a[..n]), a[n + 1..]) else Enter(stack, a)
  }

  lemma {:induction false} FromAfter(stack: seq<string>, a: string, rest: string)
    ensures From(stack, a + SLASH + rest) == From(After(stack, a), rest)
    decreases |a|
  {
    hide Enter, From, Split;
    var n := SegmentEnd(a);
    var seg := a[..n];
    assert '/' !in seg;
    if n < |a| {
      var more := a[n + 1..];
      assert a + SLASH + rest == seg + SLASH + (more + SLASH + rest);
      First(stack, seg, more + SLASH + rest);
      FromAfter(Enter(stack, seg), more, rest);
    } else {
      assert seg == a;
      First(stack, a, rest);
    }
  }

  /** Whatever directory `a` leads to: an empty component or "." stays there. */
  lemma StayLaw(a: string, b: string)
    ensures Normal(SLASH + a + SLASH + SLASH + b) == Normal(SLASH + a + SLASH + b)
    ensures Normal(SLASH + a + "/./" + b) == Normal(SLASH + a + SLASH + b)
    ensures Normal(SLASH + a + "/.") == Normal(SLASH + a + SLASH)
  {
    hide From, Split, After;
    var stack := After([], a);
    Steps(a, SLASH + b);
    Steps(a, "./" + b);
    Steps(a, ".");
    Steps(a, b);
    Steps(a, "");
    assert SLASH + b == "" + SLASH + b && "./" + b == "." + SLASH + b;
    First(stack, "", b);
    First(stack, ".", b);
    Ends(stack);
    assert SLASH + a + SLASH + SLASH + b == SLASH + a + SLASH + (SLASH + b) && SLASH + a + "/./" + b == SLASH + a + SLASH + ("./" + b);
    assert SLASH + a + "/." == SLASH + a + SLASH + "." && SLASH + a + SLASH == SLASH + a + SLASH + "";
  }

  /** A name and ".." after it cancel each other. */
  lemma UpLaw(a: string, name: string, b: string)
    requires Name(name)
    ensures Normal(SLASH + a + SLASH + name + "/../" + b) == Normal(SLASH + a + SLASH + b)
    ensures Normal(SLASH + a + SLASH + name + "/..") == Normal(SLASH + a + SLASH)
  {
    hide From, Split, After;
    var stack := After([], a);
    var down := stack + [name];
    Steps(a, name + SLASH + (".." + SLASH + b));
    Steps(a, name + SLASH + "..");
    Steps(a, b);
    Steps(a, "");
    First(stack, name, ".." + SLASH + b);
    First(stack, name, "..");
    First(down, "..", b);
    assert Enter(stack, name) == down && Enter(down, "..") == stack;
    Ends(stack);
    Ends(down);
    assert SLASH + a + SLASH + name + "/../" + b == SLASH + a + SLASH + (name + SLASH + (".." + SLASH + b));
    assert SLASH + a + SLASH + name + "/.." == SLASH + a + SLASH + (name + SLASH + "..") && SLASH + a + SLASH == SLASH + a + SLASH + "";
  }

  /** There is nothing above the root. */
  lemma RootLaw(b: string)
    ensures Normal("/../" + b) == Normal(SLASH + b) && Normal("/..") == SLASH
  {
    hide From, Split;
    assert ("/../" + b)[1..] == ".." + SLASH + b && (SLASH + b)[1..] == b && "/.."[1..] == "..";
    First([], "..", b);
    Ends([]);
  }

  /** A path of names is left as it is. */
  lemma NamesLaw(dirs: seq<string>, last: string)
    requires Names(dirs) && (last == "" || Name(last))
    ensures Normal(Dir(dirs) + last) == Dir(dirs) + last
  {
    assert (Dir(dirs) + last)[1..] == Tail(dirs) + last;
    Follow(dirs, last);
    FromLast(dirs, last);
  }

  lemma Steps(a: string, rest: string)
    ensures Normal(SLASH + a + SLASH + rest) == From(After([], a), rest)
  {
    var path := SLASH + a + SLASH + rest;
    assert path[1..] == a + SLASH + rest;
    FromAfter([], a, rest);
  }

  lemma Ends(stack: seq<string>)
    ensures From(stack, "") == Dir(stack) && From(stack, ".") == Dir(stack)
    ensures From(stack, "..") == Dir(if stack == [] then [] else stack[..|stack| - 1])
  {
    SegmentIs("", "");
    SegmentIs(".", "");
    SegmentIs("..", "");
    assert "."[..1] == "." && ".."[..2] == ".." && ""[..0] == "";
  }

  // ---- The invariant of the loop ----------------------------------------------------------------------

  /** `out` has been written and `rest` is to be read, in the middle of the component that begins
      with `part`; that component is not "." or "..". */
  ghost predicate Reading(stack: seq<string>, part: string, out: string, rest: string) {
    && Names(stack) && '/' !in part && out == Dir(stack) + part
    && part + rest[..SegmentEnd(rest)] != "." && part + rest[..SegmentEnd(rest)] != ".."
  }

  lemma ReadChar(stack: seq<string>, part: string, out: string, rest: string)
    requires Reading(stack, part, out, rest) && rest != "" && rest[0] != '/'
    ensures Reading(stack, part + [rest[0]], out + [rest[0]], rest[1..])
    ensures part + rest == (part + [rest[0]]) + rest[1..]
  {
    var n := SegmentEnd(rest);
    assert n == SegmentEnd(rest[1..]) + 1;
    assert part + rest[..n] == (part + [rest[0]]) + rest[1..][..n - 1];
  }

  /** The directory reached when a slash is read. */
  function Reached(stack: seq<string>, part: string): seq<string> {
    if part == "" then stack else stack + [part]
  }

  /** What is written when a slash is read. */
  function Slashed(out: string): string {
    if out == "" || out[|out| - 1] != '/' then out + SLASH else out
  }

  lemma ReadSlash(stack: seq<string>, part: string, out: string, rest: string)
    requires Reading(stack, part, out, rest) && rest != "" && rest[0] == '/'
    ensures Slashed(out) == Dir(Reached(stack, part)) && Names(Reached(stack, part))
    ensures From(stack, part + rest) == From(Reached(stack, part), rest[1..])
  {
    hide From, Split, Dir;
    assert rest == SLASH + rest[1..];
    assert part + rest == part + SLASH + rest[1..];
    First(stack, part, rest[1..]);
    assert SegmentEnd(rest) == 0 && part + rest[..0] == part;
    if part == "" {
      DirEnds(stack);
      assert out == Dir(stack);
    } else {
      assert Name(part);
      EndsInName(stack, part);
    }
  }

  lemma EndsInName(stack: seq<string>, part: string)
    requires Name(part)
    ensures Slashed(Dir(stack) + part) == Dir(stack + [part])
  {
    hide Tail;
    var out := Dir(stack) + part;
    assert out[|out| - 1] == part[|part| - 1] && part[|part| - 1] in part;
    TailPush(stack, part);
    assert Slashed(out) == SLASH + (Tail(stack) + part + SLASH);
  }

  lemma DirEnds(stack: seq<string>)
    ensures |Dir(stack)| > 0 && Dir(stack)[|Dir(stack)| - 1] == '/'
  {
  }

  /** Going on after a slash with a component that is not "." or "..". */
  lemma StartReading(stack: seq<string>, rest: string)
    requires Names(stack) && rest[..SegmentEnd(rest)] != "." && rest[..SegmentEnd(rest)] != ".."
    ensures Reading(stack, "", Dir(stack), rest) && "" + rest == rest
  {
    assert Dir(stack) + "" == Dir(stack);
    assert "" + rest[..SegmentEnd(rest)] == rest[..SegmentEnd(rest)];
  }

  /** "./" and "../": the component is over, and the next thing to read is a slash. */
  lemma DotStep(stack: seq<string>, seg: string, rest: string)
    requires Names(stack) && (seg == "." || seg == "..") && rest != "" && rest[0] == '/'
    ensures From(stack, seg + rest) == From(Enter(stack, seg), "" + rest)
    ensures Names(Enter(stack, seg)) && Reading(Enter(stack, seg), "", Dir(Enter(stack, seg)), rest)
  {
    assert rest == SLASH + rest[1..];
    assert seg + rest == seg + SLASH + rest[1..];
    First(stack, seg, rest[1..]);
    assert "" + rest == "" + SLASH + rest[1..] && rest[..0] == "";
    First(Enter(stack, seg), "", rest[1..]);
    EnterNames(stack, seg);
    StartReading(Enter(stack, seg), rest);
  }

  /** "." and ".." at the end. */
  lemma DotEnd(stack: seq<string>, seg: string)
    requires seg == "" || seg == "." || seg == ".."
    ensures From(stack, seg) == Dir(Enter(stack, seg))
  {
    SegmentIs(seg, "");
    assert seg[..|seg|] == seg;
  }

  lemma FinishReading(stack: seq<string>, part: string, out: string)
    requires Reading(stack, part, out, "")
    ensures From(stack, part + "") == out
  {
    assert part + "" == part && part + ""[..0] == part;
    FromLast(stack, part);
  }

  /** Going up from a directory: the text up to the slash before the last. */
  lemma Up(stack: seq<string>)
    requires Names(stack) && stack != []
    ensures var front := stack[..|stack| - 1]; var c := stack[|stack| - 1];
      Dir(stack) == Dir(front) + c + SLASH && '/' !in c && c != "" && Enter(stack, "..") == front
  {
    var c := stack[|stack| - 1];
    assert c in stack && Name(c);
  }

  lemma Root(stack: seq<string>)
    requires Names(stack)
    ensures |Dir(stack)| <= 1 <==> stack == []
  {
    if stack != [] { Up(stack); }
  }

  /** The slash before the last component of a directory's text. */
  lemma Edge(stack: seq<string>) returns (edge: nat)
    requires Names(stack) && stack != []
    ensures var text := Dir(stack);
      && edge + 2 < |text| && text[edge] == '/' && (forall i :: edge < i < |text| - 1 ==> text[i] != '/')
      && text[..edge + 1] == Dir(Enter(stack, ".."))
  {
    Up(stack);
    var front, c := stack[..|stack| - 1], stack[|stack| - 1];
    DirEnds(front);
    edge := |Dir(front)| - 1;
    var text := Dir(front) + c + SLASH;
    forall i | edge < i < |text| - 1 ensures text[i] != '/' { assert text[i] == c[i - edge - 1] && text[i] in c; }
  }

  /** What lookahead shows about the component that begins `r`. */
  lemma NotDots(r: string)
    requires r == "" || r[0] != '.' || (|r| > 1 && r[1] != '/' && r[1] != '.') || (|r| > 2 && r[1] != '/' && r[2] != '/')
    ensures r[..SegmentEnd(r)] != "." && r[..SegmentEnd(r)] != ".."
  {
  }

  // ---- The algorithm --------------------------------------------------------------------------------------

  /** `out` has been written, `rest` is to be read, and `goal` is what will have been written. */
  ghost predicate Midway(stack: seq<string>, part: string, out: string, rest: string, goal: string) {
    Reading(stack, part, out, rest) && From(stack, part + rest) == goal
  }

  /** A slash has been written, and `rest` is to be read. */
  ghost predicate Entered(stack: seq<string>, out: string, rest: string, goal: string) {
    Names(stack) && out == Dir(stack) && From(stack, rest) == goal
  }

  lemma AtStart(path: string)
    requires path != "" && path[0] == '/'
    ensures Entered([], Slashed(""), path[1..], Normal(path))
  {
    assert "" + SLASH == Dir([]);
  }

  lemma AtChar(stack: seq<string>, part: string, out: string, rest: string, goal: string)
    requires Midway(stack, part, out, rest, goal) && rest != "" && rest[0] != '/'
    ensures Midway(stack, part + [rest[0]], out + [rest[0]], rest[1..], goal)
  {
    hide From;
    ReadChar(stack, part, out, rest);
  }

  lemma AtSlash(stack: seq<string>, part: string, out: string, rest: string, goal: string)
    requires Midway(stack, part, out, rest, goal) && rest != "" && rest[0] == '/'
    ensures Entered(Reached(stack, part), Slashed(out), rest[1..], goal)
  {
    hide From;
    ReadSlash(stack, part, out, rest);
  }

  lemma GoOn(stack: seq<string>, out: string, rest: string, goal: string)
    requires Entered(stack, out, rest, goal) && rest[..SegmentEnd(rest)] != "." && rest[..SegmentEnd(rest)] != ".."
    ensures Midway(stack, "", out, rest, goal)
  {
    hide From;
    StartReading(stack, rest);
  }

  lemma SkipDot(stack: seq<string>, out: string, rest: string, goal: string)
    requires Entered(stack, out, rest, goal) && rest != "" && rest[0] == '.' && (|rest| == 1 || rest[1] == '/')
    ensures Midway(stack, "", out, rest[1..], goal)
  {
    assert rest == "." + rest[1..];
    if |rest| == 1 {
      assert rest == "." && rest[1..] == "" && "" + "" == "";
      DotEnd(stack, ".");
      DotEnd(stack, "");
      StartReading(stack, "");
    } else {
      DotStep(stack, ".", rest[1..]);
    }
  }

  lemma KeepDot(stack: seq<string>, out: string, rest: string, goal: string)
    requires Entered(stack, out, rest, goal) && |rest| > 1 && rest[0] == '.' && rest[1] != '/' && rest[1] != '.'
    ensures Midway(stack, ".", out + ".", rest[1..], goal)
  {
    hide From;
    NotDots(rest);
    GoOn(stack, out, rest, goal);
    ReadChar(stack, "", out, rest);
    assert "" + [rest[0]] == "." && out + [rest[0]] == out + ".";
  }

  lemma GoneUp(stack: seq<string>, out: string, rest: string, goal: string, out': string)
    requires Entered(stack, out, rest, goal) && |rest| >= 2 && rest[..2] == ".." && out' == Dir(Enter(stack, ".."))
    ensures |rest| == 2 ==> out' == goal
    ensures |rest| > 2 && rest[2] == '/' ==> Midway(Enter(stack, ".."), "", out', rest[2..], goal)
  {
    assert rest == ".." + rest[2..];
    if |rest| == 2 {
      assert rest == "..";
      DotEnd(stack, "..");
    } else if rest[2] == '/' {
      DotStep(stack, "..", rest[2..]);
    }
  }

  lemma Over(stack: seq<string>, part: string, out: string, goal: string)
    requires Midway(stack, part, out, "", goal)
    ensures out == goal
  {
    FinishReading(stack, part, out);
  }

  lemma EndSlash(stack: seq<string>, out: string, goal: string)
    requires Entered(stack, out, "", goal)
    ensures out == goal
  {
    DotEnd(stack, "");
  }

  /** Moves back from the end of a directory's text to the end of its parent's. */
  method GoUp(a: array<char>, begin: nat, dst: nat, ghost stack: seq<string>) returns (r: nat)
    requires begin < dst <= a.Length && Names(stack) && a[begin..dst] == Dir(stack)
    modifies a
    ensures begin < r <= dst && a[begin..r] == Dir(Enter(stack, ".."))
    ensures a[..begin] == old(a[..begin]) && a[dst..] == old(a[dst..])
  {
    Root(stack);
    if dst - begin <= 1 {
      return dst;
    }
    ghost var edge := Edge(stack);
    ghost var text := a[begin..dst];
    hide Dir, Names, Enter;
    assert forall i :: 0 <= i < |text| ==> a[begin + i] == text[i];
    r := dst - 2;
    while r > begin
      invariant begin + edge <= r <= dst - 2
      invariant a[..] == old(a[..])
      decreases r
    {
      if a[r] == '/' {
        assert text[r - begin] == '/';
        r := r + 1;
        break;
      }
      assert text[r - begin] != '/';
      r := r - 1;
    }
    if r == begin {
      a[r] := '/';
      r := r + 1;
    }
    assert a[begin..r] == text[..edge + 1];
  }

  /** The rest of an iteration that has read a slash at `src`: looks ahead for "." and "..", and
      says where to read on, unless the end has been reached. */
  method AfterSlash(a: array<char>, begin: nat, src: nat, dst: nat, ghost stack: seq<string>, ghost goal: string)
    returns (src': nat, dst': nat, more: bool, ghost stack': seq<string>, ghost part': string)
    requires begin < dst <= src + 1 <= a.Length && Entered(stack, a[begin..dst], a[src + 1..], goal)
    modifies a
    ensures a[..begin] == old(a[..begin]) && begin <= dst' <= src' <= a.Length && src < src'
    ensures a[src'..] == old(a[src'..])
    ensures if more then Midway(stack', part', a[begin..dst'], a[src'..], goal) else a[begin..dst'] == goal
  {
    hide Midway, Entered, Dir, Enter, Names;
    var end := a.Length;
    ghost var out, rest := a[begin..dst], a[src + 1..];
    src', dst', more, stack', part' := src + 1, dst, true, stack, "";
    if src + 1 >= end {
      assert rest == "";
      EndSlash(stack, out, goal);
      more := false;
    } else if a[src + 1] != '.' {
      NotDots(rest);
      GoOn(stack, out, rest, goal);
    } else if src + 2 >= end || a[src + 2] == '/' {
      SkipDot(stack, out, rest, goal);
      src' := src + 2;
      assert a[src'..] == rest[1..];
    } else if a[src + 2] != '.' {
      KeepDot(stack, out, rest, goal);
      part' := ".";
      src' := src + 1;
      a[dst] := a[src'];
      dst', src' := dst + 1, src' + 1;
      assert a[begin..dst'] == out + "." && a[src'..] == rest[1..];
    } else if src + 3 < end && a[src + 3] != '/' {
      NotDots(rest);
      GoOn(stack, out, rest, goal);
    } else {
      src', dst', more, stack' := LeaveDirectory(a, begin, src, dst, stack, goal);
    }
  }

  /** "..", at the end or with a slash after it. */
  method LeaveDirectory(a: array<char>, begin: nat, src: nat, dst: nat, ghost stack: seq<string>, ghost goal: string)
    returns (src': nat, dst': nat, more: bool, ghost stack': seq<string>)
    requires begin < dst <= src + 1 && src + 2 < a.Length && Entered(stack, a[begin..dst], a[src + 1..], goal)
    requires a[src + 1] == '.' && a[src + 2] == '.' && (src + 3 < a.Length ==> a[src + 3] == '/')
    modifies a
    ensures a[..begin] == old(a[..begin]) && begin <= dst' <= src' <= a.Length && src < src'
    ensures a[src'..] == old(a[src'..])
    ensures if more then Midway(stack', "", a[begin..dst'], a[src'..], goal) else a[begin..dst'] == goal
  {
    hide Midway, Entered, Dir, Enter, Names;
    ghost var out, rest := a[begin..dst], a[src + 1..];
    assert rest[..2] == "..";
    EnteredDir(stack, out, rest, goal);
    dst' := GoUp(a, begin, dst, stack);
    GoneUp(stack, out, rest, goal, a[begin..dst']);
    src', more, stack' := src + 1, false, stack;
    if src + 3 < a.Length {
      stack', more := Enter(stack, ".."), true;
      src' := src + 3;
      assert a[src'..] == a[dst..][src' - dst..];
      assert a[src'..] == rest[2..];
    }
    assert a[src'..] == a[dst..][src' - dst..];
  }

  /** Writes the slash read at `src`, unless there is one already. */
  method WriteSlash(a: array<char>, begin: nat, src: nat, dst: nat) returns (dst': nat)
    requires begin <= dst <= src < a.Length
    modifies a
    ensures begin < dst' <= src + 1 && a[begin..dst'] == Slashed(old(a[begin..dst]))
    ensures a[..begin] == old(a[..begin]) && a[src + 1..] == old(a[src + 1..])
  {
    dst' := dst;
    if dst == begin || a[dst - 1] != '/' {
      a[dst] := '/';
      dst' := dst + 1;
      assert a[begin..dst'] == old(a[begin..dst]) + SLASH;
    }
  }

  /** Rewrites the path in `a` from `begin` on, in place, and returns where it now ends. What is
      written is the normal form; nothing before `begin` is touched. The read position is never
      overtaken by the write position. */
  method NormalizePath(a: array<char>, begin: nat) returns (dst: nat)
    requires begin < a.Length && a[begin] == '/'
    modifies a
    ensures begin <= dst <= a.Length && a[begin..dst] == Normal(old(a[begin..]))
    ensures a[..begin] == old(a[..begin])
  {
    hide Midway, Entered, Dir, Enter, Slashed, Reached, Names, Normal;
    ghost var goal := Normal(a[begin..]);
    ghost var stack: seq<string>, part: string := [], "";
    var end := a.Length;
    var src := begin;
    dst := begin;
    while src < end
      invariant begin <= dst <= src <= end
      invariant a[src..] == old(a[src..]) && a[..begin] == old(a[..begin])
      invariant (src == begin && dst == begin) || (src > begin && Midway(stack, part, a[begin..dst], a[src..], goal))
    {
      ghost var out, rest := a[begin..dst], a[src..];
      if a[src] != '/' {
        AtChar(stack, part, out, rest, goal);
        part := part + [a[src]];
        a[dst] := a[src];
        dst, src := dst + 1, src + 1;
        assert a[begin..dst] == out + [rest[0]] && a[src..] == rest[1..];
      } else {
        if src == begin {
          AtStart(rest);
          stack := [];
        } else {
          AtSlash(stack, part, out, rest, goal);
          stack := Reached(stack, part);
        }
        dst := WriteSlash(a, begin, src, dst);
        assert a[src + 1..] == rest[1..];
        var more;
        src, dst, more, stack, part := AfterSlash(a, begin, src, dst, stack, goal);
        if !more { return; }
      }
    }
    Over(stack, part, a[begin..dst], goal);
  }

  lemma EnteredDir(stack: seq<string>, out: string, rest: string, goal: string)
    requires Entered(stack, out, rest, goal)
    ensures Names(stack) && out == Dir(stack)
  {
  }
}
