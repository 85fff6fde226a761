/** The control channel of a subprocess (`ControlProtocolState`, lib/Basic/Subprocess.cpp:599-672):
    a version line and then one message line, arriving in chunks of any size. */
module ControlChannel {

  const VERSION: string := "llbuild.1"
  const NEWLINE: string := "\n"
  const MAX_LENGTH: nat := 16

  datatype Protocol = Protocol(negotiated: bool, partialMsg: string, releaseSeen: bool)

  const INITIAL: Protocol := Protocol(false, "", false)

  /** The position of the first newline, or the length of `buf` if there is none. */
  function LineEnd(buf: string): (n: nat)
    ensures n <= |buf| && (n < |buf| ==> buf[n] == '\n') && (forall i :: 0 <= i < n ==> buf[i] != '\n')
    ensures n < |buf| <==> '\n' in buf
  {
    if buf == "" || buf[0] == '\n' then 0 else LineEnd(buf[1..]) + 1
  }

  /** What `read` does with a chunk, and what it returns: 0 to go on, 1 when it has seen the
      message, -1 on a fault. */
  function Read(controlID: string, p: Protocol, buf: string): (Protocol, int)
    decreases |buf|
  {
    if buf == "" then (p, 0) else
    var nl := LineEnd(buf);
    if nl == |buf| then
      if |p.partialMsg| + |buf| > MAX_LENGTH then (p.(partialMsg := ""), -1)
      else (p.(partialMsg := p.partialMsg + buf), 0)
    else
      var msg := p.partialMsg + buf[..nl];
      if p.negotiated then (Protocol(true, "", p.releaseSeen || msg == controlID), 1)
      else if msg != VERSION then (p.(partialMsg := ""), -1)
      else Read(controlID, Protocol(true, "", p.releaseSeen), buf[nl + 1..])
  }

  class ControlProtocolState {
    const controlID: string
    var negotiated: bool
    var partialMsg: string
    var releaseSeen: bool

    ghost function View(): Protocol
      reads this
    {
      Protocol(negotiated, partialMsg, releaseSeen)
    }

    constructor (id: string)
      ensures View() == INITIAL && controlID == id
    {
      controlID := id;
      negotiated, partialMsg, releaseSeen := false, "", false;
    }

    method ReadChunk(chunk: string) returns (r: int)
      modifies this
      ensures (View(), r) == Read(controlID, old(View()), chunk)
    {
      var buf := chunk;
      while buf != ""
        invariant Read(controlID, View(), buf) == Read(controlID, old(View()), chunk)
        decreases |buf|
      {
        var nl := LineEnd(buf);
        if nl == |buf| {
          if |partialMsg| + |buf| > MAX_LENGTH {
            partialMsg := "";
            return -1;
          }
          partialMsg := partialMsg + buf;
          return 0;
        }
        partialMsg := partialMsg + buf[..nl];
        if !negotiated {
          if partialMsg != VERSION {
            partialMsg := "";
            return -1;
          }
          negotiated := true;
        } else {
          if partialMsg == controlID { releaseSeen := true; }
          partialMsg := "";
          return 1;
        }
        partialMsg := "";
        buf := buf[nl + 1..];
      }
      return 0;
    }
  }

  // ---- Streams --------------------------------------------------------------------------------

  /** What a process sends to be released. */
  function Release(controlID: string): string {
    VERSION + NEWLINE + controlID + NEWLINE
  }

  function Stream(chunks: seq<string>): string {
    if chunks == [] then "" else chunks[0] + Stream(chunks[1..])
  }

  /** Whether release is seen, when reading stops at the first chunk that does not return 0. */
  function Released(controlID: string, p: Protocol, chunks: seq<string>): bool
    decreases |chunks|
  {
    if chunks == [] then p.releaseSeen else
    var (p', r) := Read(controlID, p, chunks[0]);
    if r != 0 then p'.releaseSeen else Released(controlID, p', chunks[1..])
  }

  /** The identifiers that can be recognised: short enough, and on one line. */
  predicate GoodID(controlID: string) {
    |controlID| <= MAX_LENGTH && '\n' !in controlID
  }

  // ---- What has been read, and what it decides ----------------------------------------------------

  /** `sofar` has been read, and decides nothing yet. */
  ghost predicate Pending(p: Protocol, sofar: string) {
    && !p.releaseSeen && '\n' !in p.partialMsg
    && sofar == if p.negotiated then VERSION + NEWLINE + p.partialMsg else p.partialMsg
  }

  /** Whatever else is sent, the stream begins with a release if and only if `seen`. */
  ghost predicate Decided(controlID: string, sofar: string, seen: bool) {
    forall rest: string :: Release(controlID) <= sofar + rest <==> seen
  }

  /** A text that begins with the line `a` has its first newline there. */
  lemma FirstNewline(a: string, x: string)
    requires '\n' !in a
    ensures var s := a + NEWLINE + x; s[|a|] == '\n' && forall i :: 0 <= i < |a| ==> s[i] != '\n'
  {
    forall i | 0 <= i < |a| ensures (a + NEWLINE + x)[i] != '\n' { assert a[i] in a; }
  }

  /** Two texts that begin with a line each, and one begins with the other, begin with the same. */
  lemma SameLine(a: string, x: string, b: string, y: string)
    requires '\n' !in a && '\n' !in b
    ensures a + NEWLINE + x <= b + NEWLINE + y <==> a == b && x <= y
  {
    var s, t := a + NEWLINE + x, b + NEWLINE + y;
    FirstNewline(a, x);
    FirstNewline(b, y);
    if s <= t {
      assert t[|a|] == s[|a|];
      assert |b| <= |a|;
      assert s[|b|] == t[|b|];
      assert |a| == |b|;
      assert s[..|a|] == a && t[..|a|] == b;
      PrefixCancel(a + NEWLINE, x, y);
    } else if a == b {
      PrefixCancel(a + NEWLINE, x, y);
    }
  }

  lemma WrongVersion(controlID: string, line: string, more: string)
    requires '\n' !in line && line != VERSION
    ensures Decided(controlID, line + NEWLINE + more, false)
  {
    assert '\n' !in VERSION;
    forall rest: string ensures !(Release(controlID) <= line + NEWLINE + more + rest) {
      assert Release(controlID) == VERSION + NEWLINE + (controlID + NEWLINE);
      assert line + NEWLINE + more + rest == line + NEWLINE + (more + rest);
      SameLine(VERSION, controlID + NEWLINE, line, more + rest);
    }
  }

  /** Removing a common first line. */
  lemma AfterVersion(controlID: string, rest: string)
    ensures Release(controlID) <= VERSION + NEWLINE + rest <==> controlID + NEWLINE <= rest
  {
    var v := VERSION + NEWLINE;
    assert Release(controlID) == v + (controlID + NEWLINE);
    PrefixCancel(v, controlID + NEWLINE, rest);
  }

  lemma PrefixCancel(v: string, a: string, b: string)
    ensures v + a <= v + b <==> a <= b
  {
    if v + a <= v + b {
      forall i | 0 <= i < |a| ensures a[i] == b[i] { assert (v + a)[|v| + i] == (v + b)[|v| + i]; }
    }
  }

  lemma MessageDecides(controlID: string, line: string, more: string)
    requires '\n' !in line && '\n' !in controlID
    ensures Decided(controlID, VERSION + NEWLINE + line + NEWLINE + more, line == controlID)
  {
    var sofar := VERSION + NEWLINE + line + NEWLINE + more;
    forall rest: string ensures Release(controlID) <= sofar + rest <==> line == controlID {
      var tail := line + NEWLINE + (more + rest);
      assert sofar + rest == VERSION + NEWLINE + tail;
      AfterVersion(controlID, tail);
      assert controlID + NEWLINE + "" == controlID + NEWLINE;
      SameLine(controlID, "", line, more + rest);
    }
  }

  lemma TooLong(controlID: string, p: Protocol, sofar: string, more: string)
    requires GoodID(controlID) && Pending(p, sofar) && '\n' !in more && |p.partialMsg| + |more| > MAX_LENGTH
    ensures Decided(controlID, sofar + more, false)
  {
    var line := p.partialMsg + more;
    forall rest: string ensures !(Release(controlID) <= sofar + more + rest) {
      if p.negotiated {
        assert sofar + more + rest == VERSION + NEWLINE + (line + rest);
        AfterVersion(controlID, line + rest);
        assert controlID + NEWLINE + "" == controlID + NEWLINE;
        NoEarlyNewline(controlID, "", line, rest);
      } else {
        assert Release(controlID) == VERSION + NEWLINE + (controlID + NEWLINE);
        assert sofar + more + rest == line + rest;
        NoEarlyNewline(VERSION, controlID + NEWLINE, line, rest);
      }
    }
  }

  /** A text that goes on longer than `a` without a newline does not begin with the line `a`. */
  lemma NoEarlyNewline(a: string, x: string, line: string, rest: string)
    requires |a| < |line| && '\n' !in line
    ensures !(a + NEWLINE + x <= line + rest)
  {
    var s, t := a + NEWLINE + x, line + rest;
    assert s[|a|] == '\n';
    assert t[|a|] == line[|a|] && line[|a|] in line;
  }

  /** A text that begins with a whole line has a newline in it. */
  lemma HasNewline(a: string, x: string, t: string)
    ensures a + NEWLINE + x <= t ==> '\n' in t
  {
    var s := a + NEWLINE + x;
    assert s[|a|] == '\n';
    if s <= t { assert t[|a|] == s[|a|]; }
  }

  lemma NotYet(controlID: string, p: Protocol, sofar: string)
    requires Pending(p, sofar)
    ensures !(Release(controlID) <= sofar) && !p.releaseSeen
  {
    if p.negotiated {
      AfterVersion(controlID, p.partialMsg);
      assert controlID + NEWLINE + "" == controlID + NEWLINE;
      HasNewline(controlID, "", p.partialMsg);
    } else {
      assert Release(controlID) == VERSION + NEWLINE + (controlID + NEWLINE);
      HasNewline(VERSION, controlID + NEWLINE, p.partialMsg);
    }
  }

  lemma PartDecides(controlID: string, p: Protocol, sofar: string, buf: string)
    requires GoodID(controlID) && Pending(p, sofar) && buf != "" && LineEnd(buf) == |buf|
    ensures var (p', r) := Read(controlID, p, buf);
      if r == 0 then Pending(p', sofar + buf) else Decided(controlID, sofar + buf, p'.releaseSeen)
  {
    hide Decided, LineEnd, GoodID;
    ReadPart(controlID, p, buf);
    if |p.partialMsg| + |buf| > MAX_LENGTH {
      TooLong(controlID, p, sofar, buf);
      assert !p.releaseSeen;
    } else {
      hide Read;
      PendingMore(p, sofar, buf);
    }
  }

  lemma ReadPart(controlID: string, p: Protocol, buf: string)
    requires buf != "" && LineEnd(buf) == |buf|
    ensures '\n' !in buf
    ensures Read(controlID, p, buf) ==
      if |p.partialMsg| + |buf| > MAX_LENGTH then (p.(partialMsg := ""), -1) else (p.(partialMsg := p.partialMsg + buf), 0)
  {
  }

  lemma PendingMore(p: Protocol, sofar: string, buf: string)
    requires Pending(p, sofar) && '\n' !in buf
    ensures Pending(p.(partialMsg := p.partialMsg + buf), sofar + buf)
  {
    if p.negotiated { assert sofar + buf == VERSION + NEWLINE + (p.partialMsg + buf); }
  }

  /** A line is complete: it is the first, or the second. */
  lemma LineDecides(controlID: string, p: Protocol, sofar: string, part: string, more: string)
    requires GoodID(controlID) && Pending(p, sofar) && '\n' !in part
    ensures p.negotiated ==> Decided(controlID, sofar + (part + NEWLINE + more), p.partialMsg + part == controlID)
    ensures !p.negotiated && p.partialMsg + part != VERSION ==> Decided(controlID, sofar + (part + NEWLINE + more), false)
    ensures !p.negotiated && p.partialMsg + part == VERSION ==> sofar + (part + NEWLINE + more) == VERSION + NEWLINE + more
  {
    hide Decided;
    var msg := p.partialMsg + part;
    if p.negotiated {
      assert sofar + (part + NEWLINE + more) == VERSION + NEWLINE + msg + NEWLINE + more;
      MessageDecides(controlID, msg, more);
    } else {
      assert sofar + (part + NEWLINE + more) == msg + NEWLINE + more;
      if msg != VERSION { WrongVersion(controlID, msg, more); }
    }
  }

  lemma PendingVersion()
    ensures Pending(Protocol(true, "", false), VERSION + NEWLINE)
  {
    assert VERSION + NEWLINE + "" == VERSION + NEWLINE;
  }

  /** What has been sent after the version, if that is what comes first. */
  function AfterFirst(all: string): string {
    if VERSION + NEWLINE <= all then all[|VERSION| + 1..] else all
  }

  /** One on completion: the version and another line have been sent. */
  predicate IsComplete(all: string) {
    VERSION + NEWLINE <= all && '\n' in AfterFirst(all)
  }

  /** Minus one on error: another line came first, or an unfinished one is too long. */
  predicate IsFault(all: string) {
    (!(VERSION + NEWLINE <= all) && '\n' in all) || ('\n' !in AfterFirst(all) && |AfterFirst(all)| > MAX_LENGTH)
  }

  ghost predicate CodeMeans(all: string, r: int) {
    r == if IsComplete(all) then 1 else if IsFault(all) then -1 else 0
  }

  lemma AfterVersionIs(rest: string)
    ensures AfterFirst(VERSION + NEWLINE + rest) == rest && VERSION + NEWLINE <= VERSION + NEWLINE + rest
  {
  }

  lemma NoVersion(line: string, more: string)
    requires '\n' !in line
    ensures VERSION + NEWLINE <= line + NEWLINE + more <==> line == VERSION
  {
    assert '\n' !in VERSION && VERSION + NEWLINE + "" == VERSION + NEWLINE;
    SameLine(VERSION, "", line, more);
  }

  lemma VersionHasNewline(all: string)
    ensures VERSION + NEWLINE <= all ==> '\n' in all
  {
    if VERSION + NEWLINE <= all { assert all[|VERSION|] == '\n'; }
  }

  lemma PartMeans(controlID: string, p: Protocol, sofar: string, buf: string)
    requires Pending(p, sofar) && buf != "" && LineEnd(buf) == |buf|
    ensures CodeMeans(sofar + buf, Read(controlID, p, buf).1)
  {
    hide LineEnd;
    ReadPart(controlID, p, buf);
    hide Read;
    var msg := p.partialMsg + buf;
    assert '\n' !in msg;
    VersionHasNewline(msg);
    AfterVersionIs(msg);
    if p.negotiated { assert sofar + buf == VERSION + NEWLINE + msg; }
  }

  /** A line of its own. */
  lemma LineMeans(p: Protocol, sofar: string, part: string, more: string)
    requires Pending(p, sofar) && '\n' !in part
    ensures var all, msg := sofar + (part + NEWLINE + more), p.partialMsg + part;
      if p.negotiated then CodeMeans(all, 1)
      else if msg != VERSION then CodeMeans(all, -1)
      else all == VERSION + NEWLINE + more
  {
    var all, msg := sofar + (part + NEWLINE + more), p.partialMsg + part;
    var line := msg + NEWLINE + more;
    assert '\n' !in msg && line[|msg|] == '\n';
    if p.negotiated {
      assert all == VERSION + NEWLINE + line;
      AfterVersionIs(line);
    } else {
      assert all == line;
      NoVersion(msg, more);
    }
  }

  lemma ReadLineIs(controlID: string, p: Protocol, buf: string)
    requires LineEnd(buf) < |buf|
    ensures var n := LineEnd(buf);
      var msg := p.partialMsg + buf[..n];
      Read(controlID, p, buf).1 ==
        if p.negotiated then 1 else if msg != VERSION then -1 else Read(controlID, Protocol(true, "", p.releaseSeen), buf[n + 1..]).1
  {
    hide LineEnd;
  }

  /** The value returned says how far the conversation has got, whatever the identifier. */
  lemma {:induction false} ReadMeans(controlID: string, p: Protocol, sofar: string, buf: string)
    requires Pending(p, sofar) && buf != ""
    ensures CodeMeans(sofar + buf, Read(controlID, p, buf).1)
    decreases |buf|
  {
    hide LineEnd, CodeMeans, Read;
    var n := LineEnd(buf);
    if n == |buf| {
      PartMeans(controlID, p, sofar, buf);
    } else {
      var part, more := buf[..n], buf[n + 1..];
      assert buf == part + NEWLINE + more && '\n' !in part;
      ReadLineIs(controlID, p, buf);
      LineMeans(p, sofar, part, more);
      if !p.negotiated && p.partialMsg + part == VERSION { VersionThen(controlID, p, sofar, buf, more); }
    }
  }

  lemma {:induction false} VersionThen(controlID: string, p: Protocol, sofar: string, buf: string, more: string)
    requires Pending(p, sofar) && !p.negotiated && sofar + buf == VERSION + NEWLINE + more && |more| < |buf|
    ensures CodeMeans(sofar + buf, Read(controlID, Protocol(true, "", p.releaseSeen), more).1)
    decreases |buf|, 0
  {
    AfterVersionIs(more);
    if more != "" {
      assert VERSION + NEWLINE + "" == VERSION + NEWLINE;
      ReadMeans(controlID, Protocol(true, "", p.releaseSeen), VERSION + NEWLINE, more);
    }
  }

  /** Each chunk leaves the matter pending, or decides it rightly. */
  lemma {:induction false} ReadDecides(controlID: string, p: Protocol, sofar: string, buf: string)
    requires GoodID(controlID) && Pending(p, sofar)
    ensures var (p', r) := Read(controlID, p, buf);
      if r == 0 then Pending(p', sofar + buf) else Decided(controlID, sofar + buf, p'.releaseSeen)
    decreases |buf|
  {
    hide Decided;
    if buf == "" {
      assert sofar + buf == sofar;
    } else if LineEnd(buf) == |buf| {
      PartDecides(controlID, p, sofar, buf);
    } else {
      var nl := LineEnd(buf);
      var more := buf[nl + 1..];
      assert buf == buf[..nl] + NEWLINE + more;
      LineDecides(controlID, p, sofar, buf[..nl], more);
      PendingVersion();
      assert !p.releaseSeen;
      hide Pending;
      if !p.negotiated && p.partialMsg + buf[..nl] == VERSION {
        ReadDecides(controlID, Protocol(true, "", false), VERSION + NEWLINE, more);
      }
    }
  }

  lemma {:induction false} ReleasedFrom(controlID: string, p: Protocol, sofar: string, chunks: seq<string>)
    requires GoodID(controlID) && Pending(p, sofar)
    ensures Released(controlID, p, chunks) <==> Release(controlID) <= sofar + Stream(chunks)
    decreases |chunks|
  {
    hide Read, Decided, Release, Pending;
    if chunks == [] {
      assert sofar + Stream(chunks) == sofar;
      NotYet(controlID, p, sofar);
    } else {
      var (p', r) := Read(controlID, p, chunks[0]);
      ReadDecides(controlID, p, sofar, chunks[0]);
      var more := Stream(chunks[1..]);
      assert sofar + (chunks[0] + more) == sofar + chunks[0] + more;
      if r == 0 {
        ReleasedFrom(controlID, p', sofar + chunks[0], chunks[1..]);
      } else {
        DecidedSo(controlID, sofar + chunks[0], p'.releaseSeen, more);
      }
    }
  }

  lemma DecidedSo(controlID: string, sofar: string, seen: bool, rest: string)
    requires Decided(controlID, sofar, seen)
    ensures Release(controlID) <= sofar + rest <==> seen
  {
  }

  /** Release is seen exactly when the stream begins with one, however it is cut into chunks. */
  lemma FramingIgnoresChunks(controlID: string, chunks: seq<string>)
    requires GoodID(controlID)
    ensures Released(controlID, INITIAL, chunks) <==> Release(controlID) <= Stream(chunks)
  {
    ReleasedFrom(controlID, INITIAL, "", chunks);
    assert "" + Stream(chunks) == Stream(chunks);
  }

  // ---- Only for such identifiers -----------------------------------------------------------------------

  ghost predicate FramingWorks(controlID: string) {
    forall chunks :: Released(controlID, INITIAL, chunks) <==> Release(controlID) <= Stream(chunks)
  }

  lemma LineEndIs(a: string, rest: string)
    requires '\n' !in a
    ensures LineEnd(a + NEWLINE + rest) == |a|
  {
    FirstNewline(a, rest);
    var n := LineEnd(a + NEWLINE + rest);
    assert n <= |a|;
  }

  lemma VersionRead(controlID: string, rest: string)
    ensures Read(controlID, INITIAL, VERSION + NEWLINE + rest) == Read(controlID, Protocol(true, "", false), rest)
  {
    var buf := VERSION + NEWLINE + rest;
    LineEndIs(VERSION, rest);
    assert buf[..|VERSION|] == VERSION && buf[|VERSION| + 1..] == rest;
    assert INITIAL.partialMsg + VERSION == VERSION;
  }

  lemma LongFails(controlID: string)
    requires |controlID| > MAX_LENGTH && '\n' !in controlID
    ensures !FramingWorks(controlID)
  {
    var chunks := [VERSION + NEWLINE, controlID, NEWLINE];
    assert chunks[1..] == [controlID, NEWLINE] && chunks[1..][1..] == [NEWLINE] && chunks[1..][1..][1..] == [];
    assert Stream([NEWLINE]) == NEWLINE + Stream([]) == NEWLINE;
    assert Stream([controlID, NEWLINE]) == controlID + Stream([NEWLINE]);
    assert Stream(chunks) == Release(controlID);
    assert VERSION + NEWLINE + "" == VERSION + NEWLINE;
    VersionRead(controlID, "");
    assert Read(controlID, Protocol(true, "", false), controlID) == (Protocol(true, "", false), -1);
    assert !Released(controlID, INITIAL, chunks);
  }

  lemma TwoLinesFail(controlID: string)
    requires '\n' in controlID
    ensures !FramingWorks(controlID)
  {
    hide Read, FramingWorks, Released;
    var message := controlID + NEWLINE;
    assert Release(controlID) == VERSION + NEWLINE + message;
    VersionRead(controlID, message);
    OtherLineRead(controlID);
    OneChunk(controlID, Release(controlID));
    NotWorking(controlID, [Release(controlID)]);
  }

  lemma NotWorking(controlID: string, chunks: seq<string>)
    requires !Released(controlID, INITIAL, chunks) && Release(controlID) <= Stream(chunks)
    ensures !FramingWorks(controlID)
  {
    hide Released, Stream, Release;
  }

  lemma OneChunk(controlID: string, chunk: string)
    ensures Stream([chunk]) == chunk
    ensures Read(controlID, INITIAL, chunk).1 != 0 ==> Released(controlID, INITIAL, [chunk]) == Read(controlID, INITIAL, chunk).0.releaseSeen
  {
    hide Read;
    assert [chunk][1..] == [] && chunk + "" == chunk;
  }

  /** After the version, the first line is the message, and it is not the whole identifier. */
  lemma OtherLineRead(controlID: string)
    requires '\n' in controlID
    ensures Read(controlID, Protocol(true, "", false), controlID + NEWLINE) == (Protocol(true, "", false), 1)
  {
    hide Read, LineEnd;
    var n := LineEnd(controlID);
    var line, rest := controlID[..n], controlID[n + 1..] + NEWLINE;
    assert |line| < |controlID|;
    assert controlID + NEWLINE == line + NEWLINE + rest;
    MessageRead(controlID, line, rest);
  }

  lemma MessageRead(controlID: string, line: string, rest: string)
    requires '\n' !in line
    ensures Read(controlID, Protocol(true, "", false), line + NEWLINE + rest) == (Protocol(true, "", line == controlID), 1)
  {
    hide LineEnd;
    var buf := line + NEWLINE + rest;
    LineEndIs(line, rest);
    assert buf[..|line|] == line && "" + line == line;
  }

  /** The limit on identifiers is exact. */
  lemma FramingWorksIff(controlID: string)
    ensures FramingWorks(controlID) <==> GoodID(controlID)
  {
    if GoodID(controlID) {
      forall chunks ensures Released(controlID, INITIAL, chunks) <==> Release(controlID) <= Stream(chunks) {
        FramingIgnoresChunks(controlID, chunks);
      }
    } else if '\n' in controlID {
      TwoLinesFail(controlID);
    } else {
      LongFails(controlID);
    }
  }

  /** Reading all the chunks a process sends, as the poll loop does. */
  method Listen(controlID: string, chunks: seq<string>) returns (released: bool)
    requires GoodID(controlID)
    ensures released <==> Release(controlID) <= Stream(chunks)
  {
    var control := new ControlProtocolState(controlID);
    var i := 0;
    while i < |chunks|
      invariant 0 <= i <= |chunks| && control.controlID == controlID
      invariant Released(controlID, control.View(), chunks[i..]) == Released(controlID, INITIAL, chunks)
    {
      assert chunks[i..][0] == chunks[i] && chunks[i..][1..] == chunks[i + 1..];
      var r := control.ReadChunk(chunks[i]);
      if r != 0 { break; }
      i := i + 1;
    }
    released := control.releaseSeen;
    FramingIgnoresChunks(controlID, chunks);
  }
}
