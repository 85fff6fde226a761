/** What dependency files mean. A file is made of gaps, rules and faulty lines, and a word can be written
    in several ways. Whatever is written so is read back, and whatever is read was written so. */
module MakefileGrammar {
  import opened Options
  import opened MakefileDeps

  lemma Grouped(a: string, b: string, c: string)
    ensures a + b + c == a + (b + c)
  {
  }

  // ---- Words ---------------------------------------------------------------------------------------

  /** A part of a word as it is written: a character that stands for itself, a doubled dollar sign, a
      character that needs a backslash, or a backslash that stands for itself and the next character. */
  datatype Spelling = Plain(c: char) | Dollar | Escaped(c: char) | Bare(c: char)

  predicate Fine(p: Spelling) {
    match p
    case Plain(c) => c != '\0' && c != '\t' && c != '\r' && c != '\n' && c != ' ' && c != '$' && c != ':' && c != '\\'
    case Dollar => true
    case Escaped(c) => c == ' ' || c == '#' || c == '\\'
    case Bare(c) => c != ' ' && c != '#' && c != '\\' && c != '\n'
  }

  function Text(p: Spelling): (s: string)
    ensures s != ""
  {
    match p case Plain(c) => [c] case Dollar => "$$" case Escaped(c) => ['\\', c] case Bare(c) => ['\\', c]
  }

  function Meaning(p: Spelling): string {
    match p case Plain(c) => [c] case Dollar => "$" case Escaped(c) => [c] case Bare(c) => ['\\', c]
  }

  function TextOf(ps: seq<Spelling>): string {
    if ps == [] then "" else Text(ps[0]) + TextOf(ps[1..])
  }

  function MeaningOf(ps: seq<Spelling>): string {
    if ps == [] then "" else Meaning(ps[0]) + MeaningOf(ps[1..])
  }

  predicate AllFine(ps: seq<Spelling>) {
    forall p :: p in ps ==> Fine(p)
  }

  /** No word goes on here. */
  predicate Stops(t: string) {
    || t == "" || t[0] == '\0' || t[0] == '\t' || t[0] == '\r' || t[0] == '\n' || t[0] == ' ' || t[0] == ':'
    || (t[0] == '$' && !(|t| > 1 && t[1] == '$')) || (t[0] == '\\' && |t| > 1 && t[1] == '\n')
  }

  lemma LexStops(t: string)
    requires Stops(t)
    ensures LexWord(t) == Lexed(t, "")
  {
  }

  lemma LexOne(p: Spelling, t: string)
    requires Fine(p)
    ensures LexWord(Text(p) + t) == Prepend(Meaning(p), LexWord(t))
  {
    var s := Text(p) + t;
    if |Text(p)| == 2 { assert s[2..] == t; } else { assert s[1..] == t; }
  }

  /** However a word is written, it is read as what it means. */
  lemma {:induction false} LexSpelled(ps: seq<Spelling>, t: string)
    requires AllFine(ps) && Stops(t)
    ensures LexWord(TextOf(ps) + t) == Lexed(t, MeaningOf(ps))
    decreases |ps|
  {
    hide LexWord, Fine, Text, Meaning, Stops;
    if ps == [] {
      assert TextOf(ps) + t == t;
      LexStops(t);
    } else {
      assert TextOf(ps) + t == Text(ps[0]) + (TextOf(ps[1..]) + t);
      LexOne(ps[0], TextOf(ps[1..]) + t);
      LexSpelled(ps[1..], t);
    }
  }

  /** How the first part of a word is written. */
  lemma FirstPart(s: string) returns (p: Spelling, t: string)
    requires s != "" && !Stops(s) && LexWord(s).Lexed?
    ensures Fine(p) && s == Text(p) + t
  {
    if s[0] == '\\' {
      p, t := if s[1] == ' ' || s[1] == '#' || s[1] == '\\' then Escaped(s[1]) else Bare(s[1]), s[2..];
      assert s == [s[0], s[1]] + s[2..];
    } else if s[0] == '$' {
      p, t := Dollar, s[2..];
      assert s == "$$" + s[2..];
    } else {
      p, t := Plain(s[0]), s[1..];
    }
  }

  lemma {:induction false} Spelled(s: string) returns (ps: seq<Spelling>)
    requires LexWord(s).Lexed?
    ensures AllFine(ps) && s == TextOf(ps) + LexWord(s).rest && LexWord(s).word == MeaningOf(ps) && Stops(LexWord(s).rest)
    decreases |s|
  {
    if Stops(s) {
      ps := [];
      LexStops(s);
      assert s == TextOf(ps) + s;
    } else {
      var p, t := FirstPart(s);
      LexOne(p, t);
      hide LexWord, Fine, Text, Meaning, Stops;
      var more := Spelled(t);
      ps := [p] + more;
      assert ps[1..] == more && Text(p) + t == TextOf(ps) + LexWord(t).rest;
    }
  }

  /** A word is read from a text exactly if it is written there, and nothing after it belongs to it. */
  lemma LexWordIff(s: string, rest: string, word: string)
    ensures LexWord(s) == Lexed(rest, word)
      <==> exists ps :: AllFine(ps) && s == TextOf(ps) + rest && word == MeaningOf(ps) && Stops(rest)
  {
    hide LexWord, AllFine, TextOf, MeaningOf, Stops;
    if LexWord(s) == Lexed(rest, word) { var ps := Spelled(s); }
    forall ps | AllFine(ps) && s == TextOf(ps) + rest && word == MeaningOf(ps) && Stops(rest) ensures LexWord(s) == Lexed(rest, word) {
      LexSpelled(ps, rest);
    }
  }

  lemma {:induction false} TextTogether(ps: seq<Spelling>, qs: seq<Spelling>)
    ensures TextOf(ps + qs) == TextOf(ps) + TextOf(qs) && MeaningOf(ps + qs) == MeaningOf(ps) + MeaningOf(qs)
    decreases |ps|
  {
    hide Text, Meaning;
    if ps == [] {
      assert ps + qs == qs;
    } else {
      assert (ps + qs)[1..] == ps[1..] + qs;
      TextTogether(ps[1..], qs);
    }
  }

  /** A line that is continued with a carriage return before the newline is continued only after a blank.
      After a word the backslash and the carriage return belong to the word, and the line ends. */
  lemma ReturnBelongsToWord(ps: seq<Spelling>, t: string)
    requires AllFine(ps)
    ensures LexWord(TextOf(ps) + "\\\r\n" + t) == Lexed("\n" + t, MeaningOf(ps) + "\\\r")
  {
    var q := [Bare('\r')];
    TextTogether(ps, q);
    assert q[1..] == [] && TextOf(q) == "\\\r" && MeaningOf(q) == "\\\r";
    hide LexWord, TextOf, MeaningOf;
    assert TextOf(ps) + "\\\r\n" + t == TextOf(ps) + "\\\r" + ("\n" + t);
    LexSpelled(ps + q, "\n" + t);
  }

  // ---- Dependencies, which may have colons in them --------------------------------------------------

  /** Parts of a dependency, with colons between them. */
  datatype Written = Written(first: seq<Spelling>, more: seq<seq<Spelling>>)

  function ColonText(more: seq<seq<Spelling>>): string {
    if more == [] then "" else ":" + TextOf(more[0]) + ColonText(more[1..])
  }

  function ColonMeaning(more: seq<seq<Spelling>>): string {
    if more == [] then "" else ":" + MeaningOf(more[0]) + ColonMeaning(more[1..])
  }

  function WrittenText(w: Written): string { TextOf(w.first) + ColonText(w.more) }

  function WrittenMeaning(w: Written): string { MeaningOf(w.first) + ColonMeaning(w.more) }

  predicate FineWritten(w: Written) {
    w.first != [] && AllFine(w.first) && forall ps :: ps in w.more ==> AllFine(ps)
  }

  /** A dependency ends here. */
  predicate EndsDependency(t: string) {
    Stops(t) && (t == "" || t[0] != ':')
  }

  lemma ColonStops(more: seq<seq<Spelling>>, t: string)
    requires Stops(t)
    ensures Stops(ColonText(more) + t)
  {
    if more == [] { assert ColonText(more) + t == t; }
  }

  lemma {:induction false} LexColonsSpelled(more: seq<seq<Spelling>>, word: string, t: string)
    requires (forall ps :: ps in more ==> AllFine(ps)) && EndsDependency(t)
    ensures LexColons(ColonText(more) + t, word) == Lexed(t, word + ColonMeaning(more))
    decreases |more|
  {
    hide LexWord, AllFine, TextOf, MeaningOf, Stops;
    if more == [] {
      assert ColonText(more) + t == t && word + ColonMeaning(more) == word;
    } else {
      var u := ColonText(more[1..]) + t;
      var s := ColonText(more) + t;
      assert s[0] == ':' && s[1..] == TextOf(more[0]) + u;
      assert forall ps :: ps in more[1..] ==> ps in more;
      ColonStops(more[1..], t);
      LexSpelled(more[0], u);
      LexColonsSpelled(more[1..], word + ":" + MeaningOf(more[0]), t);
      assert word + ":" + MeaningOf(more[0]) + ColonMeaning(more[1..]) == word + ColonMeaning(more);
    }
  }

  lemma ColonStep(s: string, word: string)
    requires s != "" && s[0] == ':' && LexColons(s, word).Lexed?
    ensures LexWord(s[1..]).Lexed? && LexColons(s, word) == LexColons(LexWord(s[1..]).rest, word + ":" + LexWord(s[1..]).word)
  {
    hide LexWord;
  }

  lemma ColonMore(ps: seq<Spelling>, more: seq<seq<Spelling>>)
    ensures ColonText([ps] + more) == ":" + TextOf(ps) + ColonText(more)
    ensures ColonMeaning([ps] + more) == ":" + MeaningOf(ps) + ColonMeaning(more)
  {
    hide TextOf, MeaningOf;
    assert ([ps] + more)[1..] == more;
  }

  lemma AtColon(s: string, u: string, a: string, b: string, end: string)
    requires s == ":" + u && u == a + (b + end)
    ensures s == ":" + a + b + end
  {
    Grouped(":" + a, b, end);
    Grouped(":", a, b + end);
  }

  lemma {:induction false} ColonsSpelled(s: string, word: string) returns (more: seq<seq<Spelling>>)
    requires LexColons(s, word).Lexed? && Stops(s)
    ensures (forall ps :: ps in more ==> AllFine(ps)) && s == ColonText(more) + LexColons(s, word).rest
    ensures EndsDependency(LexColons(s, word).rest) && LexColons(s, word).word == word + ColonMeaning(more)
    decreases |s|
  {
    if s == "" || s[0] != ':' {
      hide Stops;
      more := [];
      assert s == ColonText(more) + s && word + ColonMeaning(more) == word;
    } else {
      hide LexWord, LexColons, AllFine, TextOf, MeaningOf, Stops, ColonText, ColonMeaning;
      ColonStep(s, word);
      var u := s[1..];
      var ps := Spelled(u);
      var r := LexWord(u);
      var tail := ColonsSpelled(r.rest, word + ":" + r.word);
      more := [ps] + tail;
      ColonMore(ps, tail);
      AtColon(s, u, TextOf(ps), ColonText(tail), LexColons(s, word).rest);
      Grouped(word + ":", r.word, ColonMeaning(tail));
      Grouped(word, ":", r.word + ColonMeaning(tail));
      Grouped(":", r.word, ColonMeaning(tail));
    }
  }

  // ---- Blanks and gaps ----------------------------------------------------------------------------------

  /** What separates words on a line; a line may go on after a backslash. */
  datatype Blank = Space | Tab | Return | Continued | ReturnContinued

  function BlankText(b: Blank): string {
    match b case Space => " " case Tab => "\t" case Return => "\r" case Continued => "\\\n" case ReturnContinued => "\\\r\n"
  }

  function BlanksText(bs: seq<Blank>): string {
    if bs == [] then "" else BlankText(bs[0]) + BlanksText(bs[1..])
  }

  predicate NoBlank(t: string) {
    t == "" || (t[0] != ' ' && t[0] != '\t' && t[0] != '\r' && !("\\\n" <= t) && !("\\\r\n" <= t))
  }

  lemma BlankFirst(b: Blank, t: string)
    ensures SkipNonNewlineWhitespace(BlankText(b) + t) == SkipNonNewlineWhitespace(t)
  {
    var s := BlankText(b) + t;
    assert s[|BlankText(b)|..] == t;
  }

  lemma {:induction false} SkipBlanks(bs: seq<Blank>, t: string)
    requires NoBlank(t)
    ensures SkipNonNewlineWhitespace(BlanksText(bs) + t) == t
    decreases |bs|
  {
    if bs == [] {
      assert BlanksText(bs) + t == t;
    } else {
      hide SkipNonNewlineWhitespace, BlankText, NoBlank;
      assert BlanksText(bs) + t == BlankText(bs[0]) + (BlanksText(bs[1..]) + t);
      BlankFirst(bs[0], BlanksText(bs[1..]) + t);
      SkipBlanks(bs[1..], t);
    }
  }

  lemma FirstBlank(s: string) returns (b: Blank, t: string)
    requires !NoBlank(s)
    ensures s == BlankText(b) + t
  {
    if s[0] == ' ' {
      b, t := Space, s[1..];
    } else if s[0] == '\t' {
      b, t := Tab, s[1..];
    } else if s[0] == '\r' {
      b, t := Return, s[1..];
    } else if "\\\n" <= s {
      b, t := Continued, s[2..];
    } else {
      b, t := ReturnContinued, s[3..];
    }
  }

  lemma {:induction false} BlanksOf(s: string) returns (bs: seq<Blank>)
    ensures s == BlanksText(bs) + SkipNonNewlineWhitespace(s) && NoBlank(SkipNonNewlineWhitespace(s))
    decreases |s|
  {
    if NoBlank(s) {
      bs := [];
      SkipBlanks(bs, s);
      assert s == BlanksText(bs) + s;
    } else {
      var b, t := FirstBlank(s);
      BlankFirst(b, t);
      assert |t| < |s|;
      hide SkipNonNewlineWhitespace, BlankText, NoBlank;
      var more := BlanksOf(t);
      bs := [b] + more;
      assert bs[1..] == more && BlankText(b) + t == BlanksText(bs) + SkipNonNewlineWhitespace(t);
    }
  }

  /** What separates rules: white space, and comments that go to the end of the line. */
  datatype Gap = White(c: char) | Remark(text: string)

  predicate EndsLine(t: string) { t == "" || t[0] == '\n' }

  function GapText(g: Gap): (s: string)
    ensures s != ""
  {
    match g case White(c) => [c] case Remark(text) => "#" + text
  }

  function GapsText(gs: seq<Gap>): string {
    if gs == [] then "" else GapText(gs[0]) + GapsText(gs[1..])
  }

  predicate FineGap(g: Gap, t: string) {
    match g
    case White(c) => c == ' ' || c == '\t' || c == '\n' || c == '\r'
    case Remark(text) => '\n' !in text && EndsLine(t)
  }

  predicate FineGaps(gs: seq<Gap>, t: string) {
    gs == [] || (FineGap(gs[0], GapsText(gs[1..]) + t) && FineGaps(gs[1..], t))
  }

  predicate NoGap(t: string) {
    t == "" || (t[0] != '#' && t[0] != ' ' && t[0] != '\t' && t[0] != '\n' && t[0] != '\r')
  }

  lemma {:induction false} SkipRemark(text: string, t: string)
    requires '\n' !in text && EndsLine(t)
    ensures SkipComment(text + t) == t
    decreases |text|
  {
    if text == "" {
      assert text + t == t;
    } else {
      assert (text + t)[1..] == text[1..] + t && (text + t)[0] == text[0];
      SkipRemark(text[1..], t);
    }
  }

  lemma GapFirst(g: Gap, t: string)
    requires FineGap(g, t)
    ensures SkipWhitespaceAndComments(GapText(g) + t) == SkipWhitespaceAndComments(t)
  {
    var s := GapText(g) + t;
    match g {
      case White(c) => assert s[1..] == t;
      case Remark(text) =>
        assert s[1..] == text + t;
        SkipRemark(text, t);
    }
  }

  lemma {:induction false} SkipGaps(gs: seq<Gap>, t: string)
    requires FineGaps(gs, t) && NoGap(t)
    ensures SkipWhitespaceAndComments(GapsText(gs) + t) == t
    decreases |gs|
  {
    if gs == [] {
      assert GapsText(gs) + t == t;
    } else {
      hide SkipWhitespaceAndComments, GapText, NoGap, FineGap;
      assert GapsText(gs) + t == GapText(gs[0]) + (GapsText(gs[1..]) + t);
      GapFirst(gs[0], GapsText(gs[1..]) + t);
      SkipGaps(gs[1..], t);
    }
  }

  lemma {:induction false} RemarkOf(s: string) returns (text: string)
    ensures s == text + SkipComment(s) && '\n' !in text && EndsLine(SkipComment(s))
    decreases |s|
  {
    if EndsLine(s) {
      text := "";
      assert s == text + s;
    } else {
      var more := RemarkOf(s[1..]);
      text := [s[0]] + more;
      assert s == [s[0]] + s[1..];
    }
  }

  lemma FirstGap(s: string) returns (g: Gap, t: string)
    requires !NoGap(s)
    ensures s == GapText(g) + t && FineGap(g, t)
  {
    if s[0] == '#' {
      var text := RemarkOf(s[1..]);
      g, t := Remark(text), SkipComment(s[1..]);
      assert s == "#" + s[1..];
    } else {
      g, t := White(s[0]), s[1..];
    }
  }

  lemma {:induction false} GapsOf(s: string) returns (gs: seq<Gap>)
    ensures s == GapsText(gs) + SkipWhitespaceAndComments(s) && FineGaps(gs, SkipWhitespaceAndComments(s)) && NoGap(SkipWhitespaceAndComments(s))
    decreases |s|
  {
    if NoGap(s) {
      gs := [];
      SkipGaps(gs, s);
      assert s == GapsText(gs) + s;
    } else {
      var g, t := FirstGap(s);
      GapFirst(g, t);
      hide SkipWhitespaceAndComments, GapText, NoGap, FineGap;
      var more := GapsOf(t);
      gs := [g] + more;
      assert gs[1..] == more && GapText(g) + t == GapsText(gs) + SkipWhitespaceAndComments(t);
    }
  }

  // ---- Faults ------------------------------------------------------------------------------------------

  /** The rest of a line that is given up, with the newline unless the text ends there. */
  datatype Junk = Junk(text: string, ended: bool)

  function JunkText(j: Junk): string { if j.ended then j.text + "\n" else j.text }

  predicate FineJunk(j: Junk, t: string) {
    '\n' !in j.text && (!j.ended ==> t == "")
  }

  lemma {:induction false} SkipLine(text: string, t: string)
    requires '\n' !in text
    ensures SkipToEndOfLine(text + "\n" + t) == t && SkipToEndOfLine(text) == ""
    decreases |text|
  {
    var s := text + "\n" + t;
    if text == "" {
      assert s[0] == '\n' && s[1..] == t;
    } else {
      assert s[0] == text[0] && s[1..] == text[1..] + "\n" + t;
      SkipLine(text[1..], t);
    }
  }

  lemma SkipJunk(j: Junk, t: string)
    requires FineJunk(j, t)
    ensures SkipToEndOfLine(JunkText(j) + t) == t
  {
    SkipLine(j.text, t);
    if !j.ended { assert JunkText(j) + t == j.text; }
  }

  lemma {:induction false} JunkOf(s: string) returns (j: Junk)
    ensures s == JunkText(j) + SkipToEndOfLine(s) && FineJunk(j, SkipToEndOfLine(s))
    decreases |s|
  {
    if s == "" {
      j := Junk("", false);
    } else if s[0] == '\n' {
      j := Junk("", true);
      assert s == "" + "\n" + s[1..];
    } else {
      var more := JunkOf(s[1..]);
      j := Junk([s[0]] + more.text, more.ended);
      assert s == [s[0]] + s[1..] && JunkText(j) == [s[0]] + JunkText(more);
    }
  }

  // ---- The dependencies of a rule --------------------------------------------------------------------------

  /** After blanks: a dependency, or something no word can begin with, which costs the rest of the line. */
  datatype Item = Depends(blanks: seq<Blank>, word: Written) | Stray(blanks: seq<Blank>, junk: Junk)

  function ItemText(i: Item): string {
    match i
    case Depends(blanks, word) => BlanksText(blanks) + WrittenText(word)
    case Stray(blanks, junk) => BlanksText(blanks) + JunkText(junk)
  }

  function ItemsText(items: seq<Item>, t: string): string {
    if items == [] then t else ItemText(items[0]) + ItemsText(items[1..], t)
  }

  /** An item before the text `t`. */
  predicate FineItem(i: Item, t: string) {
    match i
    case Depends(_, word) => FineWritten(word) && NoBlank(WrittenText(word) + t) && EndsDependency(t)
    case Stray(_, junk) =>
      FineJunk(junk, t) && NoBlank(JunkText(junk) + t) && Stops(JunkText(junk) + t) && !EndsLine(JunkText(junk) + t)
  }

  predicate FineItems(items: seq<Item>, t: string) {
    items == [] || (FineItem(items[0], ItemsText(items[1..], t)) && FineItems(items[1..], t))
  }

  function ItemEvent(i: Item): Event {
    match i case Depends(_, word) => RuleDependency(WrittenMeaning(word)) case Stray(_, _) => Error
  }

  function ItemEvents(items: seq<Item>): seq<Event> {
    if items == [] then [] else [ItemEvent(items[0])] + ItemEvents(items[1..])
  }

  lemma WrittenBegins(w: Written, t: string)
    requires FineWritten(w)
    ensures !EndsLine(WrittenText(w) + t) && |ColonText(w.more) + t| < |WrittenText(w) + t|
    ensures WrittenText(w) + t == TextOf(w.first) + (ColonText(w.more) + t)
  {
    var s := WrittenText(w) + t;
    var p := w.first[0];
    assert Fine(p) && s[0] == Text(p)[0];
  }

  /** One turn of the loop over dependencies. */
  lemma DependsTurn(s: string, s1: string, s2: string, first: string, word: string, t: string)
    requires SkipNonNewlineWhitespace(s) == s1 && !EndsLine(s1) && LexWord(s1) == Lexed(s2, first) && |s2| < |s1|
    requires LexColons(s2, first) == Lexed(t, word)
    ensures ParseDependencies(s) == Report([RuleDependency(word)], ParseDependencies(t))
  {
    hide SkipNonNewlineWhitespace, LexWord, LexColons, SkipToEndOfLine;
  }

  lemma StrayTurn(s: string, s1: string, t: string)
    requires SkipNonNewlineWhitespace(s) == s1 && !EndsLine(s1) && LexWord(s1) == Lexed(s1, "") && SkipToEndOfLine(s1) == t
    ensures ParseDependencies(s) == Report([Error], ParseDependencies(t))
  {
    hide SkipNonNewlineWhitespace, LexWord, LexColons, SkipToEndOfLine;
  }

  lemma ReadDepends(blanks: seq<Blank>, word: Written, t: string)
    requires FineItem(Depends(blanks, word), t)
    ensures ParseDependencies(BlanksText(blanks) + WrittenText(word) + t) == Report([RuleDependency(WrittenMeaning(word))], ParseDependencies(t))
  {
    hide ParseDependencies, LexWord, LexColons, SkipNonNewlineWhitespace, BlanksText, TextOf, MeaningOf, ColonText, ColonMeaning, Stops, NoBlank, AllFine, EndsLine;
    var s1, s2 := WrittenText(word) + t, ColonText(word.more) + t;
    WrittenBegins(word, t);
    ColonStops(word.more, t);
    LexSpelled(word.first, s2);
    LexColonsSpelled(word.more, MeaningOf(word.first), t);
    Grouped(BlanksText(blanks), WrittenText(word), t);
    SkipBlanks(blanks, s1);
    hide WrittenText;
    DependsTurn(BlanksText(blanks) + s1, s1, s2, MeaningOf(word.first), WrittenMeaning(word), t);
  }

  lemma ReadStray(blanks: seq<Blank>, junk: Junk, t: string)
    requires FineItem(Stray(blanks, junk), t)
    ensures ParseDependencies(BlanksText(blanks) + JunkText(junk) + t) == Report([Error], ParseDependencies(t))
  {
    hide ParseDependencies, LexWord, SkipNonNewlineWhitespace, SkipToEndOfLine, BlanksText, Stops, NoBlank, JunkText, EndsLine;
    var s1 := JunkText(junk) + t;
    LexStops(s1);
    SkipJunk(junk, t);
    Grouped(BlanksText(blanks), JunkText(junk), t);
    SkipBlanks(blanks, s1);
    StrayTurn(BlanksText(blanks) + s1, s1, t);
  }

  lemma ReadItem(i: Item, t: string)
    requires FineItem(i, t)
    ensures ParseDependencies(ItemText(i) + t) == Report([ItemEvent(i)], ParseDependencies(t))
  {
    hide FineItem, ParseDependencies, BlanksText, WrittenText, JunkText;
    match i case Depends(blanks, word) => ReadDepends(blanks, word, t); case Stray(blanks, junk) => ReadStray(blanks, junk, t);
  }

  lemma {:induction false} ReadItems(items: seq<Item>, t: string)
    requires FineItems(items, t)
    ensures ParseDependencies(ItemsText(items, t)) == Report(ItemEvents(items), ParseDependencies(t))
    decreases |items|
  {
    hide FineItem, ParseDependencies, ItemText, ItemEvent;
    if items == [] {
      ReportNothing(ParseDependencies(t));
    } else {
      ReadItem(items[0], ItemsText(items[1..], t));
      ReadItems(items[1..], t);
      ReportTwice([ItemEvent(items[0])], ItemEvents(items[1..]), ParseDependencies(t));
    }
  }

  lemma ReadTrail(trail: seq<Blank>, t: string)
    requires EndsLine(t)
    ensures ParseDependencies(BlanksText(trail) + t) == Parsed([], t)
  {
    hide LexWord, LexColons, BlanksText;
    SkipBlanks(trail, t);
    hide SkipNonNewlineWhitespace;
  }

  /** Whatever the parser makes of the text after a colon, it is written so. */
  lemma {:induction false} ItemsOf(s: string) returns (items: seq<Item>, trail: seq<Blank>)
    requires ParseDependencies(s).Parsed?
    ensures var r := ParseDependencies(s);
      && EndsLine(r.rest) && FineItems(items, BlanksText(trail) + r.rest)
      && s == ItemsText(items, BlanksText(trail) + r.rest) && r.events == ItemEvents(items)
    decreases |s|
  {
    var blanks := BlanksOf(s);
    var s1 := SkipNonNewlineWhitespace(s);
    hide SkipNonNewlineWhitespace, LexWord, LexColons, SkipToEndOfLine, FineItem, ItemText, ItemEvent, BlanksText;
    if EndsLine(s1) {
      items, trail := [], blanks;
    } else {
      var i, t := ItemOf(blanks, s1);
      assert s == ItemText(i) + t && ParseDependencies(s) == Report([ItemEvent(i)], ParseDependencies(t)) by {
        ReadItem(i, t);
        ItemAfter(blanks, s1, i, t);
      }
      var more;
      more, trail := ItemsOf(t);
      items := [i] + more;
      assert items[1..] == more;
    }
  }

  ghost predicate ItemIs(blanks: seq<Blank>, s1: string, i: Item, t: string) {
    FineItem(i, t) && i.blanks == blanks && |t| < |s1| &&
    s1 == (match i case Depends(_, word) => WrittenText(word) case Stray(_, junk) => JunkText(junk)) + t
  }

  lemma ItemAfter(blanks: seq<Blank>, s1: string, i: Item, t: string)
    requires ItemIs(blanks, s1, i, t)
    ensures BlanksText(blanks) + s1 == ItemText(i) + t
  {
    hide FineItem, BlanksText, WrittenText, JunkText;
    match i case Depends(_, word) => case Stray(_, junk) =>
  }

  lemma ItemOf(blanks: seq<Blank>, s1: string) returns (i: Item, t: string)
    requires NoBlank(s1) && !EndsLine(s1) && LexWord(s1).Lexed?
    requires |LexWord(s1).rest| < |s1| ==> LexColons(LexWord(s1).rest, LexWord(s1).word).Lexed?
    ensures ItemIs(blanks, s1, i, t)
  {
    hide LexWord, LexColons, NoBlank, ItemIs, Stops, AllFine;
    var ps := Spelled(s1);
    var r := LexWord(s1);
    if |r.rest| == |s1| {
      assert TextOf(ps) == "" && r.rest == s1;
      i, t := StrayOf(blanks, s1);
    } else {
      assert ps != [];
      i, t := DependsOf(blanks, s1, ps, r.rest, r.word);
    }
  }

  lemma StrayOf(blanks: seq<Blank>, s1: string) returns (i: Item, t: string)
    requires NoBlank(s1) && !EndsLine(s1) && Stops(s1)
    ensures ItemIs(blanks, s1, i, t)
  {
    hide NoBlank, Stops, SkipToEndOfLine;
    var junk := JunkOf(s1);
    i, t := Stray(blanks, junk), SkipToEndOfLine(s1);
  }

  lemma DependsOf(blanks: seq<Blank>, s1: string, ps: seq<Spelling>, rest: string, word: string) returns (i: Item, t: string)
    requires NoBlank(s1) && AllFine(ps) && ps != [] && s1 == TextOf(ps) + rest && Stops(rest) && LexColons(rest, word).Lexed?
    ensures ItemIs(blanks, s1, i, t)
  {
    hide NoBlank, Stops, LexColons, AllFine, TextOf, ColonText;
    var more := ColonsSpelled(rest, word);
    var w := Written(ps, more);
    i, t := Depends(blanks, w), LexColons(rest, word).rest;
    assert s1 == WrittenText(w) + t;
    WrittenBegins(w, t);
  }

  // ---- Lines -------------------------------------------------------------------------------------------------

  /** After gaps: a rule; something no word can begin with; or a name without a colon. */
  datatype Line =
    | RuleLine(lead: seq<Gap>, name: seq<Spelling>, blanks: seq<Blank>, items: seq<Item>, trail: seq<Blank>)
    | StrayLine(lead: seq<Gap>, junk: Junk)
    | NameLine(lead: seq<Gap>, name: seq<Spelling>, blanks: seq<Blank>, junk: Junk)

  /** What follows the name. */
  function AfterName(line: Line, t: string): string
    requires !line.StrayLine?
  {
    BlanksText(line.blanks) + if line.RuleLine? then ":" + ItemsText(line.items, BlanksText(line.trail) + t) else JunkText(line.junk) + t
  }

  function Body(line: Line, t: string): string {
    if line.StrayLine? then JunkText(line.junk) + t else TextOf(line.name) + AfterName(line, t)
  }

  /** A line and the text `t` after it. */
  function LineText(line: Line, t: string): string {
    GapsText(line.lead) + Body(line, t)
  }

  predicate FineLine(line: Line, t: string) {
    && FineGaps(line.lead, Body(line, t)) && NoGap(Body(line, t))
    && match line
       case RuleLine(_, name, _, items, trail) =>
         name != [] && AllFine(name) && Stops(AfterName(line, t)) && FineItems(items, BlanksText(trail) + t) && EndsLine(t)
       case StrayLine(_, junk) => Body(line, t) != "" && Stops(Body(line, t)) && FineJunk(junk, t)
       case NameLine(_, name, _, junk) =>
         && name != [] && AllFine(name) && Stops(AfterName(line, t)) && FineJunk(junk, t)
         && NoBlank(JunkText(junk) + t) && (JunkText(junk) + t == "" || (JunkText(junk) + t)[0] != ':')
  }

  function LineEvents(line: Line): seq<Event> {
    match line
    case RuleLine(_, name, _, items, _) => [RuleStart(MeaningOf(name))] + ItemEvents(items) + [RuleEnd]
    case StrayLine(_, _) => [Error]
    case NameLine(_, name, _, _) => [RuleStart(MeaningOf(name)), Error, RuleEnd]
  }

  lemma NameBegins(name: seq<Spelling>, t: string)
    requires name != []
    ensures TextOf(name) + t != "" && |t| < |TextOf(name) + t|
  {
  }

  /** One turn of the loop over rules. */
  lemma RuleTurn(s: string, s1: string, s2: string, name: string, u: string, events: seq<Event>, t: string, ignoreSubsequentOutputs: bool)
    requires SkipWhitespaceAndComments(s) == s1 && s1 != "" && LexWord(s1) == Lexed(s2, name) && |s2| < |s1|
    requires SkipNonNewlineWhitespace(s2) == ":" + u && ParseDependencies(u) == Parsed(events, t)
    ensures var rule := [RuleStart(name)] + events + [RuleEnd];
      ParseFrom(s, ignoreSubsequentOutputs) == if ignoreSubsequentOutputs then Some(rule) else After(rule, ParseFrom(t, ignoreSubsequentOutputs))
  {
    hide SkipWhitespaceAndComments, LexWord, SkipNonNewlineWhitespace, SkipToEndOfLine, ParseDependencies;
    assert (":" + u)[0] == ':' && (":" + u)[1..] == u;
  }

  lemma ReadRuleLine(line: Line, t: string, ignoreSubsequentOutputs: bool)
    requires line.RuleLine? && FineLine(line, t)
    ensures ParseFrom(LineText(line, t), ignoreSubsequentOutputs) ==
      if ignoreSubsequentOutputs then Some(LineEvents(line)) else After(LineEvents(line), ParseFrom(t, ignoreSubsequentOutputs))
  {
    hide ParseFrom, LexWord, SkipNonNewlineWhitespace, SkipWhitespaceAndComments, ParseDependencies, TextOf, MeaningOf, BlanksText, GapsText, ItemsText, ItemEvents;
    var body, after := Body(line, t), AfterName(line, t);
    var u := ItemsText(line.items, BlanksText(line.trail) + t);
    SkipGaps(line.lead, body);
    NameBegins(line.name, after);
    LexSpelled(line.name, after);
    ColonIsNoBlank(u);
    SkipBlanks(line.blanks, ":" + u);
    ReadItems(line.items, BlanksText(line.trail) + t);
    ReadTrail(line.trail, t);
    assert ItemEvents(line.items) + [] == ItemEvents(line.items);
    RuleTurn(LineText(line, t), body, after, MeaningOf(line.name), u, ItemEvents(line.items), t, ignoreSubsequentOutputs);
  }

  lemma ColonIsNoBlank(u: string)
    ensures NoBlank(":" + u)
  {
  }

  lemma ReadStrayLine(line: Line, t: string, ignoreSubsequentOutputs: bool)
    requires line.StrayLine? && FineLine(line, t)
    ensures ParseFrom(LineText(line, t), ignoreSubsequentOutputs) == After(LineEvents(line), ParseFrom(t, ignoreSubsequentOutputs))
  {
    SkipGaps(line.lead, Body(line, t));
    LexStops(Body(line, t));
    SkipJunk(line.junk, t);
    hide LexWord, SkipNonNewlineWhitespace, SkipWhitespaceAndComments, SkipToEndOfLine, ParseDependencies, GapsText, JunkText, FineLine;
  }

  lemma ReadNameLine(line: Line, t: string, ignoreSubsequentOutputs: bool)
    requires line.NameLine? && FineLine(line, t)
    ensures ParseFrom(LineText(line, t), ignoreSubsequentOutputs) == After(LineEvents(line), ParseFrom(t, ignoreSubsequentOutputs))
  {
    var after := AfterName(line, t);
    SkipGaps(line.lead, Body(line, t));
    NameBegins(line.name, after);
    LexSpelled(line.name, after);
    SkipBlanks(line.blanks, JunkText(line.junk) + t);
    SkipJunk(line.junk, t);
    hide LexWord, SkipNonNewlineWhitespace, SkipWhitespaceAndComments, SkipToEndOfLine, ParseDependencies, TextOf, MeaningOf, BlanksText, GapsText, JunkText, FineLine;
  }

  /** A line is read as what it says, whatever comes after it. */
  lemma ReadOneLine(line: Line, t: string, ignoreSubsequentOutputs: bool)
    requires FineLine(line, t)
    ensures ParseFrom(LineText(line, t), ignoreSubsequentOutputs) ==
      if ignoreSubsequentOutputs && line.RuleLine? then Some(LineEvents(line))
      else After(LineEvents(line), ParseFrom(t, ignoreSubsequentOutputs))
  {
    hide FineLine, ParseFrom, LineText, LineEvents;
    match line {
      case RuleLine(_, _, _, _, _) => ReadRuleLine(line, t, ignoreSubsequentOutputs);
      case StrayLine(_, _) => ReadStrayLine(line, t, ignoreSubsequentOutputs);
      case NameLine(_, _, _, _) => ReadNameLine(line, t, ignoreSubsequentOutputs);
    }
  }

  // ---- Files --------------------------------------------------------------------------------------------------

  function FileText(lines: seq<Line>, tail: seq<Gap>): string {
    if lines == [] then GapsText(tail) else LineText(lines[0], FileText(lines[1..], tail))
  }

  predicate FineFile(lines: seq<Line>, tail: seq<Gap>) {
    if lines == [] then FineGaps(tail, "") else FineLine(lines[0], FileText(lines[1..], tail)) && FineFile(lines[1..], tail)
  }

  /** What is reported; if subsequent outputs are ignored, nothing after the first rule. */
  function FileEvents(lines: seq<Line>, ignoreSubsequentOutputs: bool): seq<Event> {
    if lines == [] then []
    else if ignoreSubsequentOutputs && lines[0].RuleLine? then LineEvents(lines[0])
    else LineEvents(lines[0]) + FileEvents(lines[1..], ignoreSubsequentOutputs)
  }

  lemma ReadTail(tail: seq<Gap>, ignoreSubsequentOutputs: bool)
    requires FineGaps(tail, "")
    ensures ParseFrom(GapsText(tail), ignoreSubsequentOutputs) == Some([])
  {
    SkipGaps(tail, "");
    assert GapsText(tail) + "" == GapsText(tail);
  }

  /** Every file is read as what it says. */
  lemma {:induction false} ReadFile(lines: seq<Line>, tail: seq<Gap>, ignoreSubsequentOutputs: bool)
    requires FineFile(lines, tail)
    ensures ParseFrom(FileText(lines, tail), ignoreSubsequentOutputs) == Some(FileEvents(lines, ignoreSubsequentOutputs))
    decreases |lines|
  {
    hide FineLine, ParseFrom, LineText, LineEvents;
    if lines == [] {
      ReadTail(tail, ignoreSubsequentOutputs);
    } else {
      ReadOneLine(lines[0], FileText(lines[1..], tail), ignoreSubsequentOutputs);
      ReadFile(lines[1..], tail, ignoreSubsequentOutputs);
    }
  }

  // ---- Every text that can be read is such a file ------------------------------------------------------------------

  lemma LineOf(s: string) returns (line: Line, t: string)
    requires SkipWhitespaceAndComments(s) != "" && LexWord(SkipWhitespaceAndComments(s)).Lexed?
    requires var r := LexWord(SkipWhitespaceAndComments(s));
      var s3 := SkipNonNewlineWhitespace(r.rest);
      |r.rest| < |SkipWhitespaceAndComments(s)| && s3 != "" && s3[0] == ':' ==> ParseDependencies(s3[1..]).Parsed?
    ensures FineLine(line, t) && s == LineText(line, t) && |t| < |s|
  {
    var lead := GapsOf(s);
    var s1 := SkipWhitespaceAndComments(s);
    var name := Spelled(s1);
    var rest := LexWord(s1).rest;
    hide SkipWhitespaceAndComments, LexWord, ParseDependencies, SkipNonNewlineWhitespace, GapsText, FineGaps, FineLine, LineText, Stops, AllFine, NoGap;
    if |rest| == |s1| {
      assert TextOf(name) == "" && rest == s1;
      line, t := StrayLineOf(s, lead, s1);
    } else {
      assert name != [];
      var blanks := BlanksOf(rest);
      var s3 := SkipNonNewlineWhitespace(rest);
      hide TextOf, BlanksText;
      if s3 == "" || s3[0] != ':' {
        line, t := NameLineOf(s, lead, s1, name, rest, blanks, s3);
      } else {
        line, t := RuleLineOf(s, lead, s1, name, rest, blanks, s3);
      }
    }
  }

  lemma StrayLineOf(s: string, lead: seq<Gap>, s1: string) returns (line: Line, t: string)
    requires s == GapsText(lead) + s1 && FineGaps(lead, s1) && NoGap(s1) && Stops(s1) && s1 != ""
    ensures FineLine(line, t) && s == LineText(line, t) && |t| < |s|
  {
    hide GapsText, FineGaps, NoGap, Stops;
    var junk := JunkOf(s1);
    line, t := StrayLine(lead, junk), SkipToEndOfLine(s1);
  }

  lemma NameLineOf(s: string, lead: seq<Gap>, s1: string, name: seq<Spelling>, rest: string, blanks: seq<Blank>, s3: string)
    returns (line: Line, t: string)
    requires s == GapsText(lead) + s1 && FineGaps(lead, s1) && NoGap(s1) && s1 == TextOf(name) + rest && name != [] && AllFine(name)
    requires Stops(rest) && rest == BlanksText(blanks) + s3 && NoBlank(s3) && (s3 == "" || s3[0] != ':')
    ensures FineLine(line, t) && s == LineText(line, t) && |t| < |s|
  {
    NameBegins(name, rest);
    hide GapsText, FineGaps, NoGap, Stops, TextOf, BlanksText, AllFine, NoBlank;
    var junk := JunkOf(s3);
    line, t := NameLine(lead, name, blanks, junk), SkipToEndOfLine(s3);
    assert |t| <= |s3| <= |rest|;
  }

  lemma RuleLineOf(s: string, lead: seq<Gap>, s1: string, name: seq<Spelling>, rest: string, blanks: seq<Blank>, s3: string)
    returns (line: Line, t: string)
    requires s == GapsText(lead) + s1 && FineGaps(lead, s1) && NoGap(s1) && s1 == TextOf(name) + rest && name != [] && AllFine(name)
    requires Stops(rest) && rest == BlanksText(blanks) + s3 && s3 != "" && s3[0] == ':' && ParseDependencies(s3[1..]).Parsed?
    ensures FineLine(line, t) && s == LineText(line, t) && |t| < |s|
  {
    NameBegins(name, rest);
    hide GapsText, FineGaps, NoGap, Stops, TextOf, BlanksText, AllFine, ParseDependencies, FineItems, ItemsText;
    var items, trail := ItemsOf(s3[1..]);
    line, t := RuleLine(lead, name, blanks, items, trail), ParseDependencies(s3[1..]).rest;
    assert s3 == ":" + s3[1..];
    assert |t| <= |s3| <= |rest|;
  }

  lemma {:induction false} FileOf(s: string) returns (lines: seq<Line>, tail: seq<Gap>)
    requires ParseFrom(s, false).Some?
    ensures FineFile(lines, tail) && s == FileText(lines, tail)
    decreases |s|
  {
    var s1 := SkipWhitespaceAndComments(s);
    if s1 == "" {
      tail := GapsOf(s);
      lines := [];
      assert GapsText(tail) + "" == GapsText(tail);
    } else {
      var line, t := LineOf(s);
      ReadOneLine(line, t, false);
      hide ParseFrom, LineText, FineLine;
      var more;
      more, tail := FileOf(t);
      lines := [line] + more;
      assert lines[1..] == more;
    }
  }

  /** The parser reports certain events exactly on the files that say so. */
  lemma ParseIff(s: string, events: seq<Event>)
    ensures ParseFrom(s, false) == Some(events)
      <==> exists lines, tail :: FineFile(lines, tail) && s == FileText(lines, tail) && events == FileEvents(lines, false)
  {
    hide ParseFrom, FineFile, FileText, FileEvents;
    if ParseFrom(s, false) == Some(events) {
      var lines, tail := FileOf(s);
      ReadFile(lines, tail, false);
    }
    forall lines, tail | FineFile(lines, tail) && s == FileText(lines, tail) && events == FileEvents(lines, false)
      ensures ParseFrom(s, false) == Some(events)
    {
      ReadFile(lines, tail, false);
    }
  }

  // ---- Errors -------------------------------------------------------------------------------------------------------

  /** A line that is no rule, or a rule with something among its dependencies that is none. */
  predicate Faulty(line: Line) {
    !line.RuleLine? || exists i :: i in line.items && i.Stray?
  }

  lemma {:induction false} ItemErrors(items: seq<Item>)
    ensures Error in ItemEvents(items) <==> exists i :: i in items && i.Stray?
    decreases |items|
  {
    if items != [] {
      ItemErrors(items[1..]);
      assert items == [items[0]] + items[1..];
    }
  }

  lemma LineErrors(line: Line)
    ensures Error in LineEvents(line) <==> Faulty(line)
  {
    if line.RuleLine? { ItemErrors(line.items); }
    hide ItemEvents;
  }

  lemma {:induction false} FileErrors(lines: seq<Line>)
    ensures Error in FileEvents(lines, false) <==> exists line :: line in lines && Faulty(line)
    decreases |lines|
  {
    if lines != [] {
      LineErrors(lines[0]);
      FileErrors(lines[1..]);
      hide LineEvents, Faulty;
      assert lines == [lines[0]] + lines[1..];
    }
  }

  /** An error is reported exactly for the texts in which there is such a line. */
  lemma ErrorIff(s: string)
    requires ParseFrom(s, false).Some?
    ensures Error in ParseFrom(s, false).value
      <==> exists lines, tail :: FineFile(lines, tail) && s == FileText(lines, tail) && exists line :: line in lines && Faulty(line)
  {
    var lines, tail := FileOf(s);
    ReadFile(lines, tail, false);
    FileErrors(lines);
    hide ParseFrom, FineFile, FileText, FileEvents, Faulty;
    forall lines', tail' | FineFile(lines', tail') && s == FileText(lines', tail') && exists line :: line in lines' && Faulty(line)
      ensures Error in ParseFrom(s, false).value
    {
      ReadFile(lines', tail', false);
      FileErrors(lines');
    }
  }

  // ---- The round trip --------------------------------------------------------------------------------------------------

  /** Characters a word can be made of. */
  predicate Printable(c: char) {
    c != '\0' && c != '\t' && c != '\r' && c != '\n'
  }

  predicate AllPrintable(word: string) {
    forall i :: 0 <= i < |word| ==> Printable(word[i])
  }

  predicate GoodName(word: string) {
    word != "" && AllPrintable(word) && ':' !in word
  }

  predicate GoodDependency(word: string) {
    word != "" && AllPrintable(word) && word[0] != ':'
  }

  function EscapeChar(c: char): string {
    if c == ' ' || c == '#' || c == '\\' then ['\\', c] else if c == '$' then "$$" else [c]
  }

  function Escape(word: string): string {
    if word == "" then "" else EscapeChar(word[0]) + Escape(word[1..])
  }

  function Spell(c: char): Spelling {
    if c == ' ' || c == '#' || c == '\\' then Escaped(c) else if c == '$' then Dollar else Plain(c)
  }

  function SpellAll(word: string): seq<Spelling> {
    if word == "" then [] else [Spell(word[0])] + SpellAll(word[1..])
  }

  function Write(word: string): Written {
    if word == "" then Written([], []) else
    var w := Write(word[1..]);
    if word[0] == ':' then Written([], [w.first] + w.more) else Written([Spell(word[0])] + w.first, w.more)
  }

  lemma {:induction false} SpellsName(word: string)
    requires AllPrintable(word) && ':' !in word
    ensures AllFine(SpellAll(word)) && TextOf(SpellAll(word)) == Escape(word) && MeaningOf(SpellAll(word)) == word
    ensures word != "" ==> SpellAll(word) != []
  {
    if word != "" {
      assert word == [word[0]] + word[1..];
      SpellsName(word[1..]);
      assert SpellAll(word)[1..] == SpellAll(word[1..]);
    }
  }

  lemma {:induction false} WritesDependency(word: string)
    requires AllPrintable(word)
    ensures var w := Write(word); AllFine(w.first) && (forall ps :: ps in w.more ==> AllFine(ps)) && (word != "" && word[0] != ':' ==> w.first != [])
    ensures WrittenText(Write(word)) == Escape(word) && WrittenMeaning(Write(word)) == word
  {
    if word != "" {
      assert word == [word[0]] + word[1..] && AllPrintable(word[1..]) && Printable(word[0]);
      WritesDependency(word[1..]);
      hide AllPrintable, Printable, Spell, EscapeChar;
      if word[0] == ':' { WritesColon(word); } else { WritesChar(word); }
    }
  }

  lemma WritesColon(word: string)
    requires word != "" && word[0] == ':'
    ensures var w, r := Write(word), Write(word[1..]);
      && w.first == [] && w.more == [r.first] + r.more && WrittenText(w) == ":" + WrittenText(r) && WrittenMeaning(w) == ":" + WrittenMeaning(r)
    ensures Escape(word) == ":" + Escape(word[1..])
  {
    var w, r := Write(word), Write(word[1..]);
    assert w.more[0] == r.first && w.more[1..] == r.more;
    hide TextOf, MeaningOf;
    assert TextOf([]) == "" && MeaningOf([]) == "" by { NoSpelling(); }
  }

  lemma NoSpelling()
    ensures TextOf([]) == "" && MeaningOf([]) == ""
  {
  }

  lemma WritesChar(word: string)
    requires word != "" && word[0] != ':' && Printable(word[0])
    ensures var w, r := Write(word), Write(word[1..]);
      && w.first == [Spell(word[0])] + r.first && w.more == r.more && Fine(Spell(word[0]))
      && WrittenText(w) == EscapeChar(word[0]) + WrittenText(r) && WrittenMeaning(w) == [word[0]] + WrittenMeaning(r)
  {
    var p, r := Spell(word[0]), Write(word[1..]);
    assert Write(word) == Written([p] + r.first, r.more);
    hide *;
    SpellIs(word[0]);
    WrittenMore(p, r);
  }

  lemma WrittenMore(p: Spelling, w: Written)
    ensures var w' := Written([p] + w.first, w.more);
      WrittenText(w') == Text(p) + WrittenText(w) && WrittenMeaning(w') == Meaning(p) + WrittenMeaning(w)
  {
    OneMore(p, w.first);
    hide TextOf, MeaningOf, ColonText, ColonMeaning, Text, Meaning;
    Grouped(Text(p), TextOf(w.first), ColonText(w.more));
    Grouped(Meaning(p), MeaningOf(w.first), ColonMeaning(w.more));
  }

  lemma SpellIs(c: char)
    requires Printable(c) && c != ':'
    ensures Fine(Spell(c)) && Text(Spell(c)) == EscapeChar(c) && Meaning(Spell(c)) == [c]
  {
  }

  lemma OneMore(p: Spelling, ps: seq<Spelling>)
    ensures TextOf([p] + ps) == Text(p) + TextOf(ps) && MeaningOf([p] + ps) == Meaning(p) + MeaningOf(ps)
  {
    assert ([p] + ps)[1..] == ps;
  }

  datatype Rule = Rule(name: string, dependencies: seq<string>)

  predicate GoodRule(r: Rule) {
    GoodName(r.name) && forall d :: d in r.dependencies ==> GoodDependency(d)
  }

  function PrintDependencies(ds: seq<string>): string {
    if ds == [] then "" else " " + Escape(ds[0]) + PrintDependencies(ds[1..])
  }

  function Print(rules: seq<Rule>): string {
    if rules == [] then ""
    else Escape(rules[0].name) + ":" + PrintDependencies(rules[0].dependencies) + "\n" + Print(rules[1..])
  }

  function DependencyEvents(ds: seq<string>): seq<Event> {
    if ds == [] then [] else [RuleDependency(ds[0])] + DependencyEvents(ds[1..])
  }

  function Events(rules: seq<Rule>): seq<Event> {
    if rules == [] then []
    else [RuleStart(rules[0].name)] + DependencyEvents(rules[0].dependencies) + [RuleEnd] + Events(rules[1..])
  }

  function Items(ds: seq<string>): seq<Item> {
    if ds == [] then [] else [Depends([Space], Write(ds[0]))] + Items(ds[1..])
  }

  function Lines(lead: seq<Gap>, rules: seq<Rule>): seq<Line>
    decreases |rules|
  {
    if rules == [] then []
    else [RuleLine(lead, SpellAll(rules[0].name), [], Items(rules[0].dependencies), [])] + Lines([White('\n')], rules[1..])
  }

  lemma EscapeBegins(word: string, t: string)
    requires word != "" && AllPrintable(word)
    ensures NoBlank(Escape(word) + t) && NoGap(Escape(word) + t)
  {
    var s := Escape(word) + t;
    assert s[0] == EscapeChar(word[0])[0];
    if s[0] == '\\' { assert s[1] == word[0]; }
  }

  lemma ItemIsFine(d: string, t: string)
    requires GoodDependency(d) && t != "" && (t[0] == ' ' || t[0] == '\n')
    ensures var i := Depends([Space], Write(d)); FineItem(i, t) && ItemText(i) == " " + Escape(d) && ItemEvent(i) == RuleDependency(d)
  {
    WritesDependency(d);
    EscapeBegins(d, t);
    assert BlanksText([Space]) == " ";
  }

  lemma PrintBegins(ds: seq<string>, t: string)
    requires t != "" && t[0] == '\n'
    ensures var u := PrintDependencies(ds) + t; u != "" && (u[0] == ' ' || u[0] == '\n')
  {
  }

  lemma ItemsMore(i: Item, items: seq<Item>, t: string)
    ensures FineItems([i] + items, t) <==> FineItem(i, ItemsText(items, t)) && FineItems(items, t)
    ensures ItemsText([i] + items, t) == ItemText(i) + ItemsText(items, t) && ItemEvents([i] + items) == [ItemEvent(i)] + ItemEvents(items)
  {
    hide FineItem, ItemText, ItemEvent;
    assert ([i] + items)[1..] == items;
  }

  lemma PrintedFirst(ds: seq<string>, t: string)
    requires ds != []
    ensures PrintDependencies(ds) + t == " " + Escape(ds[0]) + (PrintDependencies(ds[1..]) + t)
  {
    hide Escape;
    Grouped(" " + Escape(ds[0]), PrintDependencies(ds[1..]), t);
  }

  lemma {:induction false} ItemsAreFine(ds: seq<string>, t: string)
    requires (forall d :: d in ds ==> GoodDependency(d)) && t != "" && t[0] == '\n'
    ensures FineItems(Items(ds), t) && ItemsText(Items(ds), t) == PrintDependencies(ds) + t && ItemEvents(Items(ds)) == DependencyEvents(ds)
    decreases |ds|
  {
    if ds == [] {
      assert PrintDependencies(ds) + t == t;
    } else {
      var i := Depends([Space], Write(ds[0]));
      hide FineItem, ItemText, ItemEvent, GoodDependency, Escape, FineItems, ItemsText, ItemEvents, PrintDependencies, Write;
      assert forall d :: d in ds[1..] ==> d in ds;
      ItemsAreFine(ds[1..], t);
      PrintBegins(ds[1..], t);
      ItemIsFine(ds[0], PrintDependencies(ds[1..]) + t);
      ItemsMore(i, Items(ds[1..]), t);
      PrintedFirst(ds, t);
    }
  }

  lemma LineIsFine(lead: seq<Gap>, r: Rule, t: string)
    requires GoodRule(r) && t != "" && t[0] == '\n' && (lead == [] || lead == [White('\n')])
    ensures var line := RuleLine(lead, SpellAll(r.name), [], Items(r.dependencies), []);
      && FineLine(line, t) && LineText(line, t) == GapsText(lead) + (Escape(r.name) + ":" + PrintDependencies(r.dependencies) + t)
      && LineEvents(line) == [RuleStart(r.name)] + DependencyEvents(r.dependencies) + [RuleEnd]
  {
    hide Escape, PrintDependencies, ItemsText, Items, SpellAll, ItemEvents, FineItems, TextOf, MeaningOf, NoGap, NoBlank, AllPrintable, AllFine, FineGaps, GapsText, BlanksText, GoodDependency;
    var line := RuleLine(lead, SpellAll(r.name), [], Items(r.dependencies), []);
    SpellsName(r.name);
    ItemsAreFine(r.dependencies, t);
    LeadIsFine(lead, Body(line, t));
    NoBlanks(t);
    var after := ":" + (PrintDependencies(r.dependencies) + t);
    NoBlanks(after);
    Grouped(":", PrintDependencies(r.dependencies), t);
    Grouped(Escape(r.name), ":", PrintDependencies(r.dependencies) + t);
    Grouped(Escape(r.name) + ":", PrintDependencies(r.dependencies), t);
    EscapeBegins(r.name, after);
  }

  lemma NoBlanks(t: string)
    ensures BlanksText([]) + t == t
  {
  }

  lemma LeadIsFine(lead: seq<Gap>, t: string)
    requires lead == [] || lead == [White('\n')]
    ensures FineGaps(lead, t)
  {
    if lead != [] { assert lead[1..] == []; }
  }

  lemma {:induction false} LinesAreFine(lead: seq<Gap>, rules: seq<Rule>)
    requires (forall r :: r in rules ==> GoodRule(r)) && (lead == [White('\n')] || (lead == [] && rules != []))
    ensures FineFile(Lines(lead, rules), [White('\n')]) && FileEvents(Lines(lead, rules), false) == Events(rules)
    ensures FileText(Lines(lead, rules), [White('\n')]) == GapsText(lead) + Print(rules)
    decreases |rules|
  {
    var tail := [White('\n')];
    assert GapsText(tail) == "\n" by { assert tail[1..] == []; }
    if rules != [] {
      assert forall r :: r in rules[1..] ==> r in rules;
      LinesAreFine(tail, rules[1..]);
      var t := "\n" + Print(rules[1..]);
      LineIsFine(lead, rules[0], t);
      hide FineLine, LineText, LineEvents, Escape, PrintDependencies, DependencyEvents;
      assert Lines(lead, rules)[1..] == Lines(tail, rules[1..]);
      Regrouped(Escape(rules[0].name), PrintDependencies(rules[0].dependencies), Print(rules[1..]));
    }
  }

  lemma Regrouped(a: string, b: string, c: string)
    ensures a + ":" + b + ("\n" + c) == a + ":" + b + "\n" + c
  {
  }

  lemma NoLead()
    ensures GapsText([]) == ""
  {
  }

  /** Printing rules and parsing the text gives back the rules, in order. */
  lemma RoundTrip(rules: seq<Rule>)
    requires forall r :: r in rules ==> GoodRule(r)
    ensures ParseFrom(Print(rules), false) == Some(Events(rules))
  {
    if rules == [] {
      NoLead();
      ReadTail([], false);
    } else {
      LinesAreFine([], rules);
      NoLead();
      hide GapsText, FileText, FineFile, FileEvents, Print, Events, ParseFrom, GoodRule;
      assert "" + Print(rules) == Print(rules);
      ReadFile(Lines([], rules), [White('\n')], false);
    }
  }
}
