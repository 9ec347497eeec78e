/**
 The grammar of dotenv assignments, as trees and their printed form: which lines open an assignment, where a
 quoted value is closed, and how a file falls into blocks. The parser agrees with it exactly.
 */
module DotenvGrammar {
  import opened Common
  import opened DotenvLines
  import opened DotenvBlocks

  // ---- The first line ----

  /** An optional export word with the blanks after it, a key, an equals sign and a value, with blanks around them. */
  datatype Assignment = Assignment(
    indent: string, exported: Option<string>, key: string, before: string, after: string, value: string)

  predicate Blanks(s: string) {
    forall i | 0 <= i < |s| :: s[i] == ' ' || s[i] == '\t'
  }

  predicate AssignmentOk(a: Assignment) {
    && Blanks(a.indent) && (a.exported.Some? ==> a.exported.value != "" && Blanks(a.exported.value))
    && a.key != "" && (forall i | 0 <= i < |a.key| :: a.key[i] != '=' && !Space(a.key[i]))
    && Blanks(a.before) && Blanks(a.after)
    && (a.value != "" ==> a.value[0] != ' ' && a.value[0] != '\t')
  }

  function ShowBody(key: string, before: string, after: string, value: string): string {
    key + (before + ("=" + (after + value)))
  }

  function ShowAssignment(a: Assignment): string {
    a.indent + ((if a.exported.Some? then "export" + a.exported.value else "")
                + ShowBody(a.key, a.before, a.after, a.value))
  }

  predicate Prints(a: Assignment, line: string) {
    AssignmentOk(a) && ShowAssignment(a) == line
  }

  /** The line opens an assignment in this way; a key that begins with a number sign makes it a comment. */
  predicate Opens(a: Assignment, line: string) {
    Prints(a, line) && a.key[0] != '#'
  }

  predicate StartsWithQuote(value: string) {
    value != "" && (value[0] == '\'' || value[0] == '"')
  }

  lemma {:induction false} KeyRun(key: string, rest: string)
    requires forall i | 0 <= i < |key| :: KeyChar(key[i])
    requires rest == "" || !KeyChar(rest[0])
    ensures KeyLength(key + rest) == |key|
    decreases |key|
  {
    if key == "" {
      assert key + rest == rest;
    } else {
      assert (key + rest)[1..] == key[1..] + rest;
      KeyRun(key[1..], rest);
    }
  }

  lemma NoBlanks(s: string)
    requires s == "" || !Blank(s[0])
    ensures Skipped(s) == s
  {
  }

  lemma {:induction false} SkippedPrefix(blanks: string, s: string)
    requires Blanks(blanks) && (s == "" || !Blank(s[0]))
    ensures Skipped(blanks + s) == s
    decreases |blanks|
  {
    if blanks == "" {
      assert blanks + s == s;
    } else {
      assert (blanks + s)[1..] == blanks[1..] + s;
      SkippedPrefix(blanks[1..], s);
    }
  }

  lemma {:induction false} SplitBlanks(s: string) returns (blanks: string)
    ensures Blanks(blanks) && s == blanks + Skipped(s)
    ensures s != "" && Blank(s[0]) ==> blanks != ""
    decreases |s|
  {
    blanks := "";
    if s != "" && Blank(s[0]) {
      var more := SplitBlanks(s[1..]);
      blanks := [s[0]] + more;
      assert s == [s[0]] + s[1..];
    }
  }

  lemma ShownBodyReads(key: string, before: string, after: string, value: string)
    requires key != "" && forall i | 0 <= i < |key| :: KeyChar(key[i])
    requires Blanks(before) && Blanks(after) && (value != "" ==> !Blank(value[0]))
    ensures KeyAndValue(ShowBody(key, before, after, value)) == Match(key, value)
  {
    hide Skipped, KeyLength, Space;
    var tail := "=" + (after + value);
    var rest := before + tail;
    assert tail[0] == '=' && tail[1..] == after + value;
    SkippedPrefix(before, tail);
    SkippedPrefix(after, value);
    assert rest[0] == (if before == "" then '=' else before[0]);
    BlankIsNoKey(rest[0]);
    KeyRun(key, rest);
    assert (key + rest)[..|key|] == key && (key + rest)[|key|..] == rest;
  }

  lemma BlankIsNoKey(c: char)
    ensures c == '=' || c == ' ' || c == '\t' ==> !KeyChar(c)
    ensures KeyChar(c) ==> !Blank(c)
  {
  }

  /** Without the export word, what looks like one is the key itself. */
  lemma {:induction false} BareBodyReads(key: string, before: string, after: string, value: string)
    requires key != "" && forall i | 0 <= i < |key| :: KeyChar(key[i])
    requires Blanks(before) && Blanks(after) && (value != "" ==> !Blank(value[0]))
    ensures var s := ShowBody(key, before, after, value);
            Exports(s) ==> KeyAndValue(Skipped(s[|EXPORT|..])).NoMatch?
  {
    hide Skipped, KeyLength, Space, ValueOf;
    var s := ShowBody(key, before, after, value);
    var tail := "=" + (after + value);
    var rest := before + tail;
    var n := |key|;
    assert s == key + rest && rest[0] == (if before == "" then '=' else before[0]);
    assert forall i | 0 <= i < 6 :: EXPORT[i] != '=' && EXPORT[i] != ' ' && EXPORT[i] != '\t';
    assert n < 6 <= |s| ==> s[..6][n] == rest[0];
    if n > 6 {
      assert s[6] == key[6];
      BlankIsNoKey(key[6]);
    }
    if n == 6 {
      assert s[6..] == rest;
      SkippedPrefix(before, tail);
      BlankIsNoKey('=');
      KeyRun("", tail);
      assert "" + tail == tail;
    }
  }

  /** A printed assignment is read as its key and value. */
  lemma {:induction false} ShownAssignmentReads(a: Assignment)
    requires AssignmentOk(a)
    ensures HeadOf(ShowAssignment(a)) == Match(a.key, a.value)
  {
    hide KeyAndValue, ShowBody, Skipped;
    var body := ShowBody(a.key, a.before, a.after, a.value);
    BodyStarts(a);
    ShownBodyReads(a.key, a.before, a.after, a.value);
    if a.exported.Some? {
      var s := "export" + a.exported.value + body;
      assert ShowAssignment(a) == a.indent + s && s[0] == 'e';
      SkippedPrefix(a.indent, s);
      assert s[..6] == EXPORT && s[6..] == a.exported.value + body && s[6] == a.exported.value[0];
      SkippedPrefix(a.exported.value, body);
    } else {
      assert ShowAssignment(a) == a.indent + body;
      SkippedPrefix(a.indent, body);
      BareBodyReads(a.key, a.before, a.after, a.value);
    }
  }

  lemma BodyStarts(a: Assignment)
    requires AssignmentOk(a)
    ensures var body := ShowBody(a.key, a.before, a.after, a.value);
            body != "" && !Blank(body[0]) && forall i | 0 <= i < |a.key| :: KeyChar(a.key[i])
  {
    BlankIsNoKey(a.key[0]);
  }

  lemma {:induction false} ReadBodyIsShown(s: string) returns (before: string, after: string)
    requires KeyAndValue(s).Match?
    ensures var h := KeyAndValue(s);
            && Blanks(before) && Blanks(after) && (h.value != "" ==> !Blank(h.value[0]))
            && s == ShowBody(h.key, before, after, h.value)
  {
    hide Space, KeyLength;
    var n := KeyLength(s);
    var t := Skipped(s[n..]);
    before := SplitBlanks(s[n..]);
    after := SplitBlanks(t[1..]);
    assert t == "=" + t[1..];
    assert s == s[..n] + s[n..];
  }

  /** What is read was printed: some assignment with this key and value prints the line. */
  lemma {:induction false} ReadAssignmentIsShown(line: string) returns (a: Assignment)
    requires HeadOf(line).Match?
    ensures Prints(a, line) && a.key == HeadOf(line).key && a.value == HeadOf(line).value
  {
    hide KeyAndValue, Skipped, Space, ShowBody;
    var h := HeadOf(line);
    var s := Skipped(line);
    var indent := SplitBlanks(line);
    if Exports(s) && KeyAndValue(Skipped(s[|EXPORT|..])).Match? {
      var blanks := SplitBlanks(s[|EXPORT|..]);
      var before, after := ReadBodyIsShown(Skipped(s[|EXPORT|..]));
      a := Assignment(indent, Some(blanks), h.key, before, after, h.value);
      assert s == "export" + (blanks + Skipped(s[|EXPORT|..]));
      Nest(indent, "export", blanks, ShowBody(h.key, before, after, h.value));
    } else {
      var before, after := ReadBodyIsShown(s);
      a := Assignment(indent, None, h.key, before, after, h.value);
      assert "" + ShowBody(h.key, before, after, h.value) == ShowBody(h.key, before, after, h.value);
    }
  }

  lemma Nest(a: string, b: string, c: string, d: string)
    ensures a + (b + (c + d)) == a + ((b + c) + d)
  {
  }

  /** A line reads as a key and a value exactly when an assignment with them prints it. */
  lemma {:induction false} HeadExact(line: string, key: string, value: string)
    ensures HeadOf(line) == Match(key, value) <==> exists a :: Prints(a, line) && a.key == key && a.value == value
    ensures HeadOf(line).NoMatch? <==> forall a :: !Prints(a, line)
  {
    hide HeadOf, AssignmentOk, ShowAssignment;
    if HeadOf(line).Match? {
      var a := ReadAssignmentIsShown(line);
    }
    forall a | Prints(a, line) ensures HeadOf(line) == Match(a.key, a.value) {
      ShownAssignmentReads(a);
    }
  }

  /**
   A line opens an unquoted assignment, a quoted one, or none, exactly as the grammar says: the key does not begin
   with a number sign, and the value is quoted when it begins with either quote.
   */
  lemma {:induction false} OpeningExact(line: string)
    ensures OpeningOf(line).Other? <==> forall a :: !Opens(a, line)
    ensures forall k :: OpeningOf(line) == Plain(k) <==>
              exists a :: Opens(a, line) && a.key == k && !StartsWithQuote(a.value)
    ensures forall k, q, rest :: OpeningOf(line) == Quoted(k, q, rest) <==>
              exists a :: Opens(a, line) && a.key == k && StartsWithQuote(a.value) && a.value == [q] + rest
  {
    hide HeadOf, ShowAssignment;
    var h := HeadOf(line);
    if h.Match? {
      var b := ReadAssignmentIsShown(line);
      assert Opens(b, line) <==> h.key[0] != '#';
      if h.value != "" {
        assert h.value == [h.value[0]] + h.value[1..];
      }
    }
    forall a | Opens(a, line) ensures h == Match(a.key, a.value) {
      ShownAssignmentReads(a);
    }
  }

  // ---- The closing quote ----

  /** A quoted value before its closing quote: bare characters, and characters behind a backslash. */
  datatype Item = Bare(c: char) | Escaped(c: char)

  predicate ItemsOk(items: seq<Item>, quote: char) {
    forall i | 0 <= i < |items| :: items[i].Bare? ==> items[i].c != quote && items[i].c != '\\'
  }

  function ShowItems(items: seq<Item>): string {
    if items == [] then ""
    else (match items[0] case Bare(c) => [c] case Escaped(c) => ['\\', c]) + ShowItems(items[1..])
  }

  /** The quote at this place of the text is the first one that no backslash escapes. */
  ghost predicate FirstQuote(text: string, quote: char, at: nat) {
    at < |text| && text[at] == quote && exists items :: ItemsOk(items, quote) && ShowItems(items) == text[..at]
  }

  function CloseIndex(s: string, quote: char, escaped: bool): (k: Option<nat>)
    ensures k.Some? ==> k.value < |s|
    ensures k.Some? <==> ScanQuote(s, quote, escaped).Closed?
  {
    if s == "" then None
    else if !escaped && s[0] != '\\' && s[0] == quote then Some(0)
    else
      var more := CloseIndex(s[1..], quote, !escaped && s[0] == '\\');
      if more.None? then None else Some(more.value + 1)
  }

  lemma {:induction false} FirstQuoteIsFound(text: string, quote: char, items: seq<Item>, at: nat)
    requires quote != '\\' && ItemsOk(items, quote) && at < |text| && text[at] == quote && ShowItems(items) == text[..at]
    ensures CloseIndex(text, quote, false) == Some(at)
    decreases |items|
  {
    hide ScanQuote;
    if items != [] {
      var n := if items[0].Bare? then 1 else 2;
      var rest := ShowItems(items[1..]);
      assert text[..at] == (match items[0] case Bare(c) => [c] case Escaped(c) => ['\\', c]) + rest;
      assert text[0] == text[..at][0];
      assert text[n..][..at - n] == text[..at][n..] == rest;
      FirstQuoteIsFound(text[n..], quote, items[1..], at - n);
      if n == 2 {
        assert text[1..][1..] == text[2..];
      }
    }
  }

  lemma {:induction false} FoundQuoteIsFirst(text: string, quote: char) returns (items: seq<Item>)
    requires CloseIndex(text, quote, false).Some?
    ensures var at := CloseIndex(text, quote, false).value;
            text[at] == quote && ItemsOk(items, quote) && ShowItems(items) == text[..at]
    decreases |text|
  {
    hide ScanQuote;
    var at := CloseIndex(text, quote, false).value;
    if text[0] == '\\' {
      assert text[1..][1..] == text[2..];
      var more := FoundQuoteIsFirst(text[2..], quote);
      items := [Escaped(text[1])] + more;
      assert items[1..] == more;
      assert text[..at] == ['\\', text[1]] + text[2..][..at - 2];
    } else if text[0] == quote {
      items := [];
    } else {
      var more := FoundQuoteIsFirst(text[1..], quote);
      items := [Bare(text[0])] + more;
      assert items[1..] == more;
      assert text[..at] == [text[0]] + text[1..][..at - 1];
    }
  }

  lemma {:induction false} FirstQuoteExact(text: string, quote: char, at: nat)
    requires quote != '\\'
    ensures FirstQuote(text, quote, at) <==> CloseIndex(text, quote, false) == Some(at)
  {
    hide CloseIndex;
    if FirstQuote(text, quote, at) {
      var items :| ItemsOk(items, quote) && ShowItems(items) == text[..at];
      FirstQuoteIsFound(text, quote, items, at);
    }
    if CloseIndex(text, quote, false) == Some(at) {
      var items := FoundQuoteIsFirst(text, quote);
    }
  }

  lemma {:induction false} CloseIndexOfTwo(a: string, b: string, quote: char, escaped: bool)
    ensures CloseIndex(a + b, quote, escaped) ==
            var scan := ScanQuote(a, quote, escaped);
            if scan.Closed? then CloseIndex(a, quote, escaped)
            else
              var more := CloseIndex(b, quote, scan.escaped);
              if more.None? then None else Some(|a| + more.value)
    decreases |a|
  {
    if a == "" {
      assert a + b == b;
    } else {
      assert (a + b)[1..] == a[1..] + b;
      CloseIndexOfTwo(a[1..], b, quote, !escaped && a[0] == '\\');
    }
  }

  /** The quoted value takes n texts exactly when its closing quote is in the n-th of them. */
  lemma {:induction false} CloseAtExact(texts: seq<string>, quote: char, escaped: bool, n: nat)
    requires 0 < n <= |texts|
    ensures CloseAt(texts, quote, escaped) == Some(n) <==>
            var at := CloseIndex(Join(texts[..n]), quote, escaped);
            at.Some? && at.value >= |Join(texts[..n - 1])|
    decreases |texts|
  {
    hide ScanQuote;
    var scan := ScanQuote(texts[0], quote, escaped);
    var rest := texts[1..];
    assert texts[..n][1..] == rest[..n - 1];
    CloseIndexOfTwo(texts[0], Join(rest[..n - 1]), quote, escaped);
    if n == 1 {
      assert rest[..0] == [] && texts[..0] == [];
      NothingCloses(quote, if scan.Open? then scan.escaped else false);
    } else {
      assert texts[..n - 1][1..] == rest[..n - 2];
      if scan.Open? {
        CloseAtExact(rest, quote, scan.escaped, n - 1);
      }
    }
  }

  lemma NothingCloses(quote: char, escaped: bool)
    ensures CloseIndex(Join([]), quote, escaped).None? && Join([]) == ""
  {
  }

  // ---- Blocks ----

  /** The lines of a quoted assignment: the first unescaped quote after the opening one is in the last of them. */
  ghost predicate ClosesInLast(a: Assignment, body: seq<string>)
    requires StartsWithQuote(a.value) && body != []
  {
    var texts := [a.value[1..]] + body[1..];
    exists at: nat :: FirstQuote(Join(texts), a.value[0], at) && at >= |Join(texts[..|texts| - 1])|
  }

  /** A line that opens no assignment, or all the lines of one assignment of this key. */
  ghost predicate BlockOk(b: Block) {
    match b
    case Line(l) => forall a :: !Opens(a, l)
    case Assign(k, body) =>
      && body != []
      && exists a :: Opens(a, body[0]) && a.key == k
                     && if StartsWithQuote(a.value) then ClosesInLast(a, body) else |body| == 1
  }

  lemma {:induction false} ClosesExact(a: Assignment, body: seq<string>)
    requires StartsWithQuote(a.value) && body != []
    ensures ClosesInLast(a, body) <==> CloseAt([a.value[1..]] + body[1..], a.value[0], false) == Some(|body|)
  {
    hide CloseAt, CloseIndex, FirstQuote;
    var texts := [a.value[1..]] + body[1..];
    var quote := a.value[0];
    assert texts[..|texts|] == texts && |texts| == |body|;
    CloseAtExact(texts, quote, false, |texts|);
    if ClosesInLast(a, body) {
      var at: nat :| FirstQuote(Join(texts), quote, at) && at >= |Join(texts[..|texts| - 1])|;
      FirstQuoteExact(Join(texts), quote, at);
    }
    if CloseIndex(Join(texts), quote, false).Some? {
      FirstQuoteExact(Join(texts), quote, CloseIndex(Join(texts), quote, false).value);
    }
  }

  /** A block reads as itself exactly when it is one of the grammar. */
  lemma {:induction false} SolidExact(b: Block)
    ensures Solid(b) <==> BlockOk(b)
  {
    hide OpeningOf, CloseAt, ClosesInLast, Opens;
    var lines := LinesOf(b);
    if lines != [] {
      var o := OpeningOf(lines[0]);
      OpeningExact(lines[0]);
      assert lines[..|lines|] == lines;
      forall a | Opens(a, lines[0])
        ensures o == if StartsWithQuote(a.value) then Quoted(a.key, a.value[0], a.value[1..]) else Plain(a.key)
        ensures StartsWithQuote(a.value) ==>
                  (ClosesInLast(a, lines) <==> CloseAt([a.value[1..]] + lines[1..], a.value[0], false) == Some(|lines|))
      {
        if StartsWithQuote(a.value) {
          QuotedSplit(a);
          ClosesExact(a, lines);
        }
      }
    }
  }

  lemma QuotedSplit(a: Assignment)
    requires StartsWithQuote(a.value)
    ensures a.value != "" && a.value == [a.value[0]] + a.value[1..]
  {
  }

  /** The lines fall into blocks in exactly one way, if at all: into blocks of the grammar. */
  lemma {:induction false} BlocksExact(lines: seq<string>, bs: seq<Block>)
    ensures Blocks(lines) == Some(bs) <==> Flatten(bs) == lines && forall i | 0 <= i < |bs| :: BlockOk(bs[i])
  {
    hide Blocks, Flatten, Solid, BlockOk;
    forall b ensures Solid(b) <==> BlockOk(b) {
      SolidExact(b);
    }
    if Blocks(lines) == Some(bs) {
      BlocksKeepLines(lines);
    }
    if Flatten(bs) == lines && forall i | 0 <= i < |bs| :: BlockOk(bs[i]) {
      BlocksOfFlatten(bs);
    }
  }
}
