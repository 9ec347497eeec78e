/**
 Locating dotenv assignments. A line opens an assignment when it matches the pattern of the parser; a value
 that opens with a quote runs on, across lines if need be, to the first unescaped closing quote. The file's
 lines thus fall into blocks: assignments with all their lines, and every other line on its own.
 */
module DotenvBlocks {
  import opened Common

  predicate Blank(c: char) {
    c == ' ' || c == '\t'
  }

  /** The characters a key cannot hold besides '='. */
  predicate Space(c: char) {
    || '\t' <= c <= '\r' || '\U{1C}' <= c <= ' ' || c == '\U{85}' || c == '\U{A0}' || c == '\U{1680}'
    || '\U{2000}' <= c <= '\U{200A}' || c == '\U{2028}' || c == '\U{2029}' || c == '\U{202F}' || c == '\U{205F}'
    || c == '\U{3000}'
  }

  predicate KeyChar(c: char) {
    c != '=' && !Space(c)
  }

  /** The text without its leading blanks. */
  function Skipped(s: string): (r: string)
    ensures r == "" || !Blank(r[0])
  {
    if s != "" && Blank(s[0]) then Skipped(s[1..]) else s
  }

  function KeyLength(s: string): (n: nat)
    ensures n <= |s| && (forall i | 0 <= i < n :: KeyChar(s[i])) && (n < |s| ==> !KeyChar(s[n]))
  {
    if s != "" && KeyChar(s[0]) then 1 + KeyLength(s[1..]) else 0
  }

  datatype Head = NoMatch | Match(key: string, value: string)

  /** What follows blanks, an equals sign and more blanks, if the text opens with them. */
  function ValueOf(s: string): Option<string> {
    var t := Skipped(s);
    if t == "" || t[0] != '=' then None else Some(Skipped(t[1..]))
  }

  predicate GoodKey(h: Head) {
    h.Match? ==> h.key != "" && forall i | 0 <= i < |h.key| :: KeyChar(h.key[i])
  }

  function KeyAndValue(s: string): (h: Head)
    ensures GoodKey(h)
  {
    var n := KeyLength(s);
    var value := ValueOf(s[n..]);
    if n == 0 || value.None? then NoMatch else Match(s[..n], value.value)
  }

  const EXPORT := "export"

  predicate Exports(s: string) {
    |s| > |EXPORT| && s[..|EXPORT|] == EXPORT && Blank(s[|EXPORT|])
  }

  /** The optional export word is tried first and given up when no key and equals sign follow it. */
  function HeadOf(line: string): (h: Head)
    ensures GoodKey(h)
  {
    var s := Skipped(line);
    if Exports(s) then
      var h := KeyAndValue(Skipped(s[|EXPORT|..]));
      if h.Match? then h else KeyAndValue(s)
    else KeyAndValue(s)
  }

  datatype Opening = Other | Plain(key: string) | Quoted(key: string, quote: char, rest: string)

  function OpeningOf(line: string): Opening {
    var h := HeadOf(line);
    if h.NoMatch? || (h.key != "" && h.key[0] == '#') then Other
    else if h.value != "" && (h.value[0] == '\'' || h.value[0] == '"') then Quoted(h.key, h.value[0], h.value[1..])
    else Plain(h.key)
  }

  /** Scanning for the closing quote: closed, or still open with or without a pending escape. */
  datatype Scan = Closed | Open(escaped: bool)

  function ScanQuote(s: string, quote: char, escaped: bool): Scan {
    if s == "" then Open(escaped)
    else if escaped then ScanQuote(s[1..], quote, false)
    else if s[0] == '\\' then ScanQuote(s[1..], quote, true)
    else if s[0] == quote then Closed
    else ScanQuote(s[1..], quote, false)
  }

  /** How many of these texts the quoted value takes, if it is closed at all. */
  function CloseAt(texts: seq<string>, quote: char, escaped: bool): (n: Option<nat>)
    ensures n.Some? ==> 0 < n.value <= |texts|
  {
    if texts == [] then None
    else
      var scan := ScanQuote(texts[0], quote, escaped);
      if scan.Closed? then Some(1)
      else
        var more := CloseAt(texts[1..], quote, scan.escaped);
        if more.None? then None else Some(more.value + 1)
  }

  datatype Block = Line(line: string) | Assign(key: string, body: seq<string>)

  function LinesOf(b: Block): seq<string> {
    match b
    case Line(l) => [l]
    case Assign(_, body) => body
  }

  function Flatten(bs: seq<Block>): seq<string> {
    if bs == [] then [] else LinesOf(bs[0]) + Flatten(bs[1..])
  }

  /** The first block and the number of lines it takes; None when its quote is never closed. */
  function FirstBlock(lines: seq<string>): (r: Option<(Block, nat)>)
    requires lines != []
    ensures r.Some? ==> 0 < r.value.1 <= |lines| && LinesOf(r.value.0) == lines[..r.value.1]
  {
    match OpeningOf(lines[0])
    case Other => Some((Line(lines[0]), 1))
    case Plain(k) => Some((Assign(k, lines[..1]), 1))
    case Quoted(k, q, rest) =>
      var n := CloseAt([rest] + lines[1..], q, false);
      if n.None? then None else Some((Assign(k, lines[..n.value]), n.value))
  }

  function Blocks(lines: seq<string>): Option<seq<Block>>
    decreases |lines|
  {
    if lines == [] then Some([])
    else
      var first := FirstBlock(lines);
      if first.None? then None
      else
        var rest := Blocks(lines[first.value.1..]);
        if rest.None? then None else Some([first.value.0] + rest.value)
  }

  /** A block that reads as itself wherever it stands. */
  predicate Solid(b: Block) {
    LinesOf(b) != [] && FirstBlock(LinesOf(b)) == Some((b, |LinesOf(b)|))
  }

  /** A value that is closed within its lines is closed there whatever follows. */
  lemma {:induction false} CloseStays(texts: seq<string>, more: seq<string>, quote: char, escaped: bool)
    requires CloseAt(texts, quote, escaped).Some?
    ensures CloseAt(texts + more, quote, escaped) == CloseAt(texts, quote, escaped)
    decreases |texts|
  {
    hide ScanQuote;
    assert (texts + more)[0] == texts[0] && (texts + more)[1..] == texts[1..] + more;
    var scan := ScanQuote(texts[0], quote, escaped);
    if scan.Open? {
      CloseStays(texts[1..], more, quote, scan.escaped);
    }
  }

  lemma {:induction false} CloseCut(texts: seq<string>, n: nat, quote: char, escaped: bool)
    requires CloseAt(texts, quote, escaped) == Some(n)
    ensures CloseAt(texts[..n], quote, escaped) == Some(n)
    decreases |texts|
  {
    hide ScanQuote;
    var scan := ScanQuote(texts[0], quote, escaped);
    if scan.Open? {
      CloseCut(texts[1..], n - 1, quote, scan.escaped);
      assert texts[..n][1..] == texts[1..][..n - 1];
    }
  }

  lemma {:induction false} FirstBlockStays(lines: seq<string>, more: seq<string>)
    requires lines != [] && FirstBlock(lines).Some?
    ensures FirstBlock(lines + more) == FirstBlock(lines)
  {
    hide OpeningOf, CloseAt, Blocks;
    var o := OpeningOf(lines[0]);
    assert (lines + more)[0] == lines[0];
    if o.Quoted? {
      assert [o.rest] + (lines + more)[1..] == ([o.rest] + lines[1..]) + more;
      CloseStays([o.rest] + lines[1..], more, o.quote, false);
    }
    var n := FirstBlock(lines).value.1;
    assert (lines + more)[..n] == lines[..n];
    assert (lines + more)[..1] == lines[..1];
  }

  lemma {:induction false} FirstBlockIsSolid(lines: seq<string>)
    requires lines != [] && FirstBlock(lines).Some?
    ensures Solid(FirstBlock(lines).value.0)
  {
    hide OpeningOf, CloseAt, Blocks;
    var o := OpeningOf(lines[0]);
    var n := FirstBlock(lines).value.1;
    var body := lines[..n];
    if o.Quoted? {
      CloseCut([o.rest] + lines[1..], n, o.quote, false);
      assert ([o.rest] + lines[1..])[..n] == [o.rest] + body[1..];
    }
    assert body[..n] == body && body[..1] == lines[..1];
  }

  /** Parsing goes block by block: what a closed part parses to does not depend on what follows it. */
  lemma {:induction false} BlocksOfParts(a: seq<string>, b: seq<string>)
    requires Blocks(a).Some?
    ensures Blocks(a + b) == if Blocks(b).None? then None else Some(Blocks(a).value + Blocks(b).value)
    decreases |a|
  {
    hide FirstBlock;
    if a == [] {
      assert a + b == b;
      if Blocks(b).Some? {
        assert [] + Blocks(b).value == Blocks(b).value;
      }
    } else {
      var n := FirstBlock(a).value.1;
      FirstBlockStays(a, b);
      assert (a + b)[n..] == a[n..] + b;
      BlocksOfParts(a[n..], b);
      assert a + b != [] && Blocks(a).value == [FirstBlock(a).value.0] + Blocks(a[n..]).value;
      if Blocks(b).Some? {
        Reassociate([FirstBlock(a).value.0], Blocks(a[n..]).value, Blocks(b).value);
      }
    }
  }

  /** The blocks keep every line in order, and each reads as itself. */
  lemma {:induction false} BlocksKeepLines(lines: seq<string>)
    requires Blocks(lines).Some?
    ensures Flatten(Blocks(lines).value) == lines
    ensures forall i | 0 <= i < |Blocks(lines).value| :: Solid(Blocks(lines).value[i])
    decreases |lines|
  {
    hide FirstBlock, Solid;
    if lines != [] {
      var first := FirstBlock(lines).value;
      FirstBlockIsSolid(lines);
      BlocksKeepLines(lines[first.1..]);
      assert Blocks(lines).value[1..] == Blocks(lines[first.1..]).value;
      assert lines == lines[..first.1] + lines[first.1..];
    }
  }

  /** Any list of self-reading blocks parses back to itself. */
  lemma {:induction false} BlocksOfFlatten(bs: seq<Block>)
    requires forall i | 0 <= i < |bs| :: Solid(bs[i])
    ensures Blocks(Flatten(bs)) == Some(bs)
    decreases |bs|
  {
    hide FirstBlock, Solid;
    if bs != [] {
      var ls := LinesOf(bs[0]);
      BlocksOfFlatten(bs[1..]);
      SolidAlone(bs[0]);
      BlocksOfParts(ls, Flatten(bs[1..]));
      assert [bs[0]] + bs[1..] == bs;
    }
  }

  lemma Reassociate<T>(a: seq<T>, b: seq<T>, c: seq<T>)
    ensures (a + b) + c == a + (b + c)
  {
  }

  lemma SolidAlone(b: Block)
    requires Solid(b)
    ensures Blocks(LinesOf(b)) == Some([b])
  {
    hide FirstBlock;
    var ls := LinesOf(b);
    assert ls[|ls|..] == [];
    assert Blocks(ls[|ls|..]) == Some([]);
    assert [b] + [] == [b];
  }
}
