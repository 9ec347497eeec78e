/**
 The chunk-size line of a chunked body: a left-to-right recogniser, and the grammar it recognises
 written as syntax trees and their printed form.
 */
module ChunkSize {
  import opened Common
  import opened Streams
  import opened Decimal
  import opened HttpFields

  predicate IsHex(c: Octet) {
    IsDigit(c) || 'a' <= c <= 'f' || 'A' <= c <= 'F'
  }

  function HexDigit(c: Octet): nat
    requires IsHex(c)
  {
    if IsDigit(c) then (c as int) - ('0' as int)
    else if 'a' <= c then (c as int) - ('a' as int) + 10
    else (c as int) - ('A' as int) + 10
  }

  /** The value of a text of hexadecimal digits. */
  function HexValue(s: Octets): nat
    requires forall i | 0 <= i < |s| :: IsHex(s[i])
  {
    if s == [] then 0 else 16 * HexValue(s[..|s| - 1]) + HexDigit(s[|s| - 1])
  }

  const HEX_DIGITS: Octets := "0123456789abcdef"

  function ShowHex(n: nat): Octets {
    if n < 16 then [HEX_DIGITS[n]] else ShowHex(n / 16) + [HEX_DIGITS[n % 16]]
  }

  lemma HexDigitOfShown(d: nat)
    requires d < 16
    ensures IsHex(HEX_DIGITS[d]) && HexDigit(HEX_DIGITS[d]) == d
  {
  }

  /** A size written in hexadecimal reads back as itself. */
  lemma {:induction false} HexRoundTrip(n: nat)
    ensures var s := ShowHex(n); s != [] && (forall i | 0 <= i < |s| :: IsHex(s[i])) && HexValue(s) == n
  {
    hide HexDigit, IsHex;
    HexDigitOfShown(n % 16);
    if n < 16 {
      assert [HEX_DIGITS[n]][..0] == [];
      assert HexValue([HEX_DIGITS[n]][..0]) == 0;
    } else {
      HexRoundTrip(n / 16);
      assert ShowHex(n)[..|ShowHex(n)| - 1] == ShowHex(n / 16);
    }
  }

  /** Leading zeros and the case of the letters do not count. */
  lemma {:induction false} HexIgnoresZerosAndCase(s: Octets)
    requires forall i | 0 <= i < |s| :: IsHex(s[i])
    ensures (forall i | 0 <= i < |s| :: IsHex(Lower(s)[i])) && HexValue(Lower(s)) == HexValue(s)
    ensures HexValue(['0'] + s) == HexValue(s)
  {
    var t := ['0'] + s;
    if s == [] {
      assert t[..0] == [] && Lower(s) == s;
      assert HexValue(t[..0]) == 0;
    } else {
      var n := |s| - 1;
      assert t[..|t| - 1] == ['0'] + s[..n] && Lower(s)[..n] == Lower(s[..n]);
      HexIgnoresZerosAndCase(s[..n]);
    }
  }

  /** A character allowed bare inside a quoted extension value. */
  predicate IsQuotedText(c: Octet) {
    c == '\t' || (' ' <= c <= '~' && c != '"' && c != '\\') || '\U{80}' <= c
  }

  /** A character allowed after a backslash inside a quoted extension value. */
  predicate IsQuotedPair(c: Octet) {
    c == '\t' || ' ' <= c <= '~' || '\U{80}' <= c
  }

  function SkipBlank(s: Octets): Octets {
    StripLeft(s, BLANK)
  }

  function TokenLength(s: Octets): (n: nat)
    ensures n <= |s|
    ensures forall i | 0 <= i < n :: IsTokenChar(s[i])
    ensures n < |s| ==> !IsTokenChar(s[n])
  {
    if s != [] && IsTokenChar(s[0]) then 1 + TokenLength(s[1..]) else 0
  }

  function HexLength(s: Octets): (n: nat)
    ensures n <= |s|
    ensures forall i | 0 <= i < n :: IsHex(s[i])
    ensures n < |s| ==> !IsHex(s[n])
  {
    if s != [] && IsHex(s[0]) then 1 + HexLength(s[1..]) else 0
  }

  /** The text after the closing quote of a quoted value whose opening quote is already read. */
  function AfterQuoted(s: Octets): (r: Option<Octets>)
    ensures r.Some? ==> |r.value| < |s|
  {
    if s == [] then None
    else if s[0] == '"' then Some(s[1..])
    else if s[0] == '\\' then
      if |s| > 1 && IsQuotedPair(s[1]) then AfterQuoted(s[2..]) else None
    else if IsQuotedText(s[0]) then AfterQuoted(s[1..])
    else None
  }

  /** The text after a semicolon and an extension name, blanks around the semicolon included. */
  function AfterName(s: Octets): (r: Option<Octets>)
    ensures r.Some? ==> |r.value| < |s|
  {
    var t := SkipBlank(s);
    if t == [] || t[0] != ';' then None
    else
      var u := SkipBlank(t[1..]);
      var n := TokenLength(u);
      if n > 0 then Some(u[n..]) else None
  }

  /** The text after an extension value without blanks before it: a token or a quoted value. */
  function AfterBareValue(u: Octets): (r: Option<Octets>)
    ensures r.Some? ==> |r.value| <= |u|
  {
    if u != [] && u[0] == '"' then AfterQuoted(u[1..])
    else
      var n := TokenLength(u);
      if n > 0 then Some(u[n..]) else None
  }

  /** The text after an optional assignment; s itself when no equals sign follows. */
  function AfterValue(s: Octets): (r: Option<Octets>)
    ensures r.Some? ==> |r.value| <= |s|
  {
    var t := SkipBlank(s);
    if t == [] || t[0] != '=' then Some(s) else AfterBareValue(SkipBlank(t[1..]))
  }

  function AfterExtension(s: Octets): (r: Option<Octets>)
    ensures r.Some? ==> |r.value| < |s|
  {
    var n := AfterName(s);
    if n.None? then None else AfterValue(n.value)
  }

  /** The rest of a size line after its digits: extensions, blanks and CRLF. */
  predicate ScanExtensions(s: Octets)
    decreases |s|
  {
    SkipBlank(s) == CRLF || (var r := AfterExtension(s); r.Some? && ScanExtensions(r.value))
  }

  /** The size on a chunk-size line, None when the line is malformed. */
  function ParseSizeLine(line: Octets): (r: Option<nat>)
    ensures r.Some? ==> line != []
  {
    var n := HexLength(line);
    if n > 0 && ScanExtensions(line[n..]) then Some(HexValue(line[..n])) else None
  }

  // ---- The grammar, as trees and their printed form ----

  datatype QuotedItem = Plain(c: Octet) | Escaped(c: Octet)

  datatype ExtensionValue = TokenValue(text: Octets) | QuotedValue(items: seq<QuotedItem>)

  datatype Extension = Extension(
    blank1: Octets, blank2: Octets, name: Octets, value: Option<(Octets, Octets, ExtensionValue)>)

  datatype SizeLine = SizeLine(digits: Octets, extensions: seq<Extension>, blank: Octets)

  predicate AllBlank(s: Octets) {
    forall i | 0 <= i < |s| :: s[i] in BLANK
  }

  predicate ItemOk(q: QuotedItem) {
    match q
    case Plain(c) => IsQuotedText(c)
    case Escaped(c) => IsQuotedPair(c)
  }

  predicate ValueOk(v: ExtensionValue) {
    match v
    case TokenValue(text) => IsToken(text)
    case QuotedValue(items) => forall i | 0 <= i < |items| :: ItemOk(items[i])
  }

  predicate ExtensionOk(e: Extension) {
    && AllBlank(e.blank1) && AllBlank(e.blank2) && IsToken(e.name)
    && (e.value.Some? ==>
          AllBlank(e.value.value.0) && AllBlank(e.value.value.1) && ValueOk(e.value.value.2))
  }

  predicate SizeLineOk(l: SizeLine) {
    && l.digits != [] && (forall i | 0 <= i < |l.digits| :: IsHex(l.digits[i]))
    && (forall i | 0 <= i < |l.extensions| :: ExtensionOk(l.extensions[i]))
    && AllBlank(l.blank)
  }

  // The printers take the text that follows, so that a printed tree is one right-nested text.

  function ShowItems(items: seq<QuotedItem>, rest: Octets): Octets {
    if items == [] then ['"'] + rest
    else
      match items[0]
      case Plain(c) => [c] + ShowItems(items[1..], rest)
      case Escaped(c) => ['\\', c] + ShowItems(items[1..], rest)
  }

  function ShowValue(v: ExtensionValue, rest: Octets): Octets {
    match v
    case TokenValue(text) => text + rest
    case QuotedValue(items) => ['"'] + ShowItems(items, rest)
  }

  function ShowAssignment(a: Option<(Octets, Octets, ExtensionValue)>, rest: Octets): Octets {
    if a.None? then rest else a.value.0 + (['='] + (a.value.1 + ShowValue(a.value.2, rest)))
  }

  function ShowExtension(e: Extension, rest: Octets): Octets {
    e.blank1 + ([';'] + (e.blank2 + (e.name + ShowAssignment(e.value, rest))))
  }

  /** The extensions, the trailing blanks and the CRLF of a size line. */
  function ShowTail(extensions: seq<Extension>, blank: Octets): Octets {
    if extensions == [] then blank + CRLF
    else ShowExtension(extensions[0], ShowTail(extensions[1..], blank))
  }

  function ShowSizeLine(l: SizeLine): Octets {
    l.digits + ShowTail(l.extensions, l.blank)
  }

  // ---- Printed trees are recognised ----

  lemma {:induction false} SkipBlankPrefix(b: Octets, s: Octets)
    requires AllBlank(b)
    requires s == [] || s[0] !in BLANK
    ensures SkipBlank(b + s) == s
  {
    if b == [] {
      assert b + s == s;
    } else {
      assert (b + s)[1..] == b[1..] + s;
      SkipBlankPrefix(b[1..], s);
    }
  }

  lemma {:induction false} TokenLengthOfPrefix(t: Octets, s: Octets)
    requires forall i | 0 <= i < |t| :: IsTokenChar(t[i])
    requires s == [] || !IsTokenChar(s[0])
    ensures TokenLength(t + s) == |t|
  {
    if t == [] {
      assert t + s == s;
    } else {
      assert (t + s)[1..] == t[1..] + s;
      TokenLengthOfPrefix(t[1..], s);
    }
  }

  lemma {:induction false} HexLengthOfPrefix(t: Octets, s: Octets)
    requires forall i | 0 <= i < |t| :: IsHex(t[i])
    requires s == [] || !IsHex(s[0])
    ensures HexLength(t + s) == |t|
  {
    if t == [] {
      assert t + s == s;
    } else {
      assert (t + s)[1..] == t[1..] + s;
      HexLengthOfPrefix(t[1..], s);
    }
  }

  lemma {:induction false} AfterShownItems(items: seq<QuotedItem>, rest: Octets)
    requires forall i | 0 <= i < |items| :: ItemOk(items[i])
    ensures AfterQuoted(ShowItems(items, rest)) == Some(rest)
  {
    if items == [] {
      assert (['"'] + rest)[1..] == rest;
    } else {
      var tail := ShowItems(items[1..], rest);
      assert ItemOk(items[0]);
      AfterShownItems(items[1..], rest);
      match items[0]
      case Plain(c) =>
        assert ([c] + tail)[1..] == tail;
      case Escaped(c) =>
        assert (['\\', c] + tail)[2..] == tail;
    }
  }

  /** A printed tail starts with a blank, a semicolon or CRLF, so no token or digit runs into it. */
  lemma {:induction false} TailStart(extensions: seq<Extension>, blank: Octets)
    requires forall i | 0 <= i < |extensions| :: ExtensionOk(extensions[i])
    requires AllBlank(blank)
    ensures var s := ShowTail(extensions, blank); s != [] && !IsTokenChar(s[0])
    ensures var s := SkipBlank(ShowTail(extensions, blank)); s != [] && s[0] != '='
  {
    if extensions == [] {
      SkipBlankPrefix(blank, CRLF);
    } else {
      var e := extensions[0];
      assert ExtensionOk(e);
      SkipBlankPrefix(e.blank1,
        [';'] + (e.blank2 + (e.name + ShowAssignment(e.value, ShowTail(extensions[1..], blank)))));
    }
  }

  lemma {:induction false} AfterShownValue(v: ExtensionValue, rest: Octets)
    requires ValueOk(v)
    requires rest != [] && !IsTokenChar(rest[0])
    ensures AfterBareValue(ShowValue(v, rest)) == Some(rest)
    ensures ShowValue(v, rest)[0] !in BLANK
  {
    match v
    case TokenValue(text) =>
      TokenLengthOfPrefix(text, rest);
      var u := text + rest;
      assert u[0] == text[0] && IsTokenChar(text[0]);
      assert u[|text|..] == rest;
    case QuotedValue(items) =>
      AfterShownItems(items, rest);
      assert ShowValue(v, rest)[1..] == ShowItems(items, rest);
  }

  lemma {:induction false} AfterShownAssignment(a: Option<(Octets, Octets, ExtensionValue)>, rest: Octets)
    requires a.Some? ==> AllBlank(a.value.0) && AllBlank(a.value.1) && ValueOk(a.value.2)
    requires rest != [] && !IsTokenChar(rest[0])
    requires SkipBlank(rest) != [] && SkipBlank(rest)[0] != '='
    ensures AfterValue(ShowAssignment(a, rest)) == Some(rest)
  {
    if a.Some? {
      var (b0, b1, v) := a.value;
      AfterShownValue(v, rest);
      AfterEquals(b0, b1, ShowValue(v, rest));
    }
  }

  lemma {:induction false} AfterEquals(b0: Octets, b1: Octets, u: Octets)
    requires AllBlank(b0) && AllBlank(b1)
    requires u != [] && u[0] !in BLANK
    ensures AfterValue(b0 + (['='] + (b1 + u))) == AfterBareValue(u)
  {
    var t := ['='] + (b1 + u);
    assert t[0] == '=' && t[1..] == b1 + u;
    SkipBlankPrefix(b1, u);
    SkipBlankPrefix(b0, t);
  }

  lemma {:induction false} ShownAssignmentStart(a: Option<(Octets, Octets, ExtensionValue)>, rest: Octets)
    requires a.Some? ==> AllBlank(a.value.0)
    requires rest != [] && !IsTokenChar(rest[0])
    ensures ShowAssignment(a, rest) != [] && !IsTokenChar(ShowAssignment(a, rest)[0])
  {
    if a.Some? {
      var b0 := a.value.0;
      var first := ShowAssignment(a, rest)[0];
      assert first == (if b0 == [] then '=' else b0[0]);
      assert first in {'=', ' ', '\t'};
    }
  }

  lemma {:induction false} AfterShownName(b1: Octets, b2: Octets, name: Octets, rest: Octets)
    requires AllBlank(b1) && AllBlank(b2) && IsToken(name)
    requires rest != [] && !IsTokenChar(rest[0])
    ensures AfterName(b1 + ([';'] + (b2 + (name + rest)))) == Some(rest)
  {
    var u := name + rest;
    TokenLengthOfPrefix(name, rest);
    assert u[0] == name[0] && IsTokenChar(name[0]);
    assert u[|name|..] == rest;
    SkipBlankPrefix(b2, u);
    var t := [';'] + (b2 + u);
    assert t[1..] == b2 + u;
    SkipBlankPrefix(b1, t);
  }

  lemma {:induction false} ShownTailIsScanned(extensions: seq<Extension>, blank: Octets)
    requires forall i | 0 <= i < |extensions| :: ExtensionOk(extensions[i])
    requires AllBlank(blank)
    ensures ScanExtensions(ShowTail(extensions, blank))
  {
    if extensions == [] {
      SkipBlankPrefix(blank, CRLF);
    } else {
      var e := extensions[0];
      assert ExtensionOk(e);
      var rest := ShowTail(extensions[1..], blank);
      ShownTailIsScanned(extensions[1..], blank);
      TailStart(extensions[1..], blank);
      AfterShownAssignment(e.value, rest);
      ShownAssignmentStart(e.value, rest);
      AfterShownName(e.blank1, e.blank2, e.name, ShowAssignment(e.value, rest));
    }
  }

  /** Every well-formed size line is accepted with the value of its digits. */
  lemma {:induction false} ShownSizeLineParses(l: SizeLine)
    requires SizeLineOk(l)
    ensures ParseSizeLine(ShowSizeLine(l)) == Some(HexValue(l.digits))
  {
    var tail := ShowTail(l.extensions, l.blank);
    ShownTailIsScanned(l.extensions, l.blank);
    TailStart(l.extensions, l.blank);
    HexLengthOfPrefix(l.digits, tail);
    assert ShowSizeLine(l)[|l.digits|..] == tail;
    assert ShowSizeLine(l)[..|l.digits|] == l.digits;
  }

  // ---- Recognised lines are printed trees ----

  lemma {:induction false} SplitBlank(s: Octets) returns (b: Octets)
    ensures AllBlank(b) && s == b + SkipBlank(s)
  {
    if s != [] && s[0] in BLANK {
      var b' := SplitBlank(s[1..]);
      b := [s[0]] + b';
      assert s == [s[0]] + s[1..];
    } else {
      b := [];
    }
  }

  lemma {:induction false} QuotedIsShown(s: Octets) returns (items: seq<QuotedItem>)
    requires AfterQuoted(s).Some?
    ensures forall i | 0 <= i < |items| :: ItemOk(items[i])
    ensures s == ShowItems(items, AfterQuoted(s).value)
  {
    if s[0] == '"' {
      items := [];
      assert s == ['"'] + s[1..];
    } else if s[0] == '\\' {
      var more := QuotedIsShown(s[2..]);
      items := [Escaped(s[1])] + more;
      assert s == ['\\', s[1]] + s[2..];
    } else {
      var more := QuotedIsShown(s[1..]);
      items := [Plain(s[0])] + more;
      assert s == [s[0]] + s[1..];
    }
  }

  lemma {:induction false} BareValueIsShown(u: Octets) returns (v: ExtensionValue)
    requires AfterBareValue(u).Some?
    ensures ValueOk(v) && u == ShowValue(v, AfterBareValue(u).value)
  {
    if u[0] == '"' {
      var items := QuotedIsShown(u[1..]);
      v := QuotedValue(items);
      assert u == ['"'] + u[1..];
    } else {
      v := TokenValue(u[..TokenLength(u)]);
    }
  }

  lemma {:induction false} ValueIsShown(s: Octets) returns (a: Option<(Octets, Octets, ExtensionValue)>)
    requires AfterValue(s).Some?
    ensures a.Some? ==> AllBlank(a.value.0) && AllBlank(a.value.1) && ValueOk(a.value.2)
    ensures s == ShowAssignment(a, AfterValue(s).value)
  {
    var t := SkipBlank(s);
    if t == [] || t[0] != '=' {
      a := None;
    } else {
      var u := SkipBlank(t[1..]);
      var b0 := SplitBlank(s);
      var b1 := SplitBlank(t[1..]);
      assert AfterValue(s) == AfterBareValue(u);
      var v := BareValueIsShown(u);
      a := Some((b0, b1, v));
      SplitAt(t, 1);
      assert t[..1] == ['='];
    }
  }

  lemma SplitAt(s: Octets, n: nat)
    requires n <= |s|
    ensures s == s[..n] + s[n..]
  {
  }

  lemma {:induction false} NameIsShown(s: Octets) returns (b1: Octets, b2: Octets, name: Octets)
    requires AfterName(s).Some?
    ensures AllBlank(b1) && AllBlank(b2) && IsToken(name)
    ensures s == b1 + ([';'] + (b2 + (name + AfterName(s).value)))
  {
    b1 := SplitBlank(s);
    var t := SkipBlank(s);
    b2 := SplitBlank(t[1..]);
    var u := SkipBlank(t[1..]);
    var n := TokenLength(u);
    name := u[..n];
    SplitAt(t, 1);
    SplitAt(u, n);
    assert t[..1] == [';'];
    assert AfterName(s).value == u[n..];
  }

  lemma {:induction false} ScannedTailIsShown(s: Octets) returns (extensions: seq<Extension>, blank: Octets)
    requires ScanExtensions(s)
    ensures forall i | 0 <= i < |extensions| :: ExtensionOk(extensions[i])
    ensures AllBlank(blank)
    ensures s == ShowTail(extensions, blank)
    decreases |s|
  {
    if SkipBlank(s) == CRLF {
      var b := SplitBlank(s);
      extensions, blank := [], b;
    } else {
      var b1, b2, name := NameIsShown(s);
      var a := ValueIsShown(AfterName(s).value);
      var rest := AfterExtension(s).value;
      var more, last := ScannedTailIsShown(rest);
      var e := Extension(b1, b2, name, a);
      assert ExtensionOk(e);
      extensions, blank := [e] + more, last;
      assert extensions[0] == e && extensions[1..] == more;
    }
  }

  /**
   The recogniser accepts exactly the grammar: a line carries size n if and only if it is the
   printed form of a well-formed size line whose digits have the value n.
   */
  lemma {:induction false} SizeLineExact(line: Octets, n: nat)
    ensures ParseSizeLine(line) == Some(n)
       <==> exists l :: SizeLineOk(l) && ShowSizeLine(l) == line && HexValue(l.digits) == n
  {
    if ParseSizeLine(line) == Some(n) {
      var k := HexLength(line);
      var extensions, blank := ScannedTailIsShown(line[k..]);
      var l := SizeLine(line[..k], extensions, blank);
      assert ShowSizeLine(l) == line;
    }
    forall l | SizeLineOk(l) && ShowSizeLine(l) == line && HexValue(l.digits) == n
      ensures ParseSizeLine(line) == Some(n)
    {
      ShownSizeLineParses(l);
    }
  }

  /** An accepted size line ends at its only newline. */
  lemma {:induction false} SizeLineIsOneLine(line: Octets, rest: Octets)
    requires ParseSizeLine(line).Some?
    ensures line != [] && LineLength(line + rest) == |line|
  {
    var n := HexLength(line);
    TailIsOneLine(line[n..]);
    assert forall i | 0 <= i < n :: IsHex(line[i]);
    forall i | 0 <= i < |line| - 1 ensures line[i] != '\n' {
      if i >= n {
        assert line[i] == line[n..][i - n];
      }
    }
    assert line[|line| - 1] == line[n..][|line[n..]| - 1];
    FirstLineOfPrefix(line, rest);
  }

  ghost predicate EndsAtOnlyNewline(s: Octets) {
    s != [] && s[|s| - 1] == '\n' && forall i | 0 <= i < |s| - 1 :: s[i] != '\n'
  }

  lemma {:induction false} NewlineFreePrefix(p: Octets, s: Octets)
    requires EndsAtOnlyNewline(s)
    requires forall i | 0 <= i < |p| :: p[i] != '\n'
    ensures EndsAtOnlyNewline(p + s)
  {
    var t := p + s;
    assert t[|t| - 1] == s[|s| - 1];
    forall i | 0 <= i < |t| - 1 ensures t[i] != '\n' {
      assert i < |p| ==> t[i] == p[i];
      assert i >= |p| ==> t[i] == s[i - |p|];
    }
  }

  lemma {:induction false} ShownItemsEnd(items: seq<QuotedItem>, rest: Octets)
    requires forall i | 0 <= i < |items| :: ItemOk(items[i])
    requires EndsAtOnlyNewline(rest)
    ensures EndsAtOnlyNewline(ShowItems(items, rest))
  {
    if items == [] {
      NewlineFreePrefix(['"'], rest);
    } else {
      assert ItemOk(items[0]);
      ShownItemsEnd(items[1..], rest);
      var tail := ShowItems(items[1..], rest);
      match items[0]
      case Plain(c) => NewlineFreePrefix([c], tail);
      case Escaped(c) => NewlineFreePrefix(['\\', c], tail);
    }
  }

  lemma {:induction false} ShownAssignmentEnds(a: Option<(Octets, Octets, ExtensionValue)>, rest: Octets)
    requires a.Some? ==> AllBlank(a.value.0) && AllBlank(a.value.1) && ValueOk(a.value.2)
    requires EndsAtOnlyNewline(rest)
    ensures EndsAtOnlyNewline(ShowAssignment(a, rest))
  {
    if a.Some? {
      var (b0, b1, v) := a.value;
      match v {
        case TokenValue(text) =>
          assert forall i | 0 <= i < |text| :: IsTokenChar(text[i]);
          NewlineFreePrefix(text, rest);
        case QuotedValue(items) =>
          ShownItemsEnd(items, rest);
          NewlineFreePrefix(['"'], ShowItems(items, rest));
      }
      NewlineFreePrefix(b1, ShowValue(v, rest));
      NewlineFreePrefix(['='], b1 + ShowValue(v, rest));
      NewlineFreePrefix(b0, ['='] + (b1 + ShowValue(v, rest)));
    }
  }

  lemma {:induction false} ShownTailIsOneLine(extensions: seq<Extension>, blank: Octets)
    requires forall i | 0 <= i < |extensions| :: ExtensionOk(extensions[i])
    requires AllBlank(blank)
    ensures EndsAtOnlyNewline(ShowTail(extensions, blank))
  {
    if extensions == [] {
      NewlineFreePrefix(blank, CRLF);
    } else {
      var e, rest := extensions[0], ShowTail(extensions[1..], blank);
      assert ExtensionOk(e);
      ShownTailIsOneLine(extensions[1..], blank);
      var assignment := ShowAssignment(e.value, rest);
      ShownAssignmentEnds(e.value, rest);
      assert forall i | 0 <= i < |e.name| :: IsTokenChar(e.name[i]);
      NewlineFreePrefix(e.name, assignment);
      NewlineFreePrefix(e.blank2, e.name + assignment);
      NewlineFreePrefix([';'], e.blank2 + (e.name + assignment));
      NewlineFreePrefix(e.blank1, [';'] + (e.blank2 + (e.name + assignment)));
    }
  }

  lemma {:induction false} TailIsOneLine(s: Octets)
    requires ScanExtensions(s)
    ensures EndsAtOnlyNewline(s)
  {
    var extensions, blank := ScannedTailIsShown(s);
    ShownTailIsOneLine(extensions, blank);
  }
}
