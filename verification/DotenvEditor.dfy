/**
 Setting selected dotenv assignments in place. The specification works on blocks: a selected assignment becomes
 one line, missing ones are appended, every other block stays. The method replaces slices of the line list.
 */
module DotenvEditor {
  import opened Common
  import opened DotenvLines
  import opened DotenvBlocks
  import opened DotenvGrammar

  datatype Setting = Setting(key: string, value: string)

  datatype Error = Unterminated | Unsafe(key: string) | Duplicate(key: string)

  predicate SafeChar(c: char) {
    'A' <= c <= 'Z' || 'a' <= c <= 'z' || '0' <= c <= '9' || c == '_' || c == '.' || c == '-'
  }

  predicate Safe(value: string) {
    forall i | 0 <= i < |value| :: SafeChar(value[i])
  }

  /** A key that a written assignment reads back as. */
  predicate KeyOk(key: string) {
    key != "" && key[0] != '#' && forall i | 0 <= i < |key| :: KeyChar(key[i])
  }

  predicate Distinct(settings: seq<Setting>) {
    forall i, j | 0 <= i < j < |settings| :: settings[i].key != settings[j].key
  }

  function Entry(s: Setting): string {
    s.key + "=" + s.value + "\n"
  }

  // ---- One line ----

  lemma EntryValue(value: string)
    requires Safe(value)
    ensures ValueOf("=" + value + "\n") == Some(value + "\n")
  {
    hide Skipped;
    var rest, tail := "=" + value + "\n", value + "\n";
    NoBlanks(rest);
    assert rest[1..] == tail;
    assert value != "" ==> SafeChar(tail[0]);
    NoBlanks(tail);
  }

  lemma EntryKeyAndValue(s: Setting)
    requires KeyOk(s.key) && Safe(s.value)
    ensures KeyAndValue(Entry(s)) == Match(s.key, s.value + "\n")
  {
    hide ValueOf, KeyLength, Safe;
    var rest := "=" + s.value + "\n";
    assert Entry(s) == s.key + rest;
    KeyRun(s.key, rest);
    assert Entry(s)[|s.key|..] == rest && Entry(s)[..|s.key|] == s.key;
    EntryValue(s.value);
  }

  lemma {:induction false} EntryExportsNothing(s: Setting)
    requires KeyOk(s.key)
    ensures !Exports(Entry(s)) && Skipped(Entry(s)) == Entry(s)
  {
    var e := Entry(s);
    assert e[0] == s.key[0];
    NoBlanks(e);
    assert e[|s.key|] == '=';
    assert forall i | 0 <= i < |EXPORT| :: EXPORT[i] != '=';
    assert |s.key| < |EXPORT| <= |e| ==> e[..|EXPORT|][|s.key|] == '=';
    assert |s.key| > |EXPORT| ==> e[|EXPORT|] == s.key[|EXPORT|];
  }

  /** A written entry reads back as its key's assignment exactly when the key can be a key. */
  lemma {:induction false} EntryReadsBack(s: Setting)
    requires Safe(s.value)
    ensures OpeningOf(Entry(s)) == Plain(s.key) <==> KeyOk(s.key)
    ensures KeyOk(s.key) ==> HeadOf(Entry(s)) == Match(s.key, s.value + "\n")
  {
    hide Skipped, Exports, KeyAndValue;
    assert GoodKey(HeadOf(Entry(s)));
    if KeyOk(s.key) {
      EntryExportsNothing(s);
      EntryKeyAndValue(s);
      assert s.value != "" ==> SafeChar((s.value + "\n")[0]);
    }
  }

  lemma EntryIsSolid(s: Setting)
    requires Safe(s.value) && KeyOk(s.key)
    ensures Solid(Assign(s.key, [Entry(s)]))
  {
    hide OpeningOf, CloseAt, Entry, KeyOk, Safe;
    EntryReadsBack(s);
    assert [Entry(s)][..1] == [Entry(s)];
  }

  lemma EntryIsOneLine(s: Setting)
    requires Safe(s.value) && KeyOk(s.key)
    ensures OneLine(Entry(s)) && Ended(Entry(s)) && Entry(s)[|Entry(s)| - 1] == '\n' && Entry(s)[0] == s.key[0]
    ensures Entry(s)[0] != '\n'
  {
    var text := s.key + "=" + s.value;
    forall i | 0 <= i < |text| ensures !Boundary(text[i]) {
      if i < |s.key| {
        assert KeyChar(text[i]);
      } else if i > |s.key| {
        assert SafeChar(text[i]);
      }
    }
    PlainLine(text);
    assert KeyChar(s.key[0]);
  }

  // ---- A newline after the last line ----

  lemma {:induction false} SkippedNewline(s: string)
    ensures Skipped(s + "\n") == Skipped(s) + "\n"
    decreases |s|
  {
    if s != "" {
      assert (s + "\n")[1..] == s[1..] + "\n";
      SkippedNewline(s[1..]);
    }
  }

  lemma {:induction false} KeyNewline(s: string)
    ensures KeyLength(s + "\n") == KeyLength(s)
    decreases |s|
  {
    if s != "" {
      assert (s + "\n")[1..] == s[1..] + "\n";
      KeyNewline(s[1..]);
    }
  }

  function WithNewline(h: Head): Head {
    if h.NoMatch? then NoMatch else Match(h.key, h.value + "\n")
  }

  lemma Tail(s: string, n: nat)
    requires n <= |s|
    ensures (s + "\n")[n..] == s[n..] + "\n" && (s + "\n")[..n] == s[..n]
  {
  }

  lemma ValueNewline(s: string)
    ensures ValueOf(s + "\n") == if ValueOf(s).None? then None else Some(ValueOf(s).value + "\n")
  {
    hide Skipped;
    SkippedNewline(s);
    var t := Skipped(s);
    if t != "" {
      Tail(t, 1);
      SkippedNewline(t[1..]);
    }
  }

  lemma {:induction false} KeyAndValueNewline(s: string)
    ensures KeyAndValue(s + "\n") == WithNewline(KeyAndValue(s))
  {
    hide ValueOf, KeyLength;
    KeyNewline(s);
    Tail(s, KeyLength(s));
    ValueNewline(s[KeyLength(s)..]);
  }

  lemma HeadNewline(line: string)
    ensures HeadOf(line + "\n") == WithNewline(HeadOf(line))
  {
    hide Skipped, KeyAndValue, Exports;
    SkippedNewline(line);
    var s := Skipped(line);
    ExportsNewline(s);
    KeyAndValueNewline(s);
    if Exports(s) {
      ExportsIsLonger(s);
      Tail(s, |EXPORT|);
      SkippedNewline(s[|EXPORT|..]);
      KeyAndValueNewline(Skipped(s[|EXPORT|..]));
    }
  }

  lemma ExportsIsLonger(s: string)
    requires Exports(s)
    ensures |s| > |EXPORT|
  {
  }

  lemma ExportsNewline(s: string)
    ensures Exports(s + "\n") <==> Exports(s)
  {
    if |s| >= |EXPORT| {
      Tail(s, |EXPORT|);
    }
  }

  lemma {:induction false} ScanNewline(s: string, quote: char, escaped: bool)
    requires ScanQuote(s, quote, escaped).Closed?
    ensures ScanQuote(s + "\n", quote, escaped).Closed?
    decreases |s|
  {
    assert (s + "\n")[1..] == s[1..] + "\n";
    if escaped {
      ScanNewline(s[1..], quote, false);
    } else if s[0] == '\\' {
      ScanNewline(s[1..], quote, true);
    } else if s[0] != quote {
      ScanNewline(s[1..], quote, false);
    }
  }

  /** The same lines with a newline after the last. */
  function LastNewline(lines: seq<string>): seq<string>
    requires lines != []
  {
    lines[..|lines| - 1] + [lines[|lines| - 1] + "\n"]
  }

  lemma {:induction false} CloseNewline(texts: seq<string>, quote: char, escaped: bool)
    requires CloseAt(texts, quote, escaped) == Some(|texts|)
    ensures CloseAt(LastNewline(texts), quote, escaped) == Some(|texts|)
    decreases |texts|
  {
    hide ScanQuote;
    var scan := ScanQuote(texts[0], quote, escaped);
    if |texts| == 1 {
      ScanNewline(texts[0], quote, escaped);
    } else {
      assert LastNewline(texts)[1..] == LastNewline(texts[1..]);
      CloseNewline(texts[1..], quote, scan.escaped);
    }
  }

  function BlockNewline(b: Block): Block
    requires LinesOf(b) != []
  {
    match b
    case Line(l) => Line(l + "\n")
    case Assign(k, body) => Assign(k, LastNewline(body))
  }

  lemma OpeningNewline(line: string)
    ensures OpeningOf(line + "\n") ==
            match OpeningOf(line)
            case Other => Other
            case Plain(k) => Plain(k)
            case Quoted(k, q, rest) => Quoted(k, q, rest + "\n")
  {
    hide HeadOf;
    HeadNewline(line);
    var h := HeadOf(line);
    if h.Match? && h.value != "" {
      Tail(h.value, 1);
    }
  }

  /** A newline after a block's last line keeps it the same block. */
  lemma {:induction false} BlockNewlineIsSolid(b: Block)
    requires Solid(b)
    ensures Solid(BlockNewline(b)) && LinesOf(BlockNewline(b)) == LastNewline(LinesOf(b))
  {
    hide OpeningOf, CloseAt;
    var lines := LinesOf(b);
    var longer := LastNewline(lines);
    OpeningNewline(lines[0]);
    assert longer[..|longer|] == longer;
    var o := OpeningOf(lines[0]);
    if |lines| == 1 {
      assert longer == [lines[0] + "\n"];
      if o.Quoted? {
        assert [o.rest] + lines[1..] == [o.rest];
        CloseNewline([o.rest], o.quote, false);
        assert LastNewline([o.rest]) == [o.rest + "\n"] && [o.rest + "\n"] + longer[1..] == [o.rest + "\n"];
      }
    } else {
      CloseNewline([o.rest] + lines[1..], o.quote, false);
      assert LastNewline([o.rest] + lines[1..]) == [o.rest] + longer[1..];
    }
  }

  // ---- The edit on blocks ----

  function Lookup(settings: seq<Setting>, key: string): Option<Setting> {
    if settings == [] then None
    else if settings[0].key == key then Some(settings[0])
    else Lookup(settings[1..], key)
  }

  predicate Chosen(b: Block, settings: seq<Setting>) {
    b.Assign? && Lookup(settings, b.key).Some?
  }

  function EditBlock(b: Block, settings: seq<Setting>): Block {
    if Chosen(b, settings) then Assign(b.key, [Entry(Lookup(settings, b.key).value)]) else b
  }

  function Edited(bs: seq<Block>, settings: seq<Setting>): (r: seq<Block>)
    ensures |r| == |bs| && forall i | 0 <= i < |bs| :: r[i] == EditBlock(bs[i], settings)
  {
    seq(|bs|, i requires 0 <= i < |bs| => EditBlock(bs[i], settings))
  }

  function Occurrences(bs: seq<Block>, key: string): nat {
    if bs == [] then 0
    else (if bs[0].Assign? && bs[0].key == key then 1 else 0) + Occurrences(bs[1..], key)
  }

  /** The entries of the settings that no block assigns, in the order of the settings. */
  function Missing(bs: seq<Block>, settings: seq<Setting>): seq<Block> {
    if settings == [] then []
    else
      (if Occurrences(bs, settings[0].key) == 0 then [Assign(settings[0].key, [Entry(settings[0])])] else [])
      + Missing(bs, settings[1..])
  }

  /** The first setting that cannot be made, with the reason. */
  function Problem(bs: seq<Block>, settings: seq<Setting>): Option<Error> {
    if settings == [] then None
    else if !Safe(settings[0].value) then Some(Unsafe(settings[0].key))
    else if Occurrences(bs, settings[0].key) > 1 then Some(Duplicate(settings[0].key))
    else Problem(bs, settings[1..])
  }

  function Ending(lines: seq<string>): string {
    if lines == [] || (lines[|lines| - 1] != "" && lines[|lines| - 1][|lines[|lines| - 1]| - 1] == '\n') then ""
    else "\n"
  }

  function Written(bs: seq<Block>, settings: seq<Setting>): string {
    var lines := Flatten(Edited(bs, settings));
    var more := Missing(bs, settings);
    if more == [] then Join(lines) else Join(lines) + Ending(lines) + Join(Flatten(more))
  }

  function Selected(content: string, settings: seq<Setting>): Result<string, Error> {
    var bs := Blocks(Split(content));
    if bs.None? then Err(Unterminated)
    else
      var problem := Problem(bs.value, settings);
      if problem.Some? then Err(problem.value) else Ok(Written(bs.value, settings))
  }

  // ---- What the written text reads back as ----

  /** The blocks with their last line ended by a newline. */
  function Newlined(bs: seq<Block>): seq<Block>
    requires bs != [] ==> LinesOf(bs[|bs| - 1]) != []
  {
    if bs == [] then []
    else
      var last := bs[|bs| - 1];
      var line := LinesOf(last)[|LinesOf(last)| - 1];
      if Ending([line]) == "" then bs
      else if Ended(line) && line[|line| - 1] != '\r' then bs + [Line("\n")]
      else bs[..|bs| - 1] + [BlockNewline(last)]
  }

  predicate AllSolid(bs: seq<Block>) {
    forall i | 0 <= i < |bs| :: Solid(bs[i])
  }

  predicate SettingsOk(settings: seq<Setting>) {
    Distinct(settings) && forall i | 0 <= i < |settings| :: KeyOk(settings[i].key) && Safe(settings[i].value)
  }

  lemma {:induction false} FlattenAppend(a: seq<Block>, b: seq<Block>)
    ensures Flatten(a + b) == Flatten(a) + Flatten(b)
    decreases |a|
  {
    if a == [] {
      assert a + b == b;
    } else {
      assert (a + b)[1..] == a[1..] + b;
      FlattenAppend(a[1..], b);
      Reassociate(LinesOf(a[0]), Flatten(a[1..]), Flatten(b));
    }
  }

  lemma FlattenOne(b: Block)
    ensures Flatten([b]) == LinesOf(b)
  {
    assert Flatten([b][1..]) == [];
  }

  lemma {:induction false} LookupFinds(settings: seq<Setting>, key: string)
    ensures Lookup(settings, key).Some? ==>
              Lookup(settings, key).value in settings && Lookup(settings, key).value.key == key
    ensures Lookup(settings, key).None? ==> forall i | 0 <= i < |settings| :: settings[i].key != key
    decreases |settings|
  {
    if settings != [] {
      LookupFinds(settings[1..], key);
    }
  }

  lemma {:induction false} LookupIs(settings: seq<Setting>, i: nat)
    requires Distinct(settings) && i < |settings|
    ensures Lookup(settings, settings[i].key) == Some(settings[i])
    decreases |settings|
  {
    if i > 0 {
      assert settings[0].key != settings[i].key;
      assert Distinct(settings[1..]);
      LookupIs(settings[1..], i - 1);
    }
  }

  lemma {:induction false} EditIsSolid(b: Block, settings: seq<Setting>)
    requires Solid(b) && SettingsOk(settings)
    ensures Solid(EditBlock(b, settings))
  {
    hide Solid;
    if Chosen(b, settings) {
      LookupFinds(settings, b.key);
      var i :| 0 <= i < |settings| && settings[i] == Lookup(settings, b.key).value;
      EntryIsSolid(settings[i]);
    }
  }

  lemma {:induction false} MissingAre(bs: seq<Block>, settings: seq<Setting>)
    ensures forall b | b in Missing(bs, settings) ::
              exists i :: 0 <= i < |settings| && b == Assign(settings[i].key, [Entry(settings[i])])
                          && Occurrences(bs, settings[i].key) == 0
    decreases |settings|
  {
    hide Occurrences;
    if settings != [] {
      MissingAre(bs, settings[1..]);
      forall b | b in Missing(bs, settings)
        ensures exists i :: 0 <= i < |settings| && b == Assign(settings[i].key, [Entry(settings[i])])
                            && Occurrences(bs, settings[i].key) == 0
      {
        if b in Missing(bs, settings[1..]) {
          var i :| 0 <= i < |settings[1..]| && b == Assign(settings[1..][i].key, [Entry(settings[1..][i])])
                   && Occurrences(bs, settings[1..][i].key) == 0;
          assert settings[i + 1] == settings[1..][i];
        } else {
          assert settings[0] == settings[0];
        }
      }
    }
  }

  /** Editing keeps neighbouring lines apart: an entry ends in a newline and never begins with one. */
  lemma {:induction false} EditedIsProper(bs: seq<Block>, settings: seq<Setting>)
    requires AllSolid(bs) && SettingsOk(settings) && Proper(Flatten(bs))
    ensures Proper(Flatten(Edited(bs, settings)))
    ensures bs != [] ==> StartsLike(Edited(bs, settings), bs)
    decreases |bs|
  {
    hide Solid, Proper, Chosen;
    if bs != [] {
      var b, e := bs[0], EditBlock(bs[0], settings);
      assert Edited(bs, settings)[1..] == Edited(bs[1..], settings);
      ProperParts(LinesOf(b), Flatten(bs[1..]));
      EditedIsProper(bs[1..], settings);
      SolidHasLines(b);
      EditBlockProper(b, settings);
      if bs[1..] != [] {
        SolidHasLines(bs[1]);
        SeamStays(b, e, bs[1..], Edited(bs[1..], settings));
      }
      ProperSeam(LinesOf(e), Flatten(Edited(bs[1..], settings)));
    }
  }

  lemma SolidHasLines(b: Block)
    requires Solid(b)
    ensures LinesOf(b) != []
  {
  }

  /** The first line is the old one, or an entry. */
  predicate StartsLike(es: seq<Block>, bs: seq<Block>) {
    && Flatten(es) != [] && Flatten(bs) != []
    && (Flatten(es)[0] == Flatten(bs)[0] || (Flatten(es)[0] != "" && Flatten(es)[0][0] != '\n'))
  }

  predicate EndsLike(e: Block, b: Block) {
    && LinesOf(e) != [] && LinesOf(b) != []
    && var l := LinesOf(e)[|LinesOf(e)| - 1];
       l == LinesOf(b)[|LinesOf(b)| - 1] || (l != "" && l[|l| - 1] == '\n')
  }

  lemma {:induction false} EditBlockProper(b: Block, settings: seq<Setting>)
    requires SettingsOk(settings) && Proper(LinesOf(b)) && LinesOf(b) != []
    ensures Proper(LinesOf(EditBlock(b, settings))) && EndsLike(EditBlock(b, settings), b)
    ensures LinesOf(EditBlock(b, settings))[0] == LinesOf(b)[0]
            || (LinesOf(EditBlock(b, settings))[0] != "" && LinesOf(EditBlock(b, settings))[0][0] != '\n')
  {
    hide OneLine, Entry, KeyOk, Safe;
    if Chosen(b, settings) {
      LookupFinds(settings, b.key);
      var i :| 0 <= i < |settings| && settings[i] == Lookup(settings, b.key).value;
      EntryIsOneLine(settings[i]);
    }
  }

  lemma SeamStays(b: Block, e: Block, bs: seq<Block>, es: seq<Block>)
    requires EndsLike(e, b) && StartsLike(es, bs)
    requires Apart(LinesOf(b)[|LinesOf(b)| - 1], Flatten(bs)[0])
    ensures Apart(LinesOf(e)[|LinesOf(e)| - 1], Flatten(es)[0])
  {
    hide Flatten;
  }

  // ---- Ending the last line ----

  lemma NewlineOpensNothing()
    ensures OpeningOf("\n").Other?
  {
    hide ValueOf, Skipped;
    NoBlanks("\n");
    KeyRun("", "\n");
    assert "" + "\n" == "\n";
  }

  lemma NewlineAlone()
    ensures Solid(Line("\n")) && OneLine("\n") && Ended("\n")
  {
    hide OpeningOf, CloseAt;
    NewlineOpensNothing();
    assert ["\n"][..1] == ["\n"];
  }

  lemma {:induction false} LastNewlineIsProper(lines: seq<string>)
    requires Proper(lines) && lines != []
    requires var l := lines[|lines| - 1]; !Ended(l) || l[|l| - 1] == '\r'
    ensures Proper(LastNewline(lines)) && Join(LastNewline(lines)) == Join(lines) + "\n"
    ensures LastNewline(lines)[0] != "" && lines[0] != "" && LastNewline(lines)[0][0] == lines[0][0]
  {
    var n := |lines| - 1;
    var l := lines[n];
    assert OneLine(l) && OneLine(lines[0]);
    NewlineStays(l);
    assert lines == lines[..n] + [l];
    ProperParts(lines[..n], [l]);
    if n > 0 {
      assert Apart(lines[n - 1], l);
      assert (l + "\n")[0] == l[0];
    }
    ProperSeam(lines[..n], [l + "\n"]);
    JoinAppend(lines[..n], [l]);
    JoinAppend(lines[..n], [l + "\n"]);
    JoinOne(l);
    JoinOne(l + "\n");
  }

  lemma JoinOne(l: string)
    ensures Join([l]) == l
  {
    assert Join([l][1..]) == "";
  }

  lemma {:induction false} FlattenLast(bs: seq<Block>)
    requires bs != []
    ensures Flatten(bs) == Flatten(bs[..|bs| - 1]) + LinesOf(bs[|bs| - 1])
  {
    var n := |bs| - 1;
    assert bs == bs[..n] + [bs[n]];
    FlattenAppend(bs[..n], [bs[n]]);
    FlattenOne(bs[n]);
  }

  ghost predicate EndsInNewline(lines: seq<string>) {
    lines != [] && lines[|lines| - 1] != "" && lines[|lines| - 1][|lines[|lines| - 1]| - 1] == '\n'
  }

  function LastLine(bs: seq<Block>): string
    requires bs != [] && LinesOf(bs[|bs| - 1]) != []
  {
    LinesOf(bs[|bs| - 1])[|LinesOf(bs[|bs| - 1])| - 1]
  }

  lemma {:induction false} LastLineEnds(bs: seq<Block>)
    requires bs != [] && LinesOf(bs[|bs| - 1]) != []
    ensures Flatten(bs) != [] && Flatten(bs)[|Flatten(bs)| - 1] == LastLine(bs)
    ensures Ending(Flatten(bs)) == Ending([LastLine(bs)])
  {
    hide Flatten;
    FlattenLast(bs);
  }

  lemma {:induction false} AddEmptyLine(bs: seq<Block>)
    requires Proper(Flatten(bs)) && bs != [] && LinesOf(bs[|bs| - 1]) != []
    requires Ended(LastLine(bs)) && LastLine(bs)[|LastLine(bs)| - 1] != '\r'
    ensures Proper(Flatten(bs + [Line("\n")])) && EndsInNewline(Flatten(bs + [Line("\n")]))
    ensures Join(Flatten(bs + [Line("\n")])) == Join(Flatten(bs)) + "\n"
  {
    hide Join, Apart, Flatten, Ended, OneLine;
    LastLineEnds(bs);
    NewlineAlone();
    FlattenAppend(bs, [Line("\n")]);
    FlattenOne(Line("\n"));
    ApartFromNewline(LastLine(bs));
    ProperSeam(Flatten(bs), ["\n"]);
    JoinAppend(Flatten(bs), ["\n"]);
    JoinOne("\n");
  }

  lemma {:induction false} AddToLastBlock(bs: seq<Block>)
    requires Proper(Flatten(bs)) && bs != [] && Solid(bs[|bs| - 1]) && LinesOf(bs[|bs| - 1]) != []
    requires !Ended(LastLine(bs)) || LastLine(bs)[|LastLine(bs)| - 1] == '\r'
    ensures var es := bs[..|bs| - 1] + [BlockNewline(bs[|bs| - 1])];
            Proper(Flatten(es)) && EndsInNewline(Flatten(es)) && Join(Flatten(es)) == Join(Flatten(bs)) + "\n"
  {
    hide Join, Apart, Flatten, Ended, OneLine, Solid;
    var n := |bs| - 1;
    var pre, lines := Flatten(bs[..n]), LinesOf(bs[n]);
    FlattenLast(bs);
    ProperParts(pre, lines);
    BlockNewlineIsSolid(bs[n]);
    LastNewlineIsProper(lines);
    FlattenAppend(bs[..n], [BlockNewline(bs[n])]);
    FlattenOne(BlockNewline(bs[n]));
    if pre != [] {
      SeamAfterNewline(pre[|pre| - 1], lines[0], LastNewline(lines)[0]);
    }
    ProperSeam(pre, LastNewline(lines));
    JoinAppend(pre, lines);
    JoinAppend(pre, LastNewline(lines));
  }

  /** Ending the last line keeps every block, or adds an empty line after an unusual line end. */
  lemma {:induction false} NewlinedIsProper(bs: seq<Block>)
    requires AllSolid(bs) && Proper(Flatten(bs)) && bs != []
    ensures LinesOf(bs[|bs| - 1]) != []
    ensures AllSolid(Newlined(bs)) && Proper(Flatten(Newlined(bs))) && EndsInNewline(Flatten(Newlined(bs)))
    ensures Join(Flatten(Newlined(bs))) == Join(Flatten(bs)) + Ending(Flatten(bs))
  {
    hide Solid, Join, Proper, Flatten, Ended;
    var last := bs[|bs| - 1];
    SolidHasLines(last);
    LastLineEnds(bs);
    ProperIsNonEmpty(Flatten(bs));
    if Ending([LastLine(bs)]) == "" {
      assert Join(Flatten(bs)) + "" == Join(Flatten(bs));
    } else if Ended(LastLine(bs)) && LastLine(bs)[|LastLine(bs)| - 1] != '\r' {
      NewlineAlone();
      AddEmptyLine(bs);
    } else {
      BlockNewlineIsSolid(last);
      AddToLastBlock(bs);
    }
  }

  lemma ProperIsNonEmpty(lines: seq<string>)
    requires Proper(lines)
    ensures forall i | 0 <= i < |lines| :: lines[i] != ""
  {
  }

  lemma ApartFromNewline(line: string)
    requires Ended(line) && line[|line| - 1] != '\r'
    ensures Apart(line, "\n")
  {
  }

  lemma SeamAfterNewline(before: string, l: string, m: string)
    requires Apart(before, l) && l != "" && m != "" && l[0] == m[0]
    ensures Apart(before, m)
  {
  }

  // ---- Reading back ----

  function Outcome(bs: seq<Block>, settings: seq<Setting>): seq<Block>
    requires AllSolid(bs) && SettingsOk(settings)
  {
    var edited, more := Edited(bs, settings), Missing(bs, settings);
    if more == [] || edited == [] then edited + more
    else
      EditIsSolid(bs[|bs| - 1], settings);
      SolidHasLines(edited[|edited| - 1]);
      Newlined(edited) + more
  }

  lemma {:induction false} MissingIsProper(bs: seq<Block>, settings: seq<Setting>)
    requires SettingsOk(settings)
    ensures AllSolid(Missing(bs, settings)) && Proper(Flatten(Missing(bs, settings)))
    ensures Missing(bs, settings) != [] ==> StartsAsEntry(Flatten(Missing(bs, settings)))
    decreases |settings|
  {
    hide Solid, Entry, KeyOk, Safe, Occurrences, Proper, StartsAsEntry;
    if settings == [] {
      NothingFlattens();
    } else {
      assert SettingsOk(settings[1..]);
      var rest := Missing(bs, settings[1..]);
      MissingIsProper(bs, settings[1..]);
      if Occurrences(bs, settings[0].key) == 0 {
        EntryIsSolid(settings[0]);
        EntryGoesBefore(settings[0], rest);
      } else {
        assert [] + rest == rest;
      }
    }
  }

  predicate StartsAsEntry(lines: seq<string>) {
    lines != [] && lines[0] != "" && lines[0][0] != '\n'
  }

  lemma EntryGoesBefore(s: Setting, rest: seq<Block>)
    requires KeyOk(s.key) && Safe(s.value) && Proper(Flatten(rest))
    requires rest == [] || StartsAsEntry(Flatten(rest))
    ensures var out := [Assign(s.key, [Entry(s)])] + rest; Proper(Flatten(out)) && StartsAsEntry(Flatten(out))
  {
    hide OneLine, Entry, KeyOk, Safe;
    EntryIsOneLine(s);
    assert ([Assign(s.key, [Entry(s)])] + rest)[1..] == rest;
    NothingFlattens();
    ProperSeam([Entry(s)], Flatten(rest));
  }

  /** Ended blocks followed by entries: their text is the blocks' text, an ending, and the entries' text. */
  lemma {:induction false} AppendedIsProper(edited: seq<Block>, more: seq<Block>)
    requires AllSolid(edited) && Proper(Flatten(edited)) && edited != []
    requires AllSolid(more) && Proper(Flatten(more)) && StartsAsEntry(Flatten(more))
    ensures LinesOf(edited[|edited| - 1]) != []
    ensures var out := Newlined(edited) + more;
            && AllSolid(out) && Proper(Flatten(out))
            && Join(Flatten(out)) == Join(Flatten(edited)) + Ending(Flatten(edited)) + Join(Flatten(more))
  {
    hide Solid, Join, Flatten, Apart, OneLine, Newlined, Ending, EndsInNewline, StartsAsEntry;
    NewlinedIsProper(edited);
    SeamBeforeEntry(Flatten(Newlined(edited)), Flatten(more));
    ProperSeam(Flatten(Newlined(edited)), Flatten(more));
    FlattenAppend(Newlined(edited), more);
    JoinAppend(Flatten(Newlined(edited)), Flatten(more));
  }

  lemma {:induction false} OutcomeIsProper(bs: seq<Block>, settings: seq<Setting>)
    requires AllSolid(bs) && SettingsOk(settings) && Proper(Flatten(bs))
    ensures AllSolid(Outcome(bs, settings)) && Proper(Flatten(Outcome(bs, settings)))
    ensures Written(bs, settings) == Join(Flatten(Outcome(bs, settings)))
  {
    hide Solid, Join, Flatten, Proper, Newlined, Ending, StartsAsEntry, Missing, EditBlock;
    var edited, more := Edited(bs, settings), Missing(bs, settings);
    forall i | 0 <= i < |edited| ensures Solid(edited[i]) {
      EditIsSolid(bs[i], settings);
    }
    EditedIsProper(bs, settings);
    MissingIsProper(bs, settings);
    if more == [] {
      assert edited + [] == edited;
    } else if edited == [] {
      assert [] + more == more;
      NothingFlattens();
      EmptyEnding();
      assert "" + "" + Join(Flatten(more)) == Join(Flatten(more));
    } else {
      AppendedIsProper(edited, more);
    }
  }

  lemma EmptyEnding()
    ensures Ending([]) == ""
  {
  }

  /** The written text reads back as the edited blocks followed by the missing entries. */
  lemma {:induction false} WrittenReadsBack(bs: seq<Block>, settings: seq<Setting>)
    requires AllSolid(bs) && SettingsOk(settings) && Proper(Flatten(bs))
    ensures AllSolid(Outcome(bs, settings))
    ensures Written(bs, settings) == Join(Flatten(Outcome(bs, settings)))
    ensures Split(Written(bs, settings)) == Flatten(Outcome(bs, settings))
    ensures Blocks(Split(Written(bs, settings))) == Some(Outcome(bs, settings))
  {
    hide Solid, Join, Flatten, Blocks, Split, Proper, Written, Outcome;
    OutcomeIsProper(bs, settings);
    SplitOfJoin(Flatten(Outcome(bs, settings)));
    BlocksOfFlatten(Outcome(bs, settings));
  }

  lemma NothingFlattens()
    ensures Flatten([]) == [] && Join([]) == "" && Proper([])
  {
  }

  lemma SeamBeforeEntry(a: seq<string>, b: seq<string>)
    requires EndsInNewline(a) && StartsAsEntry(b)
    ensures Apart(a[|a| - 1], b[0])
  {
  }
}
