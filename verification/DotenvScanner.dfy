/** The assignment scanner as the program runs it, line by line and character by character. */
module DotenvScanner {
  import opened Common
  import opened DotenvBlocks
  import opened DotenvGrammar

  /** An assignment's key with the indices of its first and last line. */
  datatype Span = Span(key: string, first: int, last: int)

  function Spans(bs: seq<Block>, at: int): seq<Span> {
    if bs == [] then []
    else
      var next := at + |LinesOf(bs[0])|;
      (if bs[0].Assign? then [Span(bs[0].key, at, next - 1)] else []) + Spans(bs[1..], next)
  }

  /** The assignments of the lines, numbered from at; None when a quoted value is never closed. */
  function Find(lines: seq<string>, at: int): Option<seq<Span>> {
    var bs := Blocks(lines);
    if bs.None? then None else Some(Spans(bs.value, at))
  }

  function After(done: seq<Span>, rest: Option<seq<Span>>): Option<seq<Span>> {
    if rest.None? then None else Some(done + rest.value)
  }

  lemma {:induction false} FindStep(lines: seq<string>, at: int)
    requires lines != []
    ensures Find(lines, at) ==
            match OpeningOf(lines[0])
            case Other => Find(lines[1..], at + 1)
            case Plain(k) => After([Span(k, at, at)], Find(lines[1..], at + 1))
            case Quoted(k, q, rest) => Pending(k, at, q, CloseAt([rest] + lines[1..], q, false), lines, at)
  {
    hide OpeningOf, CloseAt, Blocks;
    BlocksStep(lines);
    var o := OpeningOf(lines[0]);
    if FirstBlock(lines).Some? && Blocks(lines[FirstBlock(lines).value.1..]).Some? {
      var first, rest := FirstBlock(lines).value, Blocks(lines[FirstBlock(lines).value.1..]).value;
      assert ([first.0] + rest)[1..] == rest;
      assert |LinesOf(first.0)| == first.1;
      AfterNothing(Some(Spans(rest, at + first.1)));
    }
  }

  lemma BlocksStep(lines: seq<string>)
    requires lines != []
    ensures Blocks(lines) ==
            if FirstBlock(lines).None? || Blocks(lines[FirstBlock(lines).value.1..]).None? then None
            else Some([FirstBlock(lines).value.0] + Blocks(lines[FirstBlock(lines).value.1..]).value)
  {
    hide FirstBlock;
  }

  /** The find of an open quote: its span, if it closes n lines from here on, and what comes after it. */
  function Pending(key: string, first: int, quote: char, n: Option<nat>, lines: seq<string>, at: int): Option<seq<Span>>
    requires n.Some? ==> n.value <= |lines|
  {
    if n.None? then None
    else After([Span(key, first, at + n.value - 1)], Find(lines[n.value..], at + n.value))
  }

  /** Runs the quote scan over one line's characters. */
  method ScanLine(s: string, quote: char, escaped: bool) returns (scan: Scan)
    ensures scan == ScanQuote(s, quote, escaped)
  {
    var inEscape, i := escaped, 0;
    while i < |s|
      invariant 0 <= i <= |s|
      invariant ScanQuote(s, quote, escaped) == ScanQuote(s[i..], quote, inEscape)
    {
      assert s[i..][0] == s[i] && s[i..][1..] == s[i + 1..];
      if inEscape {
        inEscape := false;
      } else if s[i] == '\\' {
        inEscape := true;
      } else if s[i] == quote {
        return Closed;
      }
      i := i + 1;
    }
    assert s[i..] == "";
    scan := Open(inEscape);
  }

  /** The lines fall into these blocks of the grammar. */
  ghost predicate FallsInto(lines: seq<string>, bs: seq<Block>) {
    Flatten(bs) == lines && forall i | 0 <= i < |bs| :: BlockOk(bs[i])
  }

  /** The place of block j among the lines. */
  predicate IsPlace(span: Span, bs: seq<Block>, j: nat, at: int) {
    && j < |bs| && bs[j].Assign? && span.key == bs[j].key
    && span.first == at + |Flatten(bs[..j])| && span.last == at + |Flatten(bs[..j + 1])| - 1
  }

  /** The spans are the places of these blocks, which are all the assignments, in order. */
  predicate PlacesOf(spans: seq<Span>, where: seq<nat>, bs: seq<Block>, at: int) {
    && |where| == |spans|
    && (forall i | 0 <= i < |where| :: IsPlace(spans[i], bs, where[i], at))
    && (forall i, j | 0 <= i < j < |where| :: where[i] < where[j])
    && (forall j: nat | j < |bs| && bs[j].Assign? :: j in where)
  }

  ghost predicate Places(spans: seq<Span>, bs: seq<Block>, at: int) {
    exists where :: PlacesOf(spans, where, bs, at)
  }

  lemma {:induction false} FlattenFirst(b: Block, rest: seq<Block>, j: nat)
    requires j <= |rest|
    ensures |Flatten(([b] + rest)[..j + 1])| == |LinesOf(b)| + |Flatten(rest[..j])|
  {
    var some := ([b] + rest)[..j + 1];
    assert some[0] == b && some[1..] == rest[..j];
  }

  lemma PlaceMoves(span: Span, b: Block, rest: seq<Block>, j: nat, at: int)
    ensures IsPlace(span, rest, j, at + |LinesOf(b)|) ==> IsPlace(span, [b] + rest, j + 1, at)
  {
    hide Flatten;
    if j < |rest| {
      FlattenFirst(b, rest, j);
      FlattenFirst(b, rest, j + 1);
      assert ([b] + rest)[j + 1] == rest[j];
    }
  }

  lemma FirstPlace(b: Block, rest: seq<Block>, at: int)
    requires b.Assign?
    ensures IsPlace(Span(b.key, at, at + |LinesOf(b)| - 1), [b] + rest, 0, at)
  {
    FlattenFirst(b, rest, 0);
    assert rest[..0] == [] && ([b] + rest)[..0] == [];
  }

  lemma {:induction false} SpansArePlaces(bs: seq<Block>, at: int) returns (where: seq<nat>)
    ensures PlacesOf(Spans(bs, at), where, bs, at)
    decreases |bs|
  {
    hide IsPlace, Flatten;
    where := [];
    if bs != [] {
      var b, rest := bs[0], bs[1..];
      var next := at + |LinesOf(b)|;
      var more := SpansArePlaces(rest, next);
      assert bs == [b] + rest;
      if b.Assign? {
        FirstPlace(b, rest, at);
      }
      where := MorePlaces(b, rest, Spans(rest, next), more, at);
    }
  }

  lemma {:induction false} MorePlaces(b: Block, rest: seq<Block>, spans: seq<Span>, more: seq<nat>, at: int)
    returns (where: seq<nat>)
    requires PlacesOf(spans, more, rest, at + |LinesOf(b)|)
    requires b.Assign? ==> IsPlace(Span(b.key, at, at + |LinesOf(b)| - 1), [b] + rest, 0, at)
    ensures var first := if b.Assign? then [Span(b.key, at, at + |LinesOf(b)| - 1)] else [];
            PlacesOf(first + spans, where, [b] + rest, at)
  {
    hide IsPlace;
    var bs := [b] + rest;
    var shifted := seq(|more|, i requires 0 <= i < |more| => more[i] + 1);
    var zero: seq<nat> := if b.Assign? then [0] else [];
    var first := if b.Assign? then [Span(b.key, at, at + |LinesOf(b)| - 1)] else [];
    where := zero + shifted;
    forall i | 0 <= i < |where| ensures IsPlace((first + spans)[i], bs, where[i], at) {
      if i >= |zero| {
        assert IsPlace(spans[i - |zero|], rest, more[i - |zero|], at + |LinesOf(b)|);
        PlaceMoves(spans[i - |zero|], b, rest, more[i - |zero|], at);
      }
    }
    forall j: nat | j < |bs| && bs[j].Assign? ensures j in where {
      if j > 0 {
        assert rest[j - 1].Assign?;
        var i :| 0 <= i < |more| && more[i] == j - 1;
        assert where[|zero| + i] == j;
      }
    }
  }

  /** Finds the assignments of the lines, in order, with all their lines; nothing when a quoted value is never closed. */
  method EnvironmentAssignments(lines: seq<string>) returns (r: Option<seq<Span>>)
    ensures r == Find(lines, 0)
    ensures r.Some? <==> exists bs :: FallsInto(lines, bs)
    ensures forall bs | FallsInto(lines, bs) :: r.Some? && Places(r.value, bs, 0)
  {
    r := Scan(lines);
    FindMeans(lines);
  }

  lemma {:induction false} FallsExactly(lines: seq<string>)
    ensures Blocks(lines).None? <==> forall bs :: !FallsInto(lines, bs)
    ensures forall bs | FallsInto(lines, bs) :: Blocks(lines) == Some(bs)
    ensures Blocks(lines).Some? ==> FallsInto(lines, Blocks(lines).value)
  {
    hide Blocks, Flatten, BlockOk;
    if Blocks(lines).Some? {
      BlocksExact(lines, Blocks(lines).value);
      assert FallsInto(lines, Blocks(lines).value);
    }
    forall bs | FallsInto(lines, bs) ensures Blocks(lines) == Some(bs) {
      BlocksExact(lines, bs);
    }
  }

  lemma {:induction false} FindMeans(lines: seq<string>)
    ensures var r := Find(lines, 0);
            && (r.Some? <==> exists bs :: FallsInto(lines, bs))
            && forall bs | FallsInto(lines, bs) :: r.Some? && Places(r.value, bs, 0)
  {
    hide Blocks, Spans, FallsInto, PlacesOf;
    FallsExactly(lines);
    if Blocks(lines).Some? {
      assert FallsInto(lines, Blocks(lines).value);
      var where := SpansArePlaces(Blocks(lines).value, 0);
    }
  }

  method Scan(lines: seq<string>) returns (r: Option<seq<Span>>)
    ensures r == Find(lines, 0)
  {
    hide OpeningOf, ScanQuote, Find, CloseAt;
    var done: seq<Span> := [];
    var pending: Option<(string, int, char)>, escaped := None, false;
    var i := 0;
    assert lines[0..] == lines;
    AfterNothing(Find(lines, 0));
    while i < |lines|
      invariant 0 <= i <= |lines|
      invariant pending.None? ==> Find(lines, 0) == After(done, Find(lines[i..], i))
      invariant pending.Some? ==>
                  Find(lines, 0) == After(done, Pending(pending.value.0, pending.value.1, pending.value.2,
                                                       CloseAt(lines[i..], pending.value.2, escaped), lines[i..], i))
    {
      ghost var here := lines[i..];
      assert here[0] == lines[i] && here[1..] == lines[i + 1..];
      var value := lines[i];
      if pending.None? {
        FindStep(here, i);
        match OpeningOf(lines[i]) {
          case Other =>
            i := i + 1;
            continue;
          case Plain(key) =>
            AfterTwice(done, [Span(key, i, i)], Find(here[1..], i + 1));
            done := done + [Span(key, i, i)];
            i := i + 1;
            continue;
          case Quoted(key, quote, rest) =>
            pending, escaped, value := Some((key, i, quote)), false, rest;
        }
      }
      var key, first, quote := pending.value.0, pending.value.1, pending.value.2;
      CloseStep(value, here, quote, escaped);
      var scan := ScanLine(value, quote, escaped);
      PendingStep(key, first, quote, scan, here, i);
      if scan.Closed? {
        AfterTwice(done, [Span(key, first, i)], Find(here[1..], i + 1));
        done := done + [Span(key, first, i)];
        pending := None;
      } else {
        escaped := scan.escaped;
      }
      i := i + 1;
    }
    EndFind(i);
    assert lines[i..] == [];
    if pending.Some? {
      return None;
    }
    assert done + [] == done;
    return Some(done);
  }

  lemma AfterNothing(r: Option<seq<Span>>)
    ensures After([], r) == r
  {
    if r.Some? {
      assert [] + r.value == r.value;
    }
  }

  lemma AfterTwice(a: seq<Span>, b: seq<Span>, r: Option<seq<Span>>)
    ensures After(a, After(b, r)) == After(a + b, r)
  {
    if r.Some? {
      Reassociate(a, b, r.value);
    }
  }

  lemma EndFind(at: int)
    ensures Find([], at) == Some([]) && forall q, esc :: CloseAt([], q, esc).None?
  {
  }

  lemma CloseStep(value: string, here: seq<string>, quote: char, escaped: bool)
    requires here != []
    ensures CloseAt([value] + here[1..], quote, escaped) ==
            var scan := ScanQuote(value, quote, escaped);
            if scan.Closed? then Some(1)
            else
              var more := CloseAt(here[1..], quote, scan.escaped);
              if more.None? then None else Some(more.value + 1)
    ensures CloseAt([here[0]] + here[1..], quote, escaped) == CloseAt(here, quote, escaped)
  {
    hide ScanQuote;
    assert ([value] + here[1..])[1..] == here[1..];
    assert [here[0]] + here[1..] == here;
  }

  /** After one scanned line an open quote is either found closed, or open from the next line on. */
  lemma PendingStep(key: string, first: int, quote: char, scan: Scan, here: seq<string>, at: int)
    requires here != []
    ensures Pending(key, first, quote, Some(1), here, at) == After([Span(key, first, at)], Find(here[1..], at + 1))
    ensures scan.Open? ==>
              var more := CloseAt(here[1..], quote, scan.escaped);
              Pending(key, first, quote, if more.None? then None else Some(more.value + 1), here, at)
              == Pending(key, first, quote, more, here[1..], at + 1)
  {
    hide CloseAt, Find;
    if scan.Open? {
      var more := CloseAt(here[1..], quote, scan.escaped);
      if more.Some? {
        assert here[more.value + 1..] == here[1..][more.value..];
      }
    }
  }
}
