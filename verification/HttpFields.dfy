/** HTTP field lines of the egress proxy: the strict line parser and the printer that must agree with it. */
module HttpFields {
  import opened Common
  import opened Streams
  import opened Decimal

  const CRLF: Octets := "\r\n"
  const TOKEN_PUNCTUATION: set<char> :=
    {'!', '#', '$', '%', '&', '\'', '*', '+', '-', '.', '^', '_', '`', '|', '~'}
  const BLANK: set<Octet> := {' ', '\t'}

  datatype Field = Field(name: Octets, value: Octets)

  predicate IsTokenChar(c: Octet) {
    IsDigit(c) || 'A' <= c <= 'Z' || 'a' <= c <= 'z' || c in TOKEN_PUNCTUATION
  }

  predicate IsToken(s: Octets) {
    s != [] && forall i | 0 <= i < |s| :: IsTokenChar(s[i])
  }

  /** Control characters a field value may not hold; the tab is allowed. */
  predicate IsForbiddenControl(c: Octet) {
    (c < ' ' && c != '\t') || c == '\U{7F}'
  }

  predicate IsControlFree(s: Octets) {
    forall i | 0 <= i < |s| :: !IsForbiddenControl(s[i])
  }

  function LowerChar(c: Octet): Octet {
    if 'A' <= c <= 'Z' then ((c as int) + 32) as char else c
  }

  function Lower(s: Octets): (r: Octets)
    ensures |r| == |s|
  {
    seq(|s|, i requires 0 <= i < |s| => LowerChar(s[i]))
  }

  function IndexOf(s: Octets, c: Octet): (k: nat)
    ensures k <= |s|
    ensures k < |s| ==> s[k] == c
  {
    if s == [] || s[0] == c then 0 else 1 + IndexOf(s[1..], c)
  }

  function StripLeft(s: Octets, cs: set<Octet>): (r: Octets)
    ensures |r| <= |s|
    ensures r != [] ==> r[0] !in cs
  {
    if s != [] && s[0] in cs then StripLeft(s[1..], cs) else s
  }

  function StripRight(s: Octets, cs: set<Octet>): (r: Octets)
    ensures r <= s
    ensures r != [] ==> r[|r| - 1] !in cs
  {
    if s != [] && s[|s| - 1] in cs then StripRight(s[..|s| - 1], cs) else s
  }

  lemma {:induction false} StripLeftMembers(s: Octets, cs: set<Octet>, c: Octet)
    ensures c in StripLeft(s, cs) ==> c in s
  {
    if s != [] && s[0] in cs {
      StripLeftMembers(s[1..], cs, c);
    }
  }

  function Strip(s: Octets, cs: set<Octet>): (r: Octets) {
    StripRight(StripLeft(s, cs), cs)
  }

  lemma {:induction false} StripFacts(s: Octets, cs: set<Octet>)
    ensures IsStripped(Strip(s, cs), cs)
    ensures IsControlFree(s) ==> IsControlFree(Strip(s, cs))
    ensures IsStripped(s, cs) ==> Strip(s, cs) == s
  {
    var left := StripLeft(s, cs);
    var r := Strip(s, cs);
    assert r != [] ==> r[0] == left[0];
    if IsControlFree(s) {
      forall i | 0 <= i < |r| ensures !IsForbiddenControl(r[i]) {
        assert r[i] == left[i];
        StripLeftMembers(s, cs, r[i]);
      }
    }
  }

  predicate IsStripped(s: Octets, cs: set<Octet>) {
    s != [] ==> s[0] !in cs && s[|s| - 1] !in cs
  }

  /** The name and value of a field line as they stand on the wire, before case folding and stripping. */
  function RawField(line: Octets): (r: Option<Field>)
    ensures r.Some? ==> IsToken(r.value.name) && IsControlFree(r.value.value)
    ensures r.Some? ==> line == r.value.name + [':'] + r.value.value + CRLF
  {
    if |line| < 2 || line[|line| - 2..] != CRLF then None
    else
      var field := line[..|line| - 2];
      var colon := IndexOf(field, ':');
      if field == [] || field[0] in BLANK || colon == |field| then None
      else
        var name, value := field[..colon], field[colon + 1..];
        if IsToken(name) && IsControlFree(value) then Some(Field(name, value)) else None
  }

  /** Parses one CRLF-terminated field line; None stands for each ValueError the parser raises. */
  function ParseHeaderLine(line: Octets): (r: Option<Field>)
    ensures r.Some? <==> RawField(line).Some?
  {
    match RawField(line)
    case None => None
    case Some(raw) => Some(Field(Lower(raw.name), Strip(raw.value, BLANK)))
  }

  /** The printed form of a field on a re-emitted request. */
  function FieldLine(f: Field): Octets {
    f.name + ": " + f.value + CRLF
  }

  predicate IsCanonical(f: Field) {
    && IsToken(f.name)
    && Lower(f.name) == f.name
    && IsStripped(f.value, BLANK)
    && IsControlFree(f.value)
  }

  lemma LowerIsIdempotent(s: Octets)
    ensures Lower(Lower(s)) == Lower(s)
    ensures IsToken(s) ==> IsToken(Lower(s))
  {
  }

  /** What the parser returns is always in canonical form. */
  lemma {:induction false} ParsedFieldIsCanonical(line: Octets)
    ensures ParseHeaderLine(line).Some? ==> IsCanonical(ParseHeaderLine(line).value)
  {
    var raw := RawField(line);
    if raw.Some? {
      LowerIsIdempotent(raw.value.name);
      StripFacts(raw.value.value, BLANK);
    }
  }

  /** A canonical field is printed as exactly one line and parses back to itself. */
  lemma {:induction false} FieldLineRoundTrip(f: Field, rest: Octets)
    requires IsCanonical(f)
    ensures ParseHeaderLine(FieldLine(f)) == Some(f)
    ensures LineLength(FieldLine(f) + rest) == |FieldLine(f)|
  {
    var padded: Octets := " " + f.value;
    assert IsControlFree(padded) by {
      assert forall i | 0 < i < |padded| :: padded[i] == f.value[i - 1];
    }
    assert FieldLine(f) == f.name + [':'] + padded + CRLF;
    RawFieldOfParts(f.name, padded);
    StripLeadingBlank(f.value);
    RawFieldIsOneLine(FieldLine(f), rest);
  }

  lemma {:induction false} RawFieldOfParts(name: Octets, value: Octets)
    requires IsToken(name) && IsControlFree(value)
    ensures RawField(name + [':'] + value + CRLF) == Some(Field(name, value))
  {
    var field := name + [':'] + value;
    var line := field + CRLF;
    assert line[..|line| - 2] == field && line[|line| - 2..] == CRLF;
    assert field[0] == name[0] && IsTokenChar(name[0]);
    forall i | 0 <= i < |name| ensures field[i] != ':' {
      assert field[i] == name[i] && IsTokenChar(name[i]);
    }
    IndexOfFirst(field, ':', |name|);
    assert field[..|name|] == name && field[|name| + 1..] == value;
  }

  lemma {:induction false} IndexOfNone(s: Octets, c: Octet)
    requires forall i | 0 <= i < |s| :: s[i] != c
    ensures IndexOf(s, c) == |s|
  {
    if s != [] {
      IndexOfNone(s[1..], c);
    }
  }

  lemma {:induction false} IndexOfFirst(s: Octets, c: Octet, k: nat)
    requires k < |s| && s[k] == c
    requires forall i | 0 <= i < k :: s[i] != c
    ensures IndexOf(s, c) == k
  {
    if k > 0 {
      IndexOfFirst(s[1..], c, k - 1);
    }
  }

  lemma StripLeadingBlank(v: Octets)
    requires IsStripped(v, BLANK)
    ensures Strip(" " + v, BLANK) == v
  {
    var padded: Octets := " " + v;
    assert padded[0] == ' ' && padded[1..] == v;
    assert StripLeft(padded, BLANK) == StripLeft(v, BLANK) == v;
  }

  /** Every line the field parser accepts ends at its only newline, and it is not the empty line. */
  lemma {:induction false} RawFieldIsOneLine(line: Octets, rest: Octets)
    requires RawField(line).Some?
    ensures LineLength(line + rest) == |line|
    ensures line != CRLF
  {
    var raw := RawField(line).value;
    var k := |raw.name|;
    forall i | 0 <= i < |line| - 1 ensures line[i] != '\n' {
      if i < k {
        assert line[i] == raw.name[i] && IsTokenChar(raw.name[i]);
      } else if k < i <= k + |raw.value| {
        assert line[i] == raw.value[i - k - 1] && !IsForbiddenControl(raw.value[i - k - 1]);
      }
    }
    FirstLineOfPrefix(line, rest);
  }

  // ---- The grammar of accepted field lines ----

  predicate AllIn(s: Octets, cs: set<Octet>) {
    forall i | 0 <= i < |s| :: s[i] in cs
  }

  /** Stripping takes characters of the set off both ends, and nothing else. */
  lemma {:induction false} StripExact(s: Octets, cs: set<Octet>) returns (lead: Octets, tail: Octets)
    ensures AllIn(lead, cs) && AllIn(tail, cs) && s == lead + Strip(s, cs) + tail
  {
    lead := StripLeftParts(s, cs);
    tail := StripRightParts(StripLeft(s, cs), cs);
    assert s == lead + (Strip(s, cs) + tail);
  }

  lemma {:induction false} StripLeftParts(s: Octets, cs: set<Octet>) returns (lead: Octets)
    ensures AllIn(lead, cs) && s == lead + StripLeft(s, cs)
  {
    lead := [];
    if s != [] && s[0] in cs {
      var more := StripLeftParts(s[1..], cs);
      lead := [s[0]] + more;
      assert s == [s[0]] + s[1..];
    }
  }

  lemma {:induction false} StripRightParts(s: Octets, cs: set<Octet>) returns (tail: Octets)
    ensures AllIn(tail, cs) && s == StripRight(s, cs) + tail
  {
    tail := [];
    if s != [] && s[|s| - 1] in cs {
      var more := StripRightParts(s[..|s| - 1], cs);
      tail := more + [s[|s| - 1]];
      assert s == s[..|s| - 1] + [s[|s| - 1]];
    }
  }

  lemma {:induction false} StripLeftPadded(lead: Octets, rest: Octets, cs: set<Octet>)
    requires AllIn(lead, cs)
    ensures StripLeft(lead + rest, cs) == StripLeft(rest, cs)
  {
    if lead == [] {
      assert lead + rest == rest;
    } else {
      assert (lead + rest)[1..] == lead[1..] + rest;
      StripLeftPadded(lead[1..], rest, cs);
    }
  }

  lemma {:induction false} StripRightPadded(rest: Octets, tail: Octets, cs: set<Octet>)
    requires AllIn(tail, cs)
    ensures StripRight(rest + tail, cs) == StripRight(rest, cs)
  {
    if tail == [] {
      assert rest + tail == rest;
    } else {
      var n := |tail| - 1;
      assert (rest + tail)[..|rest + tail| - 1] == rest + tail[..n] && (rest + tail)[|rest + tail| - 1] == tail[n];
      StripRightPadded(rest, tail[..n], cs);
    }
  }

  lemma {:induction false} StripPadded(lead: Octets, value: Octets, tail: Octets, cs: set<Octet>)
    requires AllIn(lead, cs) && AllIn(tail, cs) && IsStripped(value, cs)
    ensures Strip(lead + value + tail, cs) == value
  {
    hide StripRight, StripLeft;
    assert lead + value + tail == lead + (value + tail);
    StripLeftPadded(lead, value + tail, cs);
    if value == [] {
      assert value + tail == tail && tail + [] == tail && [] + tail == tail;
      StripLeftPadded(tail, [], cs);
      StripsNothing([], cs);
    } else {
      assert (value + tail)[0] == value[0];
      StripsNothing(value + tail, cs);
      StripRightPadded(value, tail, cs);
      StripsNothing(value, cs);
    }
  }

  lemma StripsNothing(s: Octets, cs: set<Octet>)
    ensures s == [] || s[0] !in cs ==> StripLeft(s, cs) == s
    ensures s == [] || s[|s| - 1] !in cs ==> StripRight(s, cs) == s
  {
  }

  /** The same name with its capital letters made small. */
  predicate Folds(raw: Octets, name: Octets) {
    |raw| == |name| && forall i | 0 <= i < |raw| ::
      if 'A' <= raw[i] <= 'Z' then (name[i] as int) - ('a' as int) == (raw[i] as int) - ('A' as int) else name[i] == raw[i]
  }

  /** The line is this field: a token, a colon, the value between blanks, and CRLF. */
  predicate PrintsField(line: Octets, f: Field, name: Octets, lead: Octets, tail: Octets) {
    && IsToken(name) && Folds(name, f.name)
    && AllIn(lead, BLANK) && AllIn(tail, BLANK) && IsStripped(f.value, BLANK) && IsControlFree(f.value)
    && line == name + [':'] + (lead + f.value + tail) + CRLF
  }

  lemma BlanksAreFree(s: Octets)
    requires AllIn(s, BLANK)
    ensures IsControlFree(s)
  {
  }

  /** A line is accepted with this field exactly when the grammar prints it; nothing else is accepted. */
  lemma {:induction false} FieldLineExact(line: Octets, f: Field)
    ensures ParseHeaderLine(line) == Some(f) <==> exists name, lead, tail :: PrintsField(line, f, name, lead, tail)
  {
    hide IsToken, Strip, IsForbiddenControl;
    if ParseHeaderLine(line) == Some(f) {
      var raw := RawField(line).value;
      StripFacts(raw.value, BLANK);
      var lead, tail := StripExact(raw.value, BLANK);
      assert PrintsField(line, f, raw.name, lead, tail);
    }
    forall name, lead, tail | PrintsField(line, f, name, lead, tail) ensures ParseHeaderLine(line) == Some(f) {
      var value := lead + f.value + tail;
      BlanksAreFree(lead);
      BlanksAreFree(tail);
      ControlFreeParts(lead, f.value, tail);
      RawFieldOfParts(name, value);
      StripPadded(lead, f.value, tail, BLANK);
      assert Lower(name) == f.name;
    }
  }

  lemma ControlFreeParts(a: Octets, b: Octets, c: Octets)
    requires IsControlFree(a) && IsControlFree(b) && IsControlFree(c)
    ensures IsControlFree(a + b + c)
  {
    hide IsForbiddenControl;
  }
}
