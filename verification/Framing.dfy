/**
 Request framing (sections 5.1 and 6.1 to 6.3 of RFC 9112): how the proxy reads Content-Length and
 Transfer-Encoding, how it re-emits a request head, and why reparsing that head gives the same framing.
 */
module Framing {
  import opened Common
  import opened Streams
  import opened Decimal
  import opened HttpFields

  /** The characters str.strip removes, below 256. */
  const WHITESPACE: set<Octet> :=
    {' ', '\t', '\n', '\r', '\U{B}', '\U{C}', '\U{1C}', '\U{1D}', '\U{1E}', '\U{1F}', '\U{85}', '\U{A0}'}

  datatype Framing = Framing(contentLength: Option<nat>, codings: seq<Octets>)

  datatype FramingError =
    | InvalidContentLength | ConflictingContentLength
    | InvalidTransferEncoding | MisplacedChunked | BothFramings

  function ValuesNamed(headers: seq<Field>, name: Octets): seq<Octets> {
    if headers == [] then []
    else (if headers[0].name == name then [headers[0].value] else []) + ValuesNamed(headers[1..], name)
  }

  function SplitComma(s: Octets): (parts: seq<Octets>)
    ensures parts != []
    decreases |s|
  {
    var k := IndexOf(s, ',');
    if k == |s| then [s] else [s[..k]] + SplitComma(s[k + 1..])
  }

  function StripAll(parts: seq<Octets>): seq<Octets> {
    seq(|parts|, i requires 0 <= i < |parts| => Strip(parts[i], WHITESPACE))
  }

  function LowerAll(parts: seq<Octets>): seq<Octets> {
    seq(|parts|, i requires 0 <= i < |parts| => Lower(parts[i]))
  }

  /** The comma-separated parts of all the given values, stripped, in order. */
  function ListParts(values: seq<Octets>): seq<Octets> {
    if values == [] then [] else StripAll(SplitComma(values[0])) + ListParts(values[1..])
  }

  /** The declared content length: every listed value must be decimal, and all must agree. */
  function ContentLengthOf(parts: seq<Octets>): Result<Option<nat>, FramingError> {
    if parts == [] then Ok(None)
    else if exists i | 0 <= i < |parts| :: !IsDecimal(parts[i]) then Err(InvalidContentLength)
    else if exists i | 0 <= i < |parts| :: DecimalValue(parts[i]) != DecimalValue(parts[0]) then
      Err(ConflictingContentLength)
    else Ok(Some(DecimalValue(parts[0])))
  }

  const CHUNKED: Octets := "chunked"

  function CodingsOf(parts: seq<Octets>, contentLength: Option<nat>): Result<seq<Octets>, FramingError> {
    if parts == [] then Ok([])
    else if exists i | 0 <= i < |parts| :: !IsToken(parts[i]) then Err(InvalidTransferEncoding)
    else if parts[|parts| - 1] != CHUNKED || CHUNKED in parts[..|parts| - 1] then Err(MisplacedChunked)
    else if contentLength.Some? then Err(BothFramings)
    else Ok(parts)
  }

  const CONTENT_LENGTH: Octets := "content-length"
  const TRANSFER_ENCODING: Octets := "transfer-encoding"
  const HOST: Octets := "host"
  const CONNECTION: Octets := "connection"
  const PROXY_CONNECTION: Octets := "proxy-connection"
  const PROXY_AUTHORIZATION: Octets := "proxy-authorization"

  /** The framing of a request with these header fields. */
  function FramingOf(headers: seq<Field>): Result<Framing, FramingError> {
    match ContentLengthOf(ListParts(ValuesNamed(headers, CONTENT_LENGTH)))
    case Err(e) => Err(e)
    case Ok(length) =>
      match CodingsOf(LowerAll(ListParts(ValuesNamed(headers, TRANSFER_ENCODING))), length)
      case Err(e) => Err(e)
      case Ok(codings) => Ok(Framing(length, codings))
  }

  predicate IsReplaced(name: Octets) {
    name in {CONNECTION, PROXY_CONNECTION, PROXY_AUTHORIZATION, HOST, CONTENT_LENGTH, TRANSFER_ENCODING}
  }

  /** The client's fields that are forwarded as they are. */
  function Kept(headers: seq<Field>): seq<Field> {
    if headers == [] then []
    else (if IsReplaced(headers[0].name) then [] else [headers[0]]) + Kept(headers[1..])
  }

  function JoinCodings(codings: seq<Octets>): Octets
    requires codings != []
  {
    if |codings| == 1 then codings[0] else codings[0] + ", " + JoinCodings(codings[1..])
  }

  /** The fields the proxy writes itself, behind the forwarded ones. */
  function OwnFields(host: Octets, framing: Framing, authorization: Option<Octets>): seq<Field> {
    [Field(HOST, host)]
    + (if framing.contentLength.Some? then
         [Field(CONTENT_LENGTH, ShowDecimal(framing.contentLength.value))] else [])
    + (if framing.codings != [] then [Field(TRANSFER_ENCODING, JoinCodings(framing.codings))] else [])
    + (if authorization.Some? then [Field(PROXY_AUTHORIZATION, authorization.value)] else [])
    + [Field(CONNECTION, "close")]
  }

  function EmittedFields(
    headers: seq<Field>, host: Octets, framing: Framing, authorization: Option<Octets>): seq<Field>
  {
    Kept(headers) + OwnFields(host, framing, authorization)
  }

  function ShowFields(fields: seq<Field>): Octets {
    if fields == [] then [] else FieldLine(fields[0]) + ShowFields(fields[1..])
  }

  // ---- The proxy's loops ----

  method ReadValues(headers: seq<Field>, name: Octets) returns (values: seq<Octets>)
    ensures values == ValuesNamed(headers, name)
  {
    values := [];
    for i := 0 to |headers|
      invariant values + ValuesNamed(headers[i..], name) == ValuesNamed(headers, name)
    {
      if headers[i].name == name {
        values := values + [headers[i].value];
      }
      assert headers[i..][1..] == headers[i + 1..];
    }
  }

  method ReadParts(values: seq<Octets>) returns (parts: seq<Octets>)
    ensures parts == ListParts(values)
  {
    parts := [];
    for i := 0 to |values|
      invariant parts + ListParts(values[i..]) == ListParts(values)
    {
      parts := parts + StripAll(SplitComma(values[i]));
      assert values[i..][1..] == values[i + 1..];
    }
  }

  /** Every listed length is decimal and says the same. */
  predicate DeclaresLength(lengths: seq<Octets>, n: nat) {
    lengths != [] && forall i | 0 <= i < |lengths| :: IsDecimal(lengths[i]) && DecimalValue(lengths[i]) == n
  }

  /** Every listed coding is a token, and the last and only the last is chunked. */
  predicate EndsChunked(codings: seq<Octets>) {
    && codings != [] && (forall i | 0 <= i < |codings| :: IsToken(Lower(codings[i])))
    && forall i | 0 <= i < |codings| :: Lower(codings[i]) == "chunked" <==> i == |codings| - 1
  }

  /** What the listed lengths and codings of a request come to. */
  ghost predicate Frames(lengths: seq<Octets>, codings: seq<Octets>, r: Result<Framing, FramingError>) {
    && (r.Ok? <==>
          && (lengths == [] || exists n :: DeclaresLength(lengths, n))
          && (codings == [] || (lengths == [] && EndsChunked(codings))))
    && (r.Ok? ==>
          && (if lengths == [] then r.value.contentLength.None?
              else r.value.contentLength.Some? && DeclaresLength(lengths, r.value.contentLength.value))
          && |r.value.codings| == |codings| && forall i | 0 <= i < |codings| :: r.value.codings[i] == Lower(codings[i]))
    && (r == Err(InvalidContentLength) <==> exists i :: 0 <= i < |lengths| && !IsDecimal(lengths[i]))
    && (r == Err(ConflictingContentLength) <==>
          && (forall i | 0 <= i < |lengths| :: IsDecimal(lengths[i]))
          && exists i :: 0 <= i < |lengths| && DecimalValue(lengths[i]) != DecimalValue(lengths[0]))
    && (r == Err(InvalidTransferEncoding) <==>
          && (lengths == [] || exists n :: DeclaresLength(lengths, n))
          && exists i :: 0 <= i < |codings| && !IsToken(Lower(codings[i])))
    && (r == Err(BothFramings) <==> EndsChunked(codings) && exists n :: DeclaresLength(lengths, n))
  }

  lemma LengthsMean(lengths: seq<Octets>)
    ensures var r := ContentLengthOf(lengths);
            && (r.Ok? <==> lengths == [] || exists n :: DeclaresLength(lengths, n))
            && (r.Ok? ==> if lengths == [] then r.value.None? else r.value.Some? && DeclaresLength(lengths, r.value.value))
            && (r == Err(InvalidContentLength) <==> exists i :: 0 <= i < |lengths| && !IsDecimal(lengths[i]))
            && (r == Err(ConflictingContentLength) <==>
                  && (forall i | 0 <= i < |lengths| :: IsDecimal(lengths[i]))
                  && exists i :: 0 <= i < |lengths| && DecimalValue(lengths[i]) != DecimalValue(lengths[0]))
            && (r.Err? ==> r.error.InvalidContentLength? || r.error.ConflictingContentLength?)
  {
    hide DecimalValue;
    var r := ContentLengthOf(lengths);
    if r.Ok? && lengths != [] {
      assert DeclaresLength(lengths, DecimalValue(lengths[0]));
    }
  }

  lemma CodingsMean(codings: seq<Octets>, length: Option<nat>)
    ensures var r := CodingsOf(LowerAll(codings), length);
            && (r.Ok? <==> codings == [] || (length.None? && EndsChunked(codings)))
            && (r.Ok? ==> r.value == LowerAll(codings))
            && (r == Err(InvalidTransferEncoding) <==> exists i :: 0 <= i < |codings| && !IsToken(Lower(codings[i])))
            && (r == Err(BothFramings) <==> length.Some? && EndsChunked(codings))
            && (r.Err? ==> r.error.BothFramings? || r.error.InvalidTransferEncoding? || r.error.MisplacedChunked?)
  {
    hide IsToken, Lower;
    var all := LowerAll(codings);
    if codings != [] {
      var n := |codings| - 1;
      assert CHUNKED in all[..n] <==> exists i :: 0 <= i < n && Lower(codings[i]) == CHUNKED by {
        assert forall i | 0 <= i < n :: all[..n][i] == Lower(codings[i]);
      }
      assert forall i | 0 <= i < |all| :: all[i] == Lower(codings[i]);
    }
  }

  /** The framing follows from the listed lengths and codings, error cases included. */
  lemma FramingMeans(headers: seq<Field>)
    ensures Frames(ListParts(ValuesNamed(headers, "content-length")),
                   ListParts(ValuesNamed(headers, "transfer-encoding")), FramingOf(headers))
  {
    PartsMean(ListParts(ValuesNamed(headers, CONTENT_LENGTH)), ListParts(ValuesNamed(headers, TRANSFER_ENCODING)),
              FramingOf(headers));
  }

  lemma PartsMean(lengths: seq<Octets>, codings: seq<Octets>, r: Result<Framing, FramingError>)
    requires r == match ContentLengthOf(lengths)
                  case Err(e) => Err(e)
                  case Ok(length) =>
                    match CodingsOf(LowerAll(codings), length)
                    case Err(e) => Err(e)
                    case Ok(all) => Ok(Framing(length, all))
    ensures Frames(lengths, codings, r)
  {
    hide ContentLengthOf, CodingsOf, DecimalValue;
    LengthsMean(lengths);
    if ContentLengthOf(lengths).Ok? {
      CodingsMean(codings, ContentLengthOf(lengths).value);
    }
  }

  /** The values of the fields of one name are picked from the list in order, all of them and no others. */
  lemma {:induction false} ValuesNamedAre(headers: seq<Field>, name: Octets) returns (which: seq<nat>)
    ensures |which| == |ValuesNamed(headers, name)|
    ensures forall p | 0 <= p < |which| :: which[p] < |headers| && ValuesNamed(headers, name)[p] == headers[which[p]].value
    ensures forall p, q | 0 <= p < q < |which| :: which[p] < which[q]
    ensures forall i: nat | i < |headers| :: i in which <==> headers[i].name == name
  {
    which := [];
    if headers != [] {
      var n := |headers| - 1;
      var init := headers[..n];
      which := ValuesNamedAre(init, name);
      assert headers == init + [headers[n]];
      ValuesNamedAppend(init, [headers[n]], name);
      OneField(headers[n], name);
      if headers[n].name == name {
        which := which + [n];
      }
    }
  }

  /** The forwarded fields are picked from the client's in order: all but the six the proxy handles itself. */
  lemma {:induction false} KeptAre(headers: seq<Field>) returns (which: seq<nat>)
    ensures |which| == |Kept(headers)|
    ensures forall p | 0 <= p < |which| :: which[p] < |headers| && Kept(headers)[p] == headers[which[p]]
    ensures forall p, q | 0 <= p < q < |which| :: which[p] < which[q]
    ensures forall i: nat | i < |headers| :: i in which <==>
              headers[i].name !in {"connection", "proxy-connection", "proxy-authorization", "host", "content-length",
                                   "transfer-encoding"}
  {
    hide IsReplaced;
    which := [];
    if headers != [] {
      var n := |headers| - 1;
      var init := headers[..n];
      which := KeptAre(init);
      assert headers == init + [headers[n]];
      KeptLast(init, headers[n]);
      ReplacedNames(headers[n].name);
      if !IsReplaced(headers[n].name) {
        which := which + [n];
      }
    }
  }

  lemma ReplacedNames(name: Octets)
    ensures IsReplaced(name) <==>
            name in {"connection", "proxy-connection", "proxy-authorization", "host", "content-length", "transfer-encoding"}
  {
  }

  lemma {:induction false} KeptLast(headers: seq<Field>, f: Field)
    ensures Kept(headers + [f]) == Kept(headers) + (if IsReplaced(f.name) then [] else [f])
  {
    hide IsReplaced;
    if headers == [] {
      assert [] + [f] == [f] && Kept([f][1..]) == [];
    } else {
      assert (headers + [f])[1..] == headers[1..] + [f];
      KeptLast(headers[1..], f);
    }
  }

  function JoinCommas(parts: seq<Octets>): Octets
    requires parts != []
  {
    if |parts| == 1 then parts[0] else parts[0] + [','] + JoinCommas(parts[1..])
  }

  /** Splitting at commas leaves none in a part and loses nothing. */
  lemma {:induction false} SplitCommaExact(s: Octets)
    ensures JoinCommas(SplitComma(s)) == s
    ensures forall p <- SplitComma(s) :: ',' !in p
    decreases |s|
  {
    var k := IndexOf(s, ',');
    IndexOfIsFirst(s, ',');
    if k < |s| {
      SplitCommaExact(s[k + 1..]);
      assert ([s[..k]] + SplitComma(s[k + 1..]))[1..] == SplitComma(s[k + 1..]);
      assert s == s[..k] + [','] + s[k + 1..];
    }
  }

  lemma {:induction false} IndexOfIsFirst(s: Octets, c: Octet)
    ensures forall i | 0 <= i < IndexOf(s, c) :: s[i] != c
  {
    if s != [] && s[0] != c {
      IndexOfIsFirst(s[1..], c);
      assert forall i | 0 < i < |s| :: s[i] == s[1..][i - 1];
    }
  }

  /** The parts of several values are those of each, one after the other. */
  lemma {:induction false} ListPartsOfTwo(a: seq<Octets>, b: seq<Octets>)
    ensures ListParts(a + b) == ListParts(a) + ListParts(b)
  {
    hide StripAll, SplitComma;
    if a == [] {
      assert a + b == b;
    } else {
      assert (a + b)[1..] == a[1..] + b;
      ListPartsOfTwo(a[1..], b);
    }
  }

  method ParseRequestFraming(headers: seq<Field>) returns (r: Result<Framing, FramingError>)
    ensures r == FramingOf(headers)
    ensures Frames(ListParts(ValuesNamed(headers, "content-length")),
                   ListParts(ValuesNamed(headers, "transfer-encoding")), r)
  {
    hide Frames;
    FramingMeans(headers);
    var values := ReadValues(headers, CONTENT_LENGTH);
    var lengths := ReadParts(values);
    var contentLength := ContentLengthOf(lengths);
    if contentLength.Err? {
      return Err(contentLength.error);
    }
    values := ReadValues(headers, TRANSFER_ENCODING);
    var codings := ReadParts(values);
    var checked := CodingsOf(LowerAll(codings), contentLength.value);
    if checked.Err? {
      return Err(checked.error);
    }
    return Ok(Framing(contentLength.value, checked.value));
  }

  /** The head the proxy sends upstream, behind the request line. */
  method EmitHead(headers: seq<Field>, host: Octets, framing: Framing, authorization: Option<Octets>)
    returns (head: Octets)
    ensures head == ShowFields(EmittedFields(headers, host, framing, authorization)) + CRLF
  {
    hide FieldLine, IsReplaced, Kept, ShowFields, ShowDecimal, JoinCodings;
    head := [];
    for i := 0 to |headers|
      invariant head + ShowFields(Kept(headers[i..])) == ShowFields(Kept(headers))
    {
      KeptStep(headers, i);
      if !IsReplaced(headers[i].name) {
        ShowFieldsAppend([headers[i]], Kept(headers[i + 1..]));
        ShowOneField(headers[i]);
        head := head + FieldLine(headers[i]);
      }
    }
    var own := [Field(HOST, host)];
    if framing.contentLength.Some? {
      own := own + [Field(CONTENT_LENGTH, ShowDecimal(framing.contentLength.value))];
    }
    if framing.codings != [] {
      own := own + [Field(TRANSFER_ENCODING, JoinCodings(framing.codings))];
    }
    if authorization.Some? {
      own := own + [Field(PROXY_AUTHORIZATION, authorization.value)];
    }
    own := own + [Field(CONNECTION, "close")];
    assert own == OwnFields(host, framing, authorization);
    ShowFieldsAppend(Kept(headers), own);
    assert headers[|headers|..] == [];
    NothingKept();
    head := head + ShowFields(own) + CRLF;
  }

  lemma NothingKept()
    ensures ShowFields(Kept([])) == []
  {
  }

  lemma {:induction false} KeptStep(headers: seq<Field>, i: nat)
    requires i < |headers|
    ensures Kept(headers[i..])
         == (if IsReplaced(headers[i].name) then [] else [headers[i]]) + Kept(headers[i + 1..])
    ensures IsReplaced(headers[i].name) ==> Kept(headers[i..]) == Kept(headers[i + 1..])
  {
    hide IsReplaced;
    assert headers[i..][1..] == headers[i + 1..];
  }

  lemma {:induction false} ShowOneField(f: Field)
    ensures ShowFields([f]) == FieldLine(f)
  {
    hide FieldLine;
    assert [f][1..] == [];
    assert ShowFields([f]) == FieldLine(f) + [];
  }

  lemma {:induction false} ShowFieldsAppend(a: seq<Field>, b: seq<Field>)
    ensures ShowFields(a + b) == ShowFields(a) + ShowFields(b)
  {
    hide FieldLine;
    if a == [] {
      assert a + b == b;
    } else {
      assert (a + b)[1..] == a[1..] + b;
      ShowFieldsAppend(a[1..], b);
    }
  }

  // ---- Reading a head back ----

  /** Reads field lines up to the empty line, as the proxy reads a request head. */
  function ReadFields(s: Octets): Option<seq<Field>>
    decreases |s|
  {
    var n := LineLength(s);
    var line := s[..n];
    if s == [] then None
    else if line == CRLF then Some([])
    else
      var f := ParseHeaderLine(line);
      var more := ReadFields(s[n..]);
      if f.None? || more.None? then None else Some([f.value] + more.value)
  }

  /** A printed block of canonical fields is read back field by field. */
  lemma {:induction false} ShownFieldsAreRead(fields: seq<Field>)
    requires forall i | 0 <= i < |fields| :: IsCanonical(fields[i])
    ensures ReadFields(ShowFields(fields) + CRLF) == Some(fields)
  {
    hide FieldLine, ParseHeaderLine, RawField, LineLength, IsCanonical;
    if fields == [] {
      FirstLineOfPrefix(CRLF, []);
      assert ShowFields(fields) + CRLF == CRLF + [] == CRLF;
    } else {
      var f, rest := fields[0], ShowFields(fields[1..]) + CRLF;
      assert IsCanonical(f);
      FieldLineRoundTrip(f, rest);
      ShownFieldsAreRead(fields[1..]);
      var s := FieldLine(f) + rest;
      assert ShowFields(fields) + CRLF == s;
      assert s[..|FieldLine(f)|] == FieldLine(f) && s[|FieldLine(f)|..] == rest;
      RawFieldIsOneLine(FieldLine(f), []);
      assert [f] + fields[1..] == fields;
    }
  }

  /** Every field a head is read into is canonical. */
  lemma {:induction false} ReadFieldsAreCanonical(s: Octets)
    ensures ReadFields(s).Some? ==> forall f <- ReadFields(s).value :: IsCanonical(f)
    decreases |s|
  {
    hide ParseHeaderLine, RawField, LineLength, IsCanonical;
    var line := s[..LineLength(s)];
    if s != [] && line != CRLF {
      ParsedFieldIsCanonical(line);
      ReadFieldsAreCanonical(s[LineLength(s)..]);
    }
  }

  // ---- List round trips ----

  predicate IsListToken(s: Octets) {
    IsToken(s) && Lower(s) == s
  }

  lemma TokenCharIsPlain(c: Octet)
    requires IsTokenChar(c)
    ensures c !in WHITESPACE && c != ','
  {
  }

  lemma {:induction false} TokenIsStripped(s: Octets)
    requires IsToken(s)
    ensures Strip(s, WHITESPACE) == s && Strip([' '] + s, WHITESPACE) == s
    ensures forall i | 0 <= i < |s| :: s[i] != ','
  {
    hide IsTokenChar, Strip;
    forall i | 0 <= i < |s| ensures s[i] !in WHITESPACE && s[i] != ',' {
      TokenCharIsPlain(s[i]);
    }
    StripFacts(s, WHITESPACE);
    StripLeadingSpace(s);
  }

  lemma {:induction false} StripLeadingSpace(s: Octets)
    ensures Strip([' '] + s, WHITESPACE) == Strip(s, WHITESPACE)
  {
    var padded := [' '] + s;
    assert padded[0] == ' ' && padded[1..] == s;
  }

  /** Splitting a joined list of codings at its commas and stripping the parts gives the list back. */
  lemma {:induction false} JoinedCodingsSplit(codings: seq<Octets>, lead: Octets)
    requires codings != [] && forall i | 0 <= i < |codings| :: IsToken(codings[i])
    requires lead == [] || lead == [' ']
    ensures StripAll(SplitComma(lead + JoinCodings(codings))) == codings
    decreases |codings|
  {
    hide IsToken, IsTokenChar, StripLeft, StripRight, Strip, SplitComma, StripAll;
    var first := lead + codings[0];
    assert IsToken(codings[0]);
    LeadThenToken(lead, codings[0]);
    if |codings| == 1 {
      NoCommaNoSplit(first);
      StripFirst(first, [], codings[0], []);
    } else {
      var rest := [' '] + JoinCodings(codings[1..]);
      JoinedCodingsSplit(codings[1..], [' ']);
      assert lead + JoinCodings(codings) == first + [','] + rest;
      SplitAtComma(first, rest);
      StripFirst(first, SplitComma(rest), codings[0], codings[1..]);
    }
  }

  lemma {:induction false} LeadThenToken(lead: Octets, token: Octets)
    requires IsToken(token) && (lead == [] || lead == [' '])
    ensures Strip(lead + token, WHITESPACE) == token
    ensures forall i | 0 <= i < |lead + token| :: (lead + token)[i] != ','
  {
    TokenIsStripped(token);
    assert [] + token == token;
  }

  lemma {:induction false} StripFirst(s: Octets, more: seq<Octets>, t: Octets, ts: seq<Octets>)
    requires Strip(s, WHITESPACE) == t
    requires more == ts == [] || StripAll(more) == ts
    ensures StripAll([s] + more) == [t] + ts
    ensures ts == [] ==> [t] + ts == [t] && [s] + [] == [s]
  {
    hide Strip;
  }

  lemma {:induction false} NoCommaNoSplit(s: Octets)
    requires forall i | 0 <= i < |s| :: s[i] != ','
    ensures SplitComma(s) == [s]
  {
    IndexOfNone(s, ',');
  }

  lemma {:induction false} SplitAtComma(first: Octets, rest: Octets)
    requires forall i | 0 <= i < |first| :: first[i] != ','
    ensures SplitComma(first + [','] + rest) == [first] + SplitComma(rest)
  {
    var s := first + [','] + rest;
    IndexOfFirst(s, ',', |first|);
    assert s[..|first|] == first && s[|first| + 1..] == rest;
  }

  // ---- The framing of an emitted head ----

  lemma {:induction false} ValuesNamedAppend(a: seq<Field>, b: seq<Field>, name: Octets)
    ensures ValuesNamed(a + b, name) == ValuesNamed(a, name) + ValuesNamed(b, name)
  {
    if a == [] {
      assert a + b == b;
    } else {
      assert (a + b)[1..] == a[1..] + b;
      ValuesNamedAppend(a[1..], b, name);
    }
  }

  lemma {:induction false} KeptHasNone(headers: seq<Field>, name: Octets)
    requires IsReplaced(name)
    ensures ValuesNamed(Kept(headers), name) == []
  {
    hide IsReplaced;
    if headers != [] {
      KeptHasNone(headers[1..], name);
      KeptStep(headers, 0);
      assert headers[0..] == headers;
      if !IsReplaced(headers[0].name) {
        ValuesNamedAppend([headers[0]], Kept(headers[1..]), name);
        OneField(headers[0], name);
      }
    }
  }

  lemma {:induction false} OneField(f: Field, name: Octets)
    ensures ValuesNamed([f], name) == if f.name == name then [f.value] else []
  {
  }

  /** Which of the proxy's own fields carry a given name. */
  lemma {:induction false} OwnValues(host: Octets, framing: Framing, authorization: Option<Octets>, name: Octets)
    ensures ValuesNamed(OwnFields(host, framing, authorization), name)
         == (if name == HOST then [host] else [])
            + (if name == CONTENT_LENGTH && framing.contentLength.Some? then
                 [ShowDecimal(framing.contentLength.value)] else [])
            + (if name == TRANSFER_ENCODING && framing.codings != [] then [JoinCodings(framing.codings)] else [])
            + (if name == PROXY_AUTHORIZATION && authorization.Some? then [authorization.value] else [])
            + (if name == CONNECTION then ["close"] else [])
  {
    hide ShowDecimal, JoinCodings, ValuesNamed;
    var h, c := Field(HOST, host), Field(CONNECTION, "close");
    var l := if framing.contentLength.Some? then
               [Field(CONTENT_LENGTH, ShowDecimal(framing.contentLength.value))] else [];
    var t := if framing.codings != [] then [Field(TRANSFER_ENCODING, JoinCodings(framing.codings))] else [];
    var a := if authorization.Some? then [Field(PROXY_AUTHORIZATION, authorization.value)] else [];
    NoFields(name);
    OneField(h, name);
    OneField(c, name);
    if l != [] { OneField(l[0], name); }
    if t != [] { OneField(t[0], name); }
    if a != [] { OneField(a[0], name); }
    ValuesNamedAppend([h], l, name);
    ValuesNamedAppend([h] + l, t, name);
    ValuesNamedAppend([h] + l + t, a, name);
    ValuesNamedAppend([h] + l + t + a, [c], name);
  }

  lemma NoFields(name: Octets)
    ensures ValuesNamed([], name) == []
  {
  }

  lemma {:induction false} FramingParts(headers: seq<Field>)
    requires FramingOf(headers).Ok?
    ensures var framing := FramingOf(headers).value;
            (forall i | 0 <= i < |framing.codings| :: IsListToken(framing.codings[i]))
            && (framing.codings != [] ==>
                  framing.contentLength.None? && CodingsOf(framing.codings, None) == Ok(framing.codings))
  {
    var raw := ListParts(ValuesNamed(headers, TRANSFER_ENCODING));
    var framing := FramingOf(headers).value;
    if framing.codings != [] {
      forall i | 0 <= i < |framing.codings| ensures IsListToken(framing.codings[i]) {
        assert framing.codings[i] == LowerAll(raw)[i] == Lower(raw[i]);
        LowerIsIdempotent(raw[i]);
      }
    }
  }

  lemma {:induction false} LowerTokens(parts: seq<Octets>)
    requires forall i | 0 <= i < |parts| :: IsListToken(parts[i])
    ensures LowerAll(parts) == parts
    ensures forall i | 0 <= i < |parts| :: IsToken(parts[i])
  {
    forall i | 0 <= i < |parts| ensures LowerAll(parts)[i] == parts[i] && IsToken(parts[i]) {
      assert IsListToken(parts[i]);
    }
  }

  lemma {:induction false} SingleList(value: Octets)
    ensures ListParts([value]) == StripAll(SplitComma(value))
  {
    assert ListParts([value][1..]) == [];
  }

  lemma {:induction false} LengthListed(n: nat)
    ensures ContentLengthOf(ListParts([ShowDecimal(n)])) == Ok(Some(n))
  {
    var s := ShowDecimal(n);
    DecimalRoundTrip(n);
    assert forall i | 0 <= i < |s| :: IsDigit(s[i]);
    assert IsToken(s);
    TokenIsStripped(s);
    SingleList(s);
    NoCommaNoSplit(s);
    assert StripAll([s]) == [s];
  }

  lemma {:induction false} CodingsListed(codings: seq<Octets>)
    requires codings != [] && forall i | 0 <= i < |codings| :: IsListToken(codings[i])
    ensures LowerAll(ListParts([JoinCodings(codings)])) == codings
  {
    LowerTokens(codings);
    SingleList(JoinCodings(codings));
    JoinedCodingsSplit(codings, []);
    assert [] + JoinCodings(codings) == JoinCodings(codings);
  }

  /**
   The framing survives re-emission: a head emitted for accepted headers, reparsed, has the framing of
   the original request, exactly one host and one connection field, and never both framings.
   */
  lemma {:induction false} EmittedFramingIsSame(headers: seq<Field>, host: Octets, authorization: Option<Octets>)
    requires FramingOf(headers).Ok?
    ensures var fields := EmittedFields(headers, host, FramingOf(headers).value, authorization);
            FramingOf(fields) == FramingOf(headers)
            && ValuesNamed(fields, HOST) == [host]
            && ValuesNamed(fields, CONNECTION) == ["close"] && ValuesNamed(fields, PROXY_CONNECTION) == []
            && ValuesNamed(fields, PROXY_AUTHORIZATION) == (if authorization.Some? then [authorization.value] else [])
            && Kept(headers) <= fields
            && (ValuesNamed(fields, CONTENT_LENGTH) == [] || ValuesNamed(fields, TRANSFER_ENCODING) == [])
  {
    var framing := FramingOf(headers).value;
    FramingParts(headers);
    EmittedValues(headers, host, framing, authorization, HOST);
    EmittedValues(headers, host, framing, authorization, CONNECTION);
    EmittedValues(headers, host, framing, authorization, PROXY_CONNECTION);
    EmittedValues(headers, host, framing, authorization, PROXY_AUTHORIZATION);
    EmittedValues(headers, host, framing, authorization, CONTENT_LENGTH);
    EmittedValues(headers, host, framing, authorization, TRANSFER_ENCODING);
    if framing.contentLength.Some? {
      LengthListed(framing.contentLength.value);
    }
    if framing.codings != [] {
      CodingsListed(framing.codings);
    }
  }

  lemma {:induction false} EmittedValues(
    headers: seq<Field>, host: Octets, framing: Framing, authorization: Option<Octets>, name: Octets)
    requires IsReplaced(name)
    ensures ValuesNamed(EmittedFields(headers, host, framing, authorization), name)
         == (if name == HOST then [host] else [])
            + (if name == CONTENT_LENGTH && framing.contentLength.Some? then
                 [ShowDecimal(framing.contentLength.value)] else [])
            + (if name == TRANSFER_ENCODING && framing.codings != [] then [JoinCodings(framing.codings)] else [])
            + (if name == PROXY_AUTHORIZATION && authorization.Some? then [authorization.value] else [])
            + (if name == CONNECTION then ["close"] else [])
  {
    ValuesNamedAppend(Kept(headers), OwnFields(host, framing, authorization), name);
    KeptHasNone(headers, name);
    OwnValues(host, framing, authorization, name);
  }

  lemma {:induction false} KeptIsCanonical(headers: seq<Field>)
    requires forall i | 0 <= i < |headers| :: IsCanonical(headers[i])
    ensures forall i | 0 <= i < |Kept(headers)| :: IsCanonical(Kept(headers)[i])
  {
    hide IsCanonical, IsReplaced;
    if headers != [] {
      KeptIsCanonical(headers[1..]);
    }
  }

  lemma {:induction false} TokenIsCleanValue(s: Octets)
    requires IsToken(s)
    ensures IsStripped(s, BLANK) && IsControlFree(s)
  {
    assert forall i | 0 <= i < |s| :: IsTokenChar(s[i]);
  }

  lemma {:induction false} JoinedCodingsAreClean(codings: seq<Octets>)
    requires codings != [] && forall i | 0 <= i < |codings| :: IsToken(codings[i])
    ensures var s := JoinCodings(codings); s != [] && IsStripped(s, BLANK) && IsControlFree(s)
  {
    assert IsToken(codings[0]);
    TokenIsCleanValue(codings[0]);
    if |codings| > 1 {
      JoinedCodingsAreClean(codings[1..]);
      hide IsForbiddenControl, IsToken;
      assert IsControlFree(", ") by {
        assert !IsForbiddenControl(',') && !IsForbiddenControl(' ');
      }
    }
  }

  lemma {:induction false} OwnFieldsAreCanonical(host: Octets, framing: Framing, authorization: Option<Octets>)
    requires IsStripped(host, BLANK) && IsControlFree(host)
    requires authorization.Some? ==> IsStripped(authorization.value, BLANK) && IsControlFree(authorization.value)
    requires forall i | 0 <= i < |framing.codings| :: IsToken(framing.codings[i])
    ensures forall i | 0 <= i < |OwnFields(host, framing, authorization)| ::
              IsCanonical(OwnFields(host, framing, authorization)[i])
  {
    NamesAreCanonical();
    if framing.contentLength.Some? {
      DecimalRoundTrip(framing.contentLength.value);
      TokenIsCleanValue(ShowDecimal(framing.contentLength.value));
    }
    if framing.codings != [] {
      JoinedCodingsAreClean(framing.codings);
    }
    TokenIsCleanValue("close");
    hide ShowDecimal, JoinCodings, IsStripped, IsControlFree, IsToken, Lower;
  }

  lemma NamesAreCanonical()
    ensures IsListToken(HOST) && IsListToken(CONTENT_LENGTH) && IsListToken(TRANSFER_ENCODING)
    ensures IsListToken(PROXY_AUTHORIZATION) && IsListToken(CONNECTION)
  {
    LowerLetters(HOST);
    LowerLetters(CONTENT_LENGTH);
    LowerLetters(TRANSFER_ENCODING);
    LowerLetters(PROXY_AUTHORIZATION);
    LowerLetters(CONNECTION);
  }

  lemma {:induction false} LowerLetters(s: Octets)
    requires s != [] && forall i | 0 <= i < |s| :: 'a' <= s[i] <= 'z' || s[i] == '-'
    ensures IsListToken(s)
  {
  }

  /** A value that can stand on a field line: no blanks at its ends, no forbidden control characters. */
  predicate IsClean(value: Octets) {
    IsStripped(value, BLANK) && IsControlFree(value)
  }

  predicate OwnValuesAreClean(host: Octets, authorization: Option<Octets>) {
    IsClean(host) && (authorization.Some? ==> IsClean(authorization.value))
  }

  lemma {:induction false} OwnValuesAreEmitted(
    headers: seq<Field>, host: Octets, framing: Framing, authorization: Option<Octets>)
    ensures var fields := EmittedFields(headers, host, framing, authorization);
            && Field(HOST, host) in fields
            && (authorization.Some? ==> Field(PROXY_AUTHORIZATION, authorization.value) in fields)
  {
    hide Kept, ShowDecimal, JoinCodings;
    var fields, own := EmittedFields(headers, host, framing, authorization), OwnFields(host, framing, authorization);
    var k := |Kept(headers)|;
    assert fields[k] == own[0];
    if authorization.Some? {
      assert fields[k + |own| - 2] == own[|own| - 2] == Field(PROXY_AUTHORIZATION, authorization.value);
    }
  }

  /**
   Header framing round-trips: the emitted head, read back line by line, gives every forwarded field with its own
   name and value, in order, and the same framing as the request had, exactly when the host and the authorization
   it was given can stand on a line.
   */
  lemma {:induction false} HeadRoundTrip(headers: seq<Field>, host: Octets, authorization: Option<Octets>)
    requires forall i | 0 <= i < |headers| :: IsCanonical(headers[i])
    requires FramingOf(headers).Ok?
    ensures var fields := EmittedFields(headers, host, FramingOf(headers).value, authorization);
            && (ReadFields(ShowFields(fields) + CRLF) == Some(fields) <==> OwnValuesAreClean(host, authorization))
            && FramingOf(fields) == FramingOf(headers)
  {
    var framing := FramingOf(headers).value;
    EmittedFramingIsSame(headers, host, authorization);
    FramingParts(headers);
    KeptIsCanonical(headers);
    LowerTokens(framing.codings);
    var fields := EmittedFields(headers, host, framing, authorization);
    if OwnValuesAreClean(host, authorization) {
      OwnFieldsAreCanonical(host, framing, authorization);
      hide *;
      ShownFieldsAreRead(fields);
    } else {
      OwnValuesAreEmitted(headers, host, framing, authorization);
      ReadFieldsAreCanonical(ShowFields(fields) + CRLF);
    }
  }

  /** A field whose value holds a forbidden control character is printed as a line the parser refuses. */
  lemma {:induction false} ControlLineIsRefused(name: Octets, value: Octets)
    requires IsToken(name) && !IsControlFree(value)
    ensures ParseHeaderLine(FieldLine(Field(name, value))).None?
  {
    hide IsForbiddenControl;
    var field, padded := name + ": " + value, " " + value;
    var line := FieldLine(Field(name, value));
    assert line == field + CRLF && line[..|line| - 2] == field;
    forall i | 0 <= i < |name| ensures field[i] != ':' {
      assert field[i] == name[i] && IsTokenChar(name[i]);
    }
    IndexOfFirst(field, ':', |name|);
    assert field[|name| + 1..] == padded;
    assert !IsControlFree(padded) by {
      var i :| 0 <= i < |value| && IsForbiddenControl(value[i]);
      assert padded[i + 1] == value[i];
    }
  }

  /** A client's host with a delete character goes onto a line that the proxy's own parser refuses, in any head. */
  lemma {:induction false} ControlInHostIsRefused(headers: seq<Field>, authorization: Option<Octets>)
    returns (host: Octets)
    requires forall i | 0 <= i < |headers| :: IsCanonical(headers[i])
    requires FramingOf(headers).Ok?
    ensures host == "a\U{7F}b.example"
    ensures ParseHeaderLine(FieldLine(Field(HOST, host))).None?
    ensures var fields := EmittedFields(headers, host, FramingOf(headers).value, authorization);
            ReadFields(ShowFields(fields) + CRLF) != Some(fields)
  {
    hide IsControlFree, IsStripped, IsToken, IsCanonical, FieldLine, ParseHeaderLine, ShowFields, ReadFields, FramingOf,
         EmittedFields, Lower;
    host := "a\U{7F}b.example";
    DeleteIsForbidden(host);
    NamesAreCanonical();
    ControlLineIsRefused(HOST, host);
    HeadRoundTrip(headers, host, authorization);
  }

  lemma DeleteIsForbidden(host: Octets)
    requires |host| > 1 && host[1] == '\U{7F}'
    ensures !IsControlFree(host)
  {
    assert IsForbiddenControl(host[1]);
  }
}
