/**
 Forwarding a request body upstream while validating it: a fixed-length body, or a chunked body
 (section 7.1 of RFC 9112). The forwarder is proved against a left-to-right measure of the body, and
 the measure against the grammar of chunked messages.
 */
module ChunkedBody {
  import opened Common
  import opened Streams
  import opened HttpFields
  import opened ChunkSize

  const TUNNEL_BUFFER := 65536

  predicate IsForbiddenTrailer(name: Octets) {
    name in {"connection", "content-length", "host", "trailer", "transfer-encoding"}
  }

  predicate IsTrailerLine(line: Octets) {
    var f := ParseHeaderLine(line);
    f.Some? && !IsForbiddenTrailer(f.value.name)
  }

  // ---- The measure: how many bytes of s one body takes ----

  /** n bytes more than a measure, when there is one. */
  function Plus(n: nat, k: Option<nat>): Option<nat> {
    if k.None? then None else Some(n + k.value)
  }

  /** Length of the trailer section at the front of s, its empty line included. */
  function TrailerExtent(s: Octets): (k: Option<nat>)
    ensures k.Some? ==> k.value <= |s|
  {
    var line := FirstLine(s);
    if line.None? then None
    else if line.value == CRLF then Some(2)
    else if !IsTrailerLine(line.value) then None
    else Plus(|line.value|, TrailerExtent(s[|line.value|..]))
  }

  /** The size line at the front of s: its length and the size it carries. */
  function SizeAt(s: Octets): (r: Option<(nat, nat)>)
    ensures r.Some? ==> 0 < r.value.0 <= |s|
  {
    var line := FirstLine(s);
    if line.None? then None
    else
      var size := ParseSizeLine(line.value);
      if size.None? then None else Some((|line.value|, size.value))
  }

  predicate CrlfAt(s: Octets, i: nat) {
    i + 2 <= |s| && s[i..i + 2] == CRLF
  }

  /** Length of the chunked message at the front of s. */
  function ChunkedExtent(s: Octets): (k: Option<nat>)
    ensures k.Some? ==> k.value <= |s|
  {
    match SizeAt(s)
    case None => None
    case Some((n, size)) =>
      if size == 0 then Plus(n, TrailerExtent(s[n..]))
      else if CrlfAt(s, n + size) then Plus(n + size + 2, ChunkedExtent(s[n + size + 2..]))
      else None
  }

  /** Length of the body at the front of s under the framing of the request head. */
  function BodyExtent(s: Octets, contentLength: Option<nat>, chunked: bool): (k: Option<nat>)
    ensures k.Some? ==> k.value <= |s|
  {
    if contentLength.Some? then
      if contentLength.value <= |s| then contentLength else None
    else if chunked then ChunkedExtent(s)
    else Some(0)
  }

  /** One step of the trailer measure, for proofs that keep it folded. */
  lemma {:induction false} TrailerStep(s: Octets, line: Octets)
    requires FirstLine(s) == Some(line)
    ensures line == CRLF ==> TrailerExtent(s) == Some(2)
    ensures line != CRLF && !IsTrailerLine(line) ==> TrailerExtent(s).None?
    ensures line != CRLF && IsTrailerLine(line) ==> TrailerExtent(s) == Plus(|line|, TrailerExtent(s[|line|..]))
  {
    hide FirstLine, IsTrailerLine;
  }

  lemma {:induction false} ChunkStep(s: Octets, n: nat, size: nat)
    requires SizeAt(s) == Some((n, size))
    ensures size == 0 ==> ChunkedExtent(s) == Plus(n, TrailerExtent(s[n..]))
    ensures size > 0 && !CrlfAt(s, n + size) ==> ChunkedExtent(s).None?
    ensures size > 0 && CrlfAt(s, n + size) ==>
      ChunkedExtent(s) == Plus(n + size + 2, ChunkedExtent(s[n + size + 2..]))
  {
    hide SizeAt, TrailerExtent;
  }

  // ---- The grammar of chunked messages ----

  datatype Chunk = Chunk(sizeLine: SizeLine, data: Octets)

  datatype Message = Message(chunks: seq<Chunk>, last: SizeLine, trailers: seq<Octets>)

  predicate ChunkOk(c: Chunk) {
    && SizeLineOk(c.sizeLine) && LineFits(ShowSizeLine(c.sizeLine))
    && HexValue(c.sizeLine.digits) == |c.data| && c.data != []
  }

  predicate TrailerOk(line: Octets) {
    IsTrailerLine(line) && LineFits(line)
  }

  predicate MessageOk(m: Message) {
    && (forall i | 0 <= i < |m.chunks| :: ChunkOk(m.chunks[i]))
    && SizeLineOk(m.last) && LineFits(ShowSizeLine(m.last)) && HexValue(m.last.digits) == 0
    && (forall i | 0 <= i < |m.trailers| :: TrailerOk(m.trailers[i]))
  }

  function ShowTrailers(trailers: seq<Octets>): Octets {
    if trailers == [] then CRLF else trailers[0] + ShowTrailers(trailers[1..])
  }

  function ShowMessage(m: Message): Octets
    decreases |m.chunks|
  {
    if m.chunks == [] then ShowSizeLine(m.last) + ShowTrailers(m.trailers)
    else
      ShowSizeLine(m.chunks[0].sizeLine)
      + (m.chunks[0].data + (CRLF + ShowMessage(m.(chunks := m.chunks[1..]))))
  }

  // ---- A printed message is measured exactly, whatever follows it ----

  lemma {:induction false} SizeLineComesFirst(l: SizeLine, rest: Octets)
    requires SizeLineOk(l) && LineFits(ShowSizeLine(l))
    ensures SizeAt(ShowSizeLine(l) + rest) == Some((|ShowSizeLine(l)|, HexValue(l.digits)))
  {
    var line := ShowSizeLine(l);
    ShownSizeLineParses(l);
    SizeLineIsOneLine(line, rest);
    assert (line + rest)[..|line|] == line;
  }

  lemma {:induction false} ShownTrailersMeasure(trailers: seq<Octets>, rest: Octets)
    requires forall i | 0 <= i < |trailers| :: TrailerOk(trailers[i])
    ensures TrailerExtent(ShowTrailers(trailers) + rest) == Some(|ShowTrailers(trailers)|)
  {
    hide TrailerExtent, IsTrailerLine, FirstLine, LineFits, ParseHeaderLine, RawField;
    if trailers == [] {
      TrailerLineComesFirst(CRLF, rest);
      TrailerStep(CRLF + rest, CRLF);
    } else {
      var line, next := trailers[0], ShowTrailers(trailers[1..]);
      assert TrailerOk(line);
      ShownTrailersMeasure(trailers[1..], rest);
      TrailerLineComesFirst(line, next + rest);
      var text := (line + next) + rest;
      LineThenRest(line, next, rest);
      TrailerStep(text, line);
      assert TrailerExtent(text) == Plus(|line|, Some(|next|));
    }
  }

  lemma {:induction false} TrailerLineComesFirst(line: Octets, rest: Octets)
    requires line == CRLF || TrailerOk(line)
    ensures FirstLine(line + rest) == Some(line)
    ensures TrailerOk(line) ==> line != CRLF
  {
    if line == CRLF {
      FirstLineOfPrefix(CRLF, rest);
    } else {
      RawFieldIsOneLine(line, rest);
    }
    assert (line + rest)[..|line|] == line;
  }

  lemma {:induction false} ShownMessageMeasures(m: Message, rest: Octets)
    requires MessageOk(m)
    ensures ChunkedExtent(ShowMessage(m) + rest) == Some(|ShowMessage(m)|)
    decreases |m.chunks|
  {
    hide SizeLineOk, HexValue, IsTrailerLine, LineFits, ShowSizeLine, ShowTrailers;
    if m.chunks == [] {
      ShownLastChunkMeasures(m.last, m.trailers, rest);
    } else {
      var m' := m.(chunks := m.chunks[1..]);
      assert ChunkOk(m.chunks[0]);
      ShownMessageMeasures(m', rest);
      ShownChunkMeasures(m.chunks[0], ShowMessage(m'), rest);
    }
  }

  lemma {:induction false} ShownLastChunkMeasures(last: SizeLine, trailers: seq<Octets>, rest: Octets)
    requires SizeLineOk(last) && LineFits(ShowSizeLine(last)) && HexValue(last.digits) == 0
    requires forall i | 0 <= i < |trailers| :: TrailerOk(trailers[i])
    ensures var s := ShowSizeLine(last) + ShowTrailers(trailers);
            ChunkedExtent(s + rest) == Some(|s|)
  {
    hide SizeAt, ShowSizeLine, SizeLineOk, HexValue, TrailerExtent, ShowTrailers, LineFits, FirstLine, LineLength;
    var line, next := ShowSizeLine(last), ShowTrailers(trailers);
    SizeLineComesFirst(last, next + rest);
    ShownTrailersMeasure(trailers, rest);
    LineThenRest(line, next, rest);
    var text := (line + next) + rest;
    assert SizeAt(text) == Some((|line|, 0));
    assert ChunkedExtent(text) == Plus(|line|, Some(|next|));
  }

  lemma {:induction false} LineThenRest(line: Octets, next: Octets, rest: Octets)
    ensures (line + next) + rest == line + (next + rest)
    ensures ((line + next) + rest)[|line|..] == next + rest
  {
  }

  lemma {:induction false} ShownChunkMeasures(c: Chunk, next: Octets, rest: Octets)
    requires ChunkOk(c)
    requires ChunkedExtent(next + rest) == Some(|next|)
    ensures var s := ShowSizeLine(c.sizeLine) + (c.data + (CRLF + next));
            ChunkedExtent(s + rest) == Some(|s|)
  {
    hide SizeAt, CrlfAt, ShowSizeLine, SizeLineOk, HexValue, TrailerExtent, LineFits, ShowTail, FirstLine, LineLength;
    var line := ShowSizeLine(c.sizeLine);
    var text := (line + (c.data + (CRLF + next))) + rest;
    SizeLineComesFirst(c.sizeLine, c.data + (CRLF + (next + rest)));
    MessageParts(line, c.data, next, rest);
    assert SizeAt(text) == Some((|line|, |c.data|));
    assert CrlfAt(text, |line| + |c.data|);
    assert ChunkedExtent(text[|line| + |c.data| + 2..]) == Some(|next|);
    assert ChunkedExtent(text) == Plus(|line| + |c.data| + 2, Some(|next|));
  }

  /** Where the parts of a chunk lie in the text. */
  lemma {:induction false} MessageParts(line: Octets, data: Octets, next: Octets, rest: Octets)
    ensures var s := (line + (data + (CRLF + next))) + rest;
            var end := |line| + |data|;
            s == line + (data + (CRLF + (next + rest)))
            && CrlfAt(s, end) && s[end + 2..] == next + rest
  {
  }

  // ---- A measured message is a printed one ----

  lemma {:induction false} MeasuredTrailersAreShown(s: Octets) returns (trailers: seq<Octets>)
    requires TrailerExtent(s).Some?
    ensures forall i | 0 <= i < |trailers| :: TrailerOk(trailers[i])
    ensures ShowTrailers(trailers) == s[..TrailerExtent(s).value]
    decreases |s|
  {
    hide ParseHeaderLine, RawField, LineLength, IsForbiddenTrailer;
    var line := FirstLine(s).value;
    if line == CRLF {
      trailers := [];
    } else {
      var n := |line|;
      var more := MeasuredTrailersAreShown(s[n..]);
      trailers := [line] + more;
      assert trailers[1..] == more;
      Extend(s, 0, n);
      Extend(s, n, TrailerExtent(s[n..]).value);
    }
  }

  lemma {:induction false} SizeLineAt(s: Octets) returns (l: SizeLine)
    requires SizeAt(s).Some?
    ensures SizeLineOk(l) && LineFits(ShowSizeLine(l))
    ensures ShowSizeLine(l) == s[..SizeAt(s).value.0] && HexValue(l.digits) == SizeAt(s).value.1
  {
    hide LineLength, ParseSizeLine, ShowSizeLine, HexValue;
    var line := FirstLine(s).value;
    SizeLineExact(line, ParseSizeLine(line).value);
    l :| SizeLineOk(l) && ShowSizeLine(l) == line && HexValue(l.digits) == ParseSizeLine(line).value;
  }

  lemma {:induction false} MeasuredMessageIsShown(s: Octets) returns (m: Message)
    requires ChunkedExtent(s).Some?
    ensures MessageOk(m)
    ensures ShowMessage(m) == s[..ChunkedExtent(s).value]
    decreases |s|
  {
    hide TrailerExtent, SizeAt, LineFits, ShowSizeLine, SizeLineOk, HexValue, IsTrailerLine, ShowTrailers;
    var (n, size) := SizeAt(s).value;
    var l := SizeLineAt(s);
    if size == 0 {
      var trailers := MeasuredTrailersAreShown(s[n..]);
      m := Message([], l, trailers);
      Extend(s, n, TrailerExtent(s[n..]).value);
    } else {
      var end := n + size;
      var m' := MeasuredMessageIsShown(s[end + 2..]);
      var c := Chunk(l, s[n..end]);
      m := Message([c] + m'.chunks, m'.last, m'.trailers);
      assert m.chunks[0] == c && m.(chunks := m.chunks[1..]) == m';
      assert ChunkOk(c);
      ChunkSlices(s, n, end, ChunkedExtent(s[end + 2..]).value);
    }
  }

  lemma {:induction false} ChunkSlices(s: Octets, n: nat, end: nat, k: nat)
    requires n <= end && CrlfAt(s, end) && end + 2 + k <= |s|
    ensures s[..end + 2 + k] == s[..n] + (s[n..end] + (CRLF + s[end + 2..][..k]))
  {
  }

  /**
   The measure is the grammar: k bytes are one complete chunked message exactly when they are the
   printed form of a message whose chunk sizes equal the lengths of their data.
   */
  lemma {:induction false} ChunkedExtentExact(s: Octets, k: nat)
    requires k <= |s|
    ensures ChunkedExtent(s) == Some(k) <==> exists m :: MessageOk(m) && ShowMessage(m) == s[..k]
  {
    hide ChunkedExtent, MessageOk, ShowMessage;
    if ChunkedExtent(s) == Some(k) {
      var m := MeasuredMessageIsShown(s);
    }
    forall m | MessageOk(m) && ShowMessage(m) == s[..k] ensures ChunkedExtent(s) == Some(k) {
      ShownMessageMeasures(m, s[k..]);
      assert s[..k] + s[k..] == s;
    }
  }

  /** No complete message is a proper prefix of another, so a body has one possible end. */
  lemma {:induction false} ChunkedMessagesArePrefixFree(a: Message, b: Message, restA: Octets, restB: Octets)
    requires MessageOk(a) && MessageOk(b)
    requires ShowMessage(a) + restA == ShowMessage(b) + restB
    ensures ShowMessage(a) == ShowMessage(b) && restA == restB
  {
    ShownMessageMeasures(a, restA);
    ShownMessageMeasures(b, restB);
    var s, k := ShowMessage(a) + restA, |ShowMessage(a)|;
    assert s[..k] == ShowMessage(a) && s[k..] == restA;
    assert s[..k] == ShowMessage(b) && s[k..] == restB;
  }

  // ---- The forwarder ----

  datatype ForwardError =
    | TruncatedBody | InvalidSizeLine | InvalidTrailer | ForbiddenTrailer | MissingChunkEnd | LineTooLong

  /** Copies n bytes in pieces of at most TUNNEL_BUFFER; a truncated last piece is not written. */
  method CopyExactly(reader: StreamReader, writer: StreamWriter, n: nat) returns (copied: bool)
    requires reader.Valid()
    modifies reader, writer`written
    ensures reader.Valid() && old(reader.pos) <= reader.pos
    ensures copied <==> n <= |old(reader.Rest())|
    ensures copied ==> reader.pos == old(reader.pos) + n
    ensures writer.written == old(writer.written)
      + old(reader.Rest())[..if copied then n else |old(reader.Rest())| / TUNNEL_BUFFER * TUNNEL_BUFFER]
  {
    ghost var rest, before := reader.Rest(), writer.written;
    var remaining := n;
    ghost var pieces := 0;
    while remaining > 0
      invariant reader.Valid() && 0 <= remaining <= n
      invariant reader.pos == old(reader.pos) + (n - remaining) && n - remaining <= |rest|
      invariant writer.written == before + rest[..n - remaining]
      invariant remaining > 0 ==> n - remaining == pieces * TUNNEL_BUFFER
    {
      var wanted := Min(remaining, TUNNEL_BUFFER);
      assert reader.Rest() == rest[n - remaining..];
      var data := reader.ReadExactly(wanted);
      if data.None? {
        WholePieces(|rest|, pieces);
        return false;
      }
      writer.Write(data.value);
      Continue(before, rest, n - remaining, wanted);
      remaining := remaining - |data.value|;
      pieces := pieces + 1;
    }
    return true;
  }

  lemma WholePieces(total: nat, pieces: nat)
    requires pieces * TUNNEL_BUFFER <= total < (pieces + 1) * TUNNEL_BUFFER
    ensures total / TUNNEL_BUFFER == pieces
  {
  }

  /**
   Forwards the trailer section. On success the reader stands right behind the empty line. The ghost
   result counts the bytes written, which are always the first bytes of the unread text.
   */
  method ForwardTrailers(reader: StreamReader, writer: StreamWriter)
    returns (error: Option<ForwardError>, ghost sent: nat)
    requires reader.Valid()
    modifies reader, writer`written
    ensures reader.Valid()
    ensures error.None? <==> TrailerExtent(old(reader.Rest())).Some?
    ensures error.None? ==> TrailerExtent(old(reader.Rest())) == Some(sent) && reader.pos == old(reader.pos) + sent
    ensures sent <= |old(reader.Rest())|
    ensures writer.written == old(writer.written) + old(reader.Rest())[..sent]
  {
    hide TrailerExtent, FirstLine, ParseHeaderLine, RawField, IsForbiddenTrailer;
    ghost var rest, before := reader.Rest(), writer.written;
    sent := 0;
    while true
      invariant reader.Valid() && sent <= |rest| && reader.pos == old(reader.pos) + sent
      invariant writer.written == before + rest[..sent]
      invariant TrailerExtent(rest) == Plus(sent, TrailerExtent(rest[sent..]))
      decreases |rest| - sent
    {
      ghost var here := rest[sent..];
      assert reader.Rest() == here;
      var line := reader.ReadLine();
      if line.None? {
        NoLineNoTrailers(here);
        return Some(LineTooLong), sent;
      }
      ghost var n := |line.value|;
      LineIsSlice(here, line.value);
      TrailerStep(here, line.value);
      Continue(before, rest, sent, n);
      if line.value == CRLF {
        writer.Write(line.value);
        return None, sent + n;
      }
      var field := ParseHeaderLine(line.value);
      if field.None? {
        return Some(InvalidTrailer), sent;
      }
      if IsForbiddenTrailer(field.value.name) {
        return Some(ForbiddenTrailer), sent;
      }
      writer.Write(line.value);
      sent := sent + n;
    }
  }

  lemma {:induction false} NoLineNoTrailers(s: Octets)
    requires FirstLine(s).None?
    ensures TrailerExtent(s).None?
  {
  }

  lemma {:induction false} NoSizeNoBody(s: Octets)
    requires SizeAt(s).None?
    ensures ChunkedExtent(s).None?
  {
  }

  lemma {:induction false} LineIsSlice(s: Octets, line: Octets)
    requires FirstLine(s) == Some(line)
    ensures |line| <= |s| && s[..|line|] == line
    ensures s != [] ==> line != []
  {
  }

  /** Forwards the data of one chunk and the CRLF that must follow it. */
  method ForwardChunkData(reader: StreamReader, writer: StreamWriter, size: nat)
    returns (error: Option<ForwardError>, ghost sent: nat)
    requires reader.Valid()
    modifies reader, writer`written
    ensures reader.Valid()
    ensures error.None? <==> CrlfAt(old(reader.Rest()), size)
    ensures error.None? ==> sent == size + 2 && reader.pos == old(reader.pos) + sent
    ensures sent <= |old(reader.Rest())|
    ensures writer.written == old(writer.written) + old(reader.Rest())[..sent]
  {
    ghost var rest, before := reader.Rest(), writer.written;
    var copied := CopyExactly(reader, writer, size);
    if !copied {
      return Some(TruncatedBody), |rest| / TUNNEL_BUFFER * TUNNEL_BUFFER;
    }
    assert reader.Rest() == rest[size..];
    var terminator := reader.ReadExactly(2);
    if terminator.None? {
      return Some(TruncatedBody), size;
    }
    Continue(before, rest, size, 2);
    if terminator.value != CRLF {
      return Some(MissingChunkEnd), size;
    }
    writer.Write(terminator.value);
    return None, size + 2;
  }

  /** Forwards one size line and what it announces: a chunk's data, or the end of the body. */
  method ForwardChunk(reader: StreamReader, writer: StreamWriter)
    returns (error: Option<ForwardError>, last: bool, ghost sent: nat)
    requires reader.Valid()
    modifies reader, writer`written
    ensures reader.Valid()
    ensures sent <= |old(reader.Rest())|
    ensures writer.written == old(writer.written) + old(reader.Rest())[..sent]
    ensures error.None? ==> reader.pos == old(reader.pos) + sent && sent > 0
    ensures error.Some? ==> ChunkedExtent(old(reader.Rest())).None?
    ensures error.None? && last ==> ChunkedExtent(old(reader.Rest())) == Some(sent)
    ensures error.None? && !last ==>
      ChunkedExtent(old(reader.Rest())) == Plus(sent, ChunkedExtent(old(reader.Rest())[sent..]))
  {
    hide ChunkedExtent, TrailerExtent, FirstLine, ParseSizeLine, CrlfAt;
    ghost var rest, before := reader.Rest(), writer.written;
    var sizeLine := reader.ReadLine();
    var size := if sizeLine.None? then None else ParseSizeLine(sizeLine.value);
    if size.None? {
      NoSizeNoBody(rest);
      return Some(if sizeLine.None? then LineTooLong else InvalidSizeLine), false, 0;
    }
    ghost var n := |sizeLine.value|;
    LineIsSlice(rest, sizeLine.value);
    ChunkStep(rest, n, size.value);
    writer.Write(sizeLine.value);
    assert reader.Rest() == rest[n..];
    ghost var more;
    if size.value == 0 {
      error, more := ForwardTrailers(reader, writer);
      Continue(before, rest, n, more);
      return error, true, n + more;
    }
    error, more := ForwardChunkData(reader, writer, size.value);
    CrlfShift(rest, n, size.value);
    Continue(before, rest, n, more);
    return error, false, n + more;
  }

  /** Forwards a chunked body: chunk after chunk until the zero-size chunk and its trailer section. */
  method ForwardChunked(reader: StreamReader, writer: StreamWriter)
    returns (error: Option<ForwardError>, ghost sent: nat)
    requires reader.Valid()
    modifies reader, writer`written
    ensures reader.Valid()
    ensures error.None? <==> ChunkedExtent(old(reader.Rest())).Some?
    ensures error.None? ==> ChunkedExtent(old(reader.Rest())) == Some(sent) && reader.pos == old(reader.pos) + sent
    ensures sent <= |old(reader.Rest())|
    ensures writer.written == old(writer.written) + old(reader.Rest())[..sent]
  {
    hide ChunkedExtent;
    ghost var rest, before := reader.Rest(), writer.written;
    sent := 0;
    while true
      invariant reader.Valid() && sent <= |rest| && reader.pos == old(reader.pos) + sent
      invariant writer.written == before + rest[..sent]
      invariant ChunkedExtent(rest) == Plus(sent, ChunkedExtent(rest[sent..]))
      decreases |rest| - sent
    {
      assert reader.Rest() == rest[sent..];
      var last;
      ghost var more;
      error, last, more := ForwardChunk(reader, writer);
      Continue(before, rest, sent, more);
      sent := sent + more;
      if error.Some? || last {
        return;
      }
    }
  }

  /**
   Forwards one request body. It succeeds exactly when the unread bytes begin with a complete body;
   then those bytes, and no others, are consumed and written. A failure has written a prefix.
   */
  method ForwardRequestBody(
    reader: StreamReader, writer: StreamWriter, contentLength: Option<nat>, transferCodings: seq<Octets>)
    returns (error: Option<ForwardError>, ghost sent: nat)
    requires reader.Valid()
    modifies reader, writer`written
    ensures reader.Valid()
    ensures error.None? <==> BodyExtent(old(reader.Rest()), contentLength, transferCodings != []).Some?
    ensures error.None? ==>
      BodyExtent(old(reader.Rest()), contentLength, transferCodings != []) == Some(sent)
      && reader.pos == old(reader.pos) + sent
    ensures sent <= |old(reader.Rest())|
    ensures writer.written == old(writer.written) + old(reader.Rest())[..sent]
    ensures contentLength.Some? ==>
      (error.None? <==> contentLength.value <= |old(reader.Rest())|) && (error.None? ==> sent == contentLength.value)
    ensures contentLength.None? && transferCodings == [] ==> error.None? && sent == 0
    ensures contentLength.None? && transferCodings != [] ==>
      && (error.None? <==> exists m :: MessageOk(m) && ShowMessage(m) == old(reader.Rest())[..sent])
      && (error.Some? ==> forall m | MessageOk(m) :: !(ShowMessage(m) <= old(reader.Rest())))
  {
    hide ChunkedExtent, MessageOk, ShowMessage;
    ghost var rest := reader.Rest();
    if contentLength.Some? {
      sent := |reader.Rest()| / TUNNEL_BUFFER * TUNNEL_BUFFER;
      var copied := CopyExactly(reader, writer, contentLength.value);
      if copied {
        return None, contentLength.value;
      }
      return Some(TruncatedBody), sent;
    }
    if transferCodings == [] {
      return None, 0;
    }
    error, sent := ForwardChunked(reader, writer);
    ChunkedExtentExact(rest, sent);
    if error.Some? {
      UnmeasuredIsNoMessage(rest);
    }
  }

  lemma {:induction false} UnmeasuredIsNoMessage(s: Octets)
    requires ChunkedExtent(s).None?
    ensures forall m | MessageOk(m) :: !(ShowMessage(m) <= s)
  {
    hide ChunkedExtent, MessageOk, ShowMessage;
    forall m | MessageOk(m) ensures !(ShowMessage(m) <= s) {
      if ShowMessage(m) <= s {
        ChunkedExtentExact(s, |ShowMessage(m)|);
      }
    }
  }

  lemma {:induction false} CrlfShift(s: Octets, n: nat, i: nat)
    requires n <= |s|
    ensures CrlfAt(s[n..], i) <==> CrlfAt(s, n + i)
    ensures CrlfAt(s, n + i) ==> n + i + 2 <= |s|
  {
    if n + i + 2 <= |s| {
      assert s[n..][i..i + 2] == s[n + i..n + i + 2];
    }
  }

  /** Taking a text in two pieces. */
  lemma {:induction false} Extend(rest: Octets, done: nat, n: nat)
    requires done + n <= |rest|
    ensures rest[..done] + rest[done..][..n] == rest[..done + n]
    ensures rest[done..][n..] == rest[done + n..]
  {
  }

  /** One more piece of the stream continues the prefix already written. */
  lemma {:induction false} Continue(before: Octets, rest: Octets, done: nat, n: nat)
    requires done + n <= |rest|
    ensures (before + rest[..done]) + rest[done..][..n] == before + rest[..done + n]
    ensures rest[done..][n..] == rest[done + n..]
  {
    Extend(rest, done, n);
    assert (before + rest[..done]) + rest[done..][..n] == before + (rest[..done] + rest[done..][..n]);
  }
}
