/**
 The DNS wire code of the egress proxy (sections 2.3.4, 3.1 and 4.1 of RFC 1035): the name encoder,
 the name skipper and the A-answer parser, proved against the grammar of names and responses.
 Host names are taken in their IDNA form; octets are characters below 256.
 */
module DnsWire {
  import opened Common
  import opened Streams

  const MAX_LABEL := 63
  const MAX_NAME := 255
  const MAX_LABELS_SEEN := 127

  datatype DnsError =
    | InvalidName | NameTooLong
    | Truncated | BadLabelType | TooManyLabels
    | Mismatched | NoSuchName | ResolverFailure

  // ---- Encoding a host name ----

  function DotIndex(s: Octets): (k: nat)
    ensures k <= |s|
    ensures k < |s| ==> s[k] == '.'
  {
    if s == [] || s[0] == '.' then 0 else 1 + DotIndex(s[1..])
  }

  /** The labels between the dots. */
  function SplitDots(s: Octets): (labels: seq<Octets>)
    ensures labels != []
    decreases |s|
  {
    var k := DotIndex(s);
    if k == |s| then [s] else [s[..k]] + SplitDots(s[k + 1..])
  }

  predicate IsLabel(l: Octets) {
    0 < |l| <= MAX_LABEL
  }

  predicate AllLabels(labels: seq<Octets>) {
    forall i | 0 <= i < |labels| :: IsLabel(labels[i])
  }

  function ShowLabels(labels: seq<Octets>): Octets
    requires AllLabels(labels)
  {
    if labels == [] then [] else [|labels[0]| as char] + labels[0] + ShowLabels(labels[1..])
  }

  function EncodeName(host: Octets): Result<Octets, DnsError> {
    var labels := SplitDots(host);
    if !AllLabels(labels) then Err(InvalidName)
    else if |ShowLabels(labels)| + 1 > MAX_NAME then Err(NameTooLong)
    else Ok(ShowLabels(labels) + ['\0'])
  }

  // ---- Skipping a name ----

  /** Where a possibly compressed name ends, seen labels of it having been passed already. */
  function SkipFrom(message: Octets, offset: nat, seen: nat): (r: Result<nat, DnsError>)
    ensures r.Ok? ==> offset < r.value <= |message|
    decreases |message| - offset
  {
    if offset >= |message| then Err(Truncated)
    else
      var length := message[offset] as int;
      if length >= 0xC0 then
        if offset + 1 >= |message| then Err(Truncated) else Ok(offset + 2)
      else if length >= 0x40 then Err(BadLabelType)
      else if length == 0 then Ok(offset + 1)
      else if offset + 1 + length > |message| || seen + 1 > MAX_LABELS_SEEN then Err(TooManyLabels)
      else SkipFrom(message, offset + 1 + length, seen + 1)
  }

  method SkipName(message: Octets, start: nat) returns (r: Result<nat, DnsError>)
    ensures r == SkipFrom(message, start, 0)
  {
    var offset, seen := start, 0;
    while true
      invariant SkipFrom(message, offset, seen) == SkipFrom(message, start, 0)
      invariant offset <= |message| || offset == start
      decreases |message| - offset
    {
      if offset >= |message| {
        return Err(Truncated);
      }
      var length := message[offset] as int;
      if length >= 0xC0 {
        if offset + 1 >= |message| {
          return Err(Truncated);
        }
        return Ok(offset + 2);
      }
      if length >= 0x40 {
        return Err(BadLabelType);
      }
      offset := offset + 1;
      if length == 0 {
        return Ok(offset);
      }
      offset := offset + length;
      seen := seen + 1;
      if offset > |message| || seen > MAX_LABELS_SEEN {
        return Err(TooManyLabels);
      }
    }
  }

  // ---- The grammar of names on the wire ----

  /** How a name on the wire ends: the root label, or a compression pointer. */
  datatype NameEnd = Root | Pointer(high: Octet, low: Octet)

  datatype WireName = WireName(labels: seq<Octets>, end: NameEnd)

  predicate NameOk(n: WireName) {
    && AllLabels(n.labels) && |n.labels| <= MAX_LABELS_SEEN
    && (n.end.Pointer? ==> (n.end.high as int) >= 0xC0)
  }

  function ShowEnd(e: NameEnd): Octets {
    match e
    case Root => ['\0']
    case Pointer(high, low) => [high, low]
  }

  function ShowName(n: WireName): Octets
    requires NameOk(n)
  {
    ShowLabels(n.labels) + ShowEnd(n.end)
  }

  lemma {:induction false} SkipShownLabels(
    before: Octets, labels: seq<Octets>, end: NameEnd, after: Octets, seen: nat)
    requires AllLabels(labels) && seen + |labels| <= MAX_LABELS_SEEN
    requires end.Pointer? ==> (end.high as int) >= 0xC0
    ensures SkipFrom(before + (ShowLabels(labels) + ShowEnd(end)) + after, |before|, seen)
         == Ok(|before| + |ShowLabels(labels)| + |ShowEnd(end)|)
    decreases |labels|
  {
    var message := before + (ShowLabels(labels) + ShowEnd(end)) + after;
    if labels == [] {
      assert message[|before|] == ShowEnd(end)[0];
    } else {
      var first := [|labels[0]| as char] + labels[0];
      assert IsLabel(labels[0]);
      assert AllLabels(labels[1..]);
      SkipShownLabels(before + first, labels[1..], end, after, seen + 1);
      Reassociate(first, ShowLabels(labels[1..]), ShowEnd(end));
      Reassociate(before, first, ShowLabels(labels[1..]) + ShowEnd(end));
      assert message[|before|] == first[0];
    }
  }

  /** Skipping a printed name, wherever it stands, lands exactly at its end. */
  lemma {:induction false} SkipShownName(before: Octets, n: WireName, after: Octets)
    requires NameOk(n)
    ensures SkipFrom(before + ShowName(n) + after, |before|, 0) == Ok(|before| + |ShowName(n)|)
  {
    SkipShownLabels(before, n.labels, n.end, after, 0);
  }

  lemma {:induction false} LabelsNeedRoom(labels: seq<Octets>)
    requires AllLabels(labels)
    ensures |ShowLabels(labels)| >= 2 * |labels|
  {
    if labels != [] {
      assert IsLabel(labels[0]);
      assert AllLabels(labels[1..]);
      LabelsNeedRoom(labels[1..]);
    }
  }

  /**
   Encoder and skipper agree: whatever name the encoder accepts, and wherever its output stands in a
   message, the skipper lands exactly behind it; 127 labels in 255 octets are the tight case.
   */
  lemma {:induction false} SkipEncodedName(before: Octets, host: Octets, after: Octets)
    requires EncodeName(host).Ok?
    ensures var name := EncodeName(host).value;
            |name| <= MAX_NAME && SkipFrom(before + name + after, |before|, 0) == Ok(|before| + |name|)
  {
    var labels := SplitDots(host);
    LabelsNeedRoom(labels);
    SkipShownName(before, WireName(labels, Root), after);
  }

  /** The longest encodable name has 127 one-octet labels. */
  lemma {:induction false} EncodedLabelCount(host: Octets)
    requires EncodeName(host).Ok?
    ensures |SplitDots(host)| <= MAX_LABELS_SEEN
  {
    LabelsNeedRoom(SplitDots(host));
  }

  /** Reads the labels of an uncompressed name back; the partner of the encoder. */
  function DecodeLabels(s: Octets): Option<seq<Octets>>
    decreases |s|
  {
    if s == [] then None
    else
      var length := s[0] as int;
      if length == 0 then Some([])
      else if length > MAX_LABEL || 1 + length > |s| then None
      else
        var more := DecodeLabels(s[1 + length..]);
        if more.None? then None else Some([s[1..1 + length]] + more.value)
  }

  function JoinDots(labels: seq<Octets>): Octets
    requires labels != []
  {
    if |labels| == 1 then labels[0] else labels[0] + ['.'] + JoinDots(labels[1..])
  }

  lemma {:induction false} DecodeShownLabels(labels: seq<Octets>)
    requires AllLabels(labels)
    ensures DecodeLabels(ShowLabels(labels) + ['\0']) == Some(labels)
  {
    if labels != [] {
      var l, rest := labels[0], ShowLabels(labels[1..]) + ['\0'];
      assert IsLabel(l);
      assert AllLabels(labels[1..]);
      DecodeShownLabels(labels[1..]);
      var s := ShowLabels(labels) + ['\0'];
      assert s == [|l| as char] + l + rest;
      assert s[1..1 + |l|] == l && s[1 + |l|..] == rest;
      assert [l] + labels[1..] == labels;
    }
  }

  lemma {:induction false} JoinSplitDots(s: Octets)
    ensures JoinDots(SplitDots(s)) == s
    decreases |s|
  {
    var k := DotIndex(s);
    if k < |s| {
      JoinSplitDots(s[k + 1..]);
      assert ([s[..k]] + SplitDots(s[k + 1..]))[1..] == SplitDots(s[k + 1..]);
      assert s == s[..k] + ['.'] + s[k + 1..];
    }
  }

  /** An encoded name decodes to labels that spell the host again. */
  lemma {:induction false} EncodeRoundTrip(host: Octets)
    requires EncodeName(host).Ok?
    ensures var labels := DecodeLabels(EncodeName(host).value);
            labels.Some? && labels.value != [] && JoinDots(labels.value) == host
  {
    DecodeShownLabels(SplitDots(host));
    JoinSplitDots(host);
  }

  /** Labels of one to 63 octets without dots, which joined by dots are the host. */
  predicate Spells(labels: seq<Octets>, host: Octets) {
    && labels != [] && AllLabels(labels) && (forall l <- labels :: '.' !in l) && JoinDots(labels) == host
  }

  lemma {:induction false} SplitHasNoDots(s: Octets)
    ensures forall l <- SplitDots(s) :: '.' !in l
    decreases |s|
  {
    var k := DotIndex(s);
    DotIndexIsFirst(s);
    if k < |s| {
      SplitHasNoDots(s[k + 1..]);
    }
  }

  lemma {:induction false} DotIndexIsFirst(s: Octets)
    ensures '.' !in s[..DotIndex(s)]
  {
    if s != [] && s[0] != '.' {
      DotIndexIsFirst(s[1..]);
      assert s[..DotIndex(s)] == [s[0]] + s[1..][..DotIndex(s[1..])];
    }
  }

  lemma {:induction false} DotIndexOf(l: Octets, rest: Octets)
    requires '.' !in l && (rest == [] || rest[0] == '.')
    ensures DotIndex(l + rest) == |l|
  {
    if l == [] {
      assert l + rest == rest;
    } else {
      assert (l + rest)[1..] == l[1..] + rest;
      DotIndexOf(l[1..], rest);
    }
  }

  lemma {:induction false} SplitJoinDots(labels: seq<Octets>)
    requires labels != [] && forall l <- labels :: '.' !in l
    ensures SplitDots(JoinDots(labels)) == labels
  {
    if |labels| == 1 {
      DotIndexOf(labels[0], []);
      assert labels[0] + [] == labels[0];
    } else {
      var rest := ['.'] + JoinDots(labels[1..]);
      var s := JoinDots(labels);
      assert s == labels[0] + rest;
      DotIndexOf(labels[0], rest);
      SplitJoinDots(labels[1..]);
      assert s[..|labels[0]|] == labels[0] && s[|labels[0]| + 1..] == JoinDots(labels[1..]);
    }
  }

  /** A host is encoded exactly when labels spell it and fit, and then as those labels; each error has its own cause. */
  lemma {:induction false} EncodeExact(host: Octets, name: Octets)
    ensures EncodeName(host) == Ok(name) <==>
            exists labels :: Spells(labels, host) && name == ShowLabels(labels) + ['\0'] && |name| <= 255
    ensures EncodeName(host) == Err(InvalidName) <==> forall labels :: !Spells(labels, host)
    ensures EncodeName(host) == Err(NameTooLong) <==>
            exists labels :: Spells(labels, host) && |ShowLabels(labels)| + 1 > 255
  {
    hide ShowLabels;
    JoinSplitDots(host);
    SplitHasNoDots(host);
    assert AllLabels(SplitDots(host)) <==> Spells(SplitDots(host), host);
    forall labels | Spells(labels, host) ensures labels == SplitDots(host) {
      SplitJoinDots(labels);
    }
  }

  lemma {:induction false} LabelCut(message: Octets, offset: nat, next: nat, end: nat)
    requires offset < next <= end <= |message|
    ensures message[offset..end] == [message[offset]] + message[offset + 1..next] + message[next..end]
  {
  }

  lemma {:induction false} Reassociate(a: Octets, b: Octets, c: Octets)
    ensures (a + b) + c == a + (b + c)
  {
  }

  /** What the skipper passes over is a name of the grammar. */
  lemma {:induction false} SkippedIsName(message: Octets, offset: nat, seen: nat) returns (n: WireName)
    requires SkipFrom(message, offset, seen).Ok? && seen <= MAX_LABELS_SEEN
    ensures seen + |n.labels| <= MAX_LABELS_SEEN && NameOk(n)
    ensures message[offset..SkipFrom(message, offset, seen).value] == ShowName(n)
    decreases |message| - offset
  {
    var length := message[offset] as int;
    var end := SkipFrom(message, offset, seen).value;
    if length >= 0xC0 {
      n := WireName([], Pointer(message[offset], message[offset + 1]));
    } else if length == 0 {
      n := WireName([], Root);
    } else {
      var next := offset + 1 + length;
      var more := SkippedIsName(message, next, seen + 1);
      var first := message[offset + 1..next];
      n := WireName([first] + more.labels, more.end);
      assert n.labels[1..] == more.labels;
      hide SkipFrom;
      LabelCut(message, offset, next, end);
      Reassociate([message[offset]] + first, ShowLabels(more.labels), ShowEnd(more.end));
    }
  }
}
