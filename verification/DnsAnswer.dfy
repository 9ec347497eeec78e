/**
 The A-answer parser of the egress proxy and the grammar of DNS responses (section 4.1 of RFC 1035).
 The parser accepts exactly the printed responses of the grammar and returns exactly their A/IN records.
 */
module DnsAnswer {
  import opened Common
  import opened Streams
  import opened DnsWire

  // ---- The parser ----

  function Word(message: Octets, i: nat): nat
    requires i + 2 <= |message|
  {
    (message[i] as int) * 256 + (message[i + 1] as int)
  }

  predicate IsResponse(flags: nat) { flags / 0x8000 % 2 == 1 }

  predicate IsTruncated(flags: nat) { flags / 0x200 % 2 == 1 }

  function Rcode(flags: nat): nat { flags % 16 }

  /** The end of a question: its name, type and class. */
  function QuestionEnd(message: Octets, offset: nat): (r: Result<nat, DnsError>)
    ensures r.Ok? ==> offset < r.value <= |message|
  {
    match SkipFrom(message, offset, 0)
    case Err(e) => Err(e)
    case Ok(end) => if end + 4 > |message| then Err(Truncated) else Ok(end + 4)
  }

  /** The end of a resource record, and its address when it is an A record of class IN. */
  function RecordAt(message: Octets, offset: nat): (r: Result<(nat, Option<Octets>), DnsError>)
    ensures r.Ok? ==> offset < r.value.0 <= |message|
  {
    match SkipFrom(message, offset, 0)
    case Err(e) => Err(e)
    case Ok(fixed) =>
      if fixed + 10 > |message| then Err(Truncated)
      else
        var data := fixed + 10;
        var end := data + Word(message, fixed + 8);
        if end > |message| then Err(Truncated)
        else if Word(message, fixed) == 1 && Word(message, fixed + 2) == 1 && end - data == 4 then
          Ok((end, Some(message[data..end])))
        else Ok((end, None))
  }

  function QuestionsEnd(message: Octets, offset: nat, count: nat): (r: Result<nat, DnsError>)
    ensures r.Ok? ==> offset <= r.value
    decreases count
  {
    if count == 0 then Ok(offset)
    else
      match QuestionEnd(message, offset)
      case Err(e) => Err(e)
      case Ok(next) => QuestionsEnd(message, next, count - 1)
  }

  function AddFound(found: set<Octets>, r: Result<set<Octets>, DnsError>): Result<set<Octets>, DnsError> {
    match r
    case Err(e) => Err(e)
    case Ok(more) => Ok(found + more)
  }

  function Addresses(message: Octets, offset: nat, count: nat): Result<set<Octets>, DnsError>
    decreases count
  {
    if count == 0 then Ok({})
    else
      match RecordAt(message, offset)
      case Err(e) => Err(e)
      case Ok((next, address)) =>
        AddFound(if address.Some? then {address.value} else {}, Addresses(message, next, count - 1))
  }

  /** The addresses of the answer section, and whether the response was truncated. */
  function ParseAnswer(message: Octets, id: nat): Result<(set<Octets>, bool), DnsError> {
    if |message| < 12 then Err(Truncated)
    else
      var flags := Word(message, 2);
      if Word(message, 0) != id || !IsResponse(flags) then Err(Mismatched)
      else if Rcode(flags) == 3 then Err(NoSuchName)
      else if Rcode(flags) != 0 then Err(ResolverFailure)
      else if IsTruncated(flags) then Ok(({}, true))
      else
        match QuestionsEnd(message, 12, Word(message, 4))
        case Err(e) => Err(e)
        case Ok(offset) =>
          match Addresses(message, offset, Word(message, 6))
          case Err(e) => Err(e)
          case Ok(found) => Ok((found, false))
  }

  /**
   What the twelve octets of the header decide: a foreign identifier or a query is a mismatch, then the response
   code counts, then the truncation bit; only a plain answer is read on, and can fail only in its names and lengths.
   */
  predicate HeaderDecides(h: Octets, id: nat, r: Result<(set<Octets>, bool), DnsError>)
    requires |h| == 12
  {
    var ours := (h[0] as int) * 256 + (h[1] as int) == id && (h[2] as int) >= 128;
    var code := (h[3] as int) % 16;
    var cut := (h[2] as int) / 2 % 2 == 1;
    && (r == Err(Mismatched) <==> !ours)
    && (r == Err(NoSuchName) <==> ours && code == 3)
    && (r == Err(ResolverFailure) <==> ours && code != 0 && code != 3)
    && (r == Ok(({}, true)) <==> ours && code == 0 && cut)
    && (r.Ok? ==> r.value == ({}, true) || !r.value.1)
    && (ours && code == 0 && !cut && r.Err? ==> r.error in {Truncated, BadLabelType, TooManyLabels})
  }

  lemma HeaderWordsMean(h0: int, h1: int)
    requires 0 <= h0 < 256 && 0 <= h1 < 256
    ensures var flags := h0 * 256 + h1;
            && (IsResponse(flags) <==> h0 >= 128) && (IsTruncated(flags) <==> h0 / 2 % 2 == 1) && Rcode(flags) == h1 % 16
  {
  }

  lemma {:induction false} SkipFailsBadly(message: Octets, offset: nat, seen: nat)
    ensures var r := SkipFrom(message, offset, seen); r.Err? ==> r.error in {Truncated, BadLabelType, TooManyLabels}
    decreases |message| - offset
  {
    if offset < |message| && 0 < (message[offset] as int) < 0x40 && offset + 1 + (message[offset] as int) <= |message| {
      SkipFailsBadly(message, offset + 1 + (message[offset] as int), seen + 1);
    }
  }

  lemma {:induction false} QuestionsFailBadly(message: Octets, offset: nat, count: nat)
    ensures var r := QuestionsEnd(message, offset, count);
            r.Err? ==> r.error in {Truncated, BadLabelType, TooManyLabels}
    decreases count
  {
    hide SkipFrom;
    if count > 0 {
      SkipFailsBadly(message, offset, 0);
      if QuestionEnd(message, offset).Ok? {
        QuestionsFailBadly(message, QuestionEnd(message, offset).value, count - 1);
      }
    }
  }

  lemma {:induction false} AddressesFailBadly(message: Octets, offset: nat, count: nat)
    ensures var r := Addresses(message, offset, count);
            r.Err? ==> r.error in {Truncated, BadLabelType, TooManyLabels}
    decreases count
  {
    hide SkipFrom;
    if count > 0 {
      SkipFailsBadly(message, offset, 0);
      if RecordAt(message, offset).Ok? {
        AddressesFailBadly(message, RecordAt(message, offset).value.0, count - 1);
      }
    }
  }

  lemma {:induction false} HeaderMeans(message: Octets, id: nat)
    ensures |message| >= 12 ==> HeaderDecides(message[..12], id, ParseAnswer(message, id))
  {
    hide IsResponse, IsTruncated, Rcode, Addresses, QuestionsEnd;
    if |message| >= 12 {
      HeaderWordsMean(message[2] as int, message[3] as int);
      QuestionsFailBadly(message, 12, Word(message, 4));
      if QuestionsEnd(message, 12, Word(message, 4)).Ok? {
        AddressesFailBadly(message, QuestionsEnd(message, 12, Word(message, 4)).value, Word(message, 6));
      }
    }
  }

  method ParseDnsAResponse(message: Octets, id: nat) returns (r: Result<(set<Octets>, bool), DnsError>)
    ensures r == ParseAnswer(message, id)
    ensures |message| < 12 ==> r == Err(Truncated)
    ensures |message| >= 12 ==> HeaderDecides(message[..12], id, r)
  {
    hide RecordAt, SkipFrom;
    HeaderMeans(message, id);
    if |message| < 12 {
      return Err(Truncated);
    }
    var flags := Word(message, 2);
    if Word(message, 0) != id || !IsResponse(flags) {
      return Err(Mismatched);
    }
    if Rcode(flags) == 3 {
      return Err(NoSuchName);
    }
    if Rcode(flags) != 0 {
      return Err(ResolverFailure);
    }
    if IsTruncated(flags) {
      return Ok(({}, true));
    }
    var offset: nat, left: nat := 12, Word(message, 4);
    while left > 0
      invariant QuestionsEnd(message, offset, left) == QuestionsEnd(message, 12, Word(message, 4))
    {
      var skipped := SkipName(message, offset);
      if skipped.Err? {
        return Err(skipped.error);
      }
      if skipped.value + 4 > |message| {
        return Err(Truncated);
      }
      offset, left := skipped.value + 4, left - 1;
    }
    var found := {};
    left := Word(message, 6);
    ghost var whole := Addresses(message, offset, left);
    assert whole.Ok? ==> {} + whole.value == whole.value;
    while left > 0
      invariant whole == AddFound(found, Addresses(message, offset, left))
    {
      ghost var rest := Addresses(message, offset, left);
      var record := ReadRecord(message, offset);
      if record.Err? {
        return Err(record.error);
      }
      var (next, address) := record.value;
      ghost var before := found;
      if address.Some? {
        found := found + {address.value};
      }
      offset, left := next, left - 1;
      ghost var more := Addresses(message, offset, left);
      assert more.Ok? ==> rest.Ok? && before + rest.value == found + more.value;
    }
    assert found + {} == found;
    return Ok((found, false));
  }

  method ReadRecord(message: Octets, offset: nat) returns (r: Result<(nat, Option<Octets>), DnsError>)
    ensures r == RecordAt(message, offset)
  {
    hide SkipFrom;
    var skipped := SkipName(message, offset);
    if skipped.Err? {
      return Err(skipped.error);
    }
    var fixed := skipped.value;
    if fixed + 10 > |message| {
      return Err(Truncated);
    }
    var kind, class_, length := Word(message, fixed), Word(message, fixed + 2), Word(message, fixed + 8);
    var data := fixed + 10;
    if data + length > |message| {
      return Err(Truncated);
    }
    return Ok((data + length,
      if kind == 1 && class_ == 1 && length == 4 then Some(message[data..data + length]) else None));
  }

  // ---- The grammar of responses ----

  datatype Question = Question(name: WireName, kind: nat, class_: nat)

  datatype Record = Record(name: WireName, kind: nat, class_: nat, ttl: Octets, data: Octets)

  /** A response: header words, question and answer sections, and whatever octets follow them. */
  datatype Response = Response(
    id: nat, flags: nat, counts: Octets, questions: seq<Question>, answers: seq<Record>, rest: Octets)

  predicate IsWord(n: nat) { n < 0x10000 }

  function ShowWord(n: nat): (s: Octets)
    requires IsWord(n)
    ensures |s| == 2 && Word(s, 0) == n
  {
    [(n / 256) as char, (n % 256) as char]
  }

  predicate QuestionOk(q: Question) {
    NameOk(q.name) && IsWord(q.kind) && IsWord(q.class_)
  }

  predicate RecordOk(r: Record) {
    NameOk(r.name) && IsWord(r.kind) && IsWord(r.class_) && |r.ttl| == 4 && IsWord(|r.data|)
  }

  predicate ResponseOk(r: Response) {
    && IsWord(r.id) && IsWord(r.flags) && |r.counts| == 4
    && IsWord(|r.questions|) && IsWord(|r.answers|)
    && (forall i | 0 <= i < |r.questions| :: QuestionOk(r.questions[i]))
    && (forall i | 0 <= i < |r.answers| :: RecordOk(r.answers[i]))
  }

  function ShowQuestion(q: Question): Octets
    requires QuestionOk(q)
  {
    ShowName(q.name) + (ShowWord(q.kind) + ShowWord(q.class_))
  }

  function ShowFixed(r: Record): (s: Octets)
    requires RecordOk(r)
    ensures |s| == 10
  {
    ShowWord(r.kind) + ShowWord(r.class_) + r.ttl + ShowWord(|r.data|)
  }

  function ShowRecord(r: Record): Octets
    requires RecordOk(r)
  {
    ShowName(r.name) + (ShowFixed(r) + r.data)
  }

  function ShowQuestions(qs: seq<Question>): Octets
    requires forall i | 0 <= i < |qs| :: QuestionOk(qs[i])
  {
    if qs == [] then [] else ShowQuestion(qs[0]) + ShowQuestions(qs[1..])
  }

  function ShowRecords(rs: seq<Record>): Octets
    requires forall i | 0 <= i < |rs| :: RecordOk(rs[i])
  {
    if rs == [] then [] else ShowRecord(rs[0]) + ShowRecords(rs[1..])
  }

  function ShowHeader(r: Response): (s: Octets)
    requires ResponseOk(r)
    ensures |s| == 12
  {
    ShowWord(r.id) + ShowWord(r.flags) + ShowWord(|r.questions|) + ShowWord(|r.answers|) + r.counts
  }

  function ShowResponse(r: Response): Octets
    requires ResponseOk(r)
  {
    ShowHeader(r) + (ShowQuestions(r.questions) + (ShowRecords(r.answers) + r.rest))
  }

  predicate IsAddress(r: Record) {
    r.kind == 1 && r.class_ == 1 && |r.data| == 4
  }

  /** The addresses a response answers with: the data of its A records of class IN. */
  function AddressesOf(rs: seq<Record>): set<Octets> {
    set i | 0 <= i < |rs| && IsAddress(rs[i]) :: rs[i].data
  }

  // ---- Printed responses parse ----

  lemma WordInContext(before: Octets, w: Octets, after: Octets, i: nat)
    requires i + 2 <= |w|
    ensures Word(before + w + after, |before| + i) == Word(w, i)
  {
    var m := before + w + after;
    assert m[|before| + i] == w[i] && m[|before| + i + 1] == w[i + 1];
  }

  lemma {:induction false} ShownQuestionParses(before: Octets, q: Question, after: Octets)
    requires QuestionOk(q)
    ensures QuestionEnd(before + ShowQuestion(q) + after, |before|) == Ok(|before + ShowQuestion(q)|)
  {
    hide SkipFrom, ShowName, NameOk;
    var tail := ShowWord(q.kind) + ShowWord(q.class_);
    assert before + ShowQuestion(q) + after == before + ShowName(q.name) + (tail + after);
    SkipShownName(before, q.name, tail + after);
  }

  lemma {:induction false} FixedWords(r: Record)
    requires RecordOk(r)
    ensures Word(ShowFixed(r), 0) == r.kind && Word(ShowFixed(r), 2) == r.class_
    ensures Word(ShowFixed(r), 8) == |r.data|
  {
  }

  lemma {:induction false} ShownRecordParses(before: Octets, r: Record, after: Octets)
    requires RecordOk(r)
    ensures RecordAt(before + ShowRecord(r) + after, |before|)
         == Ok((|before + ShowRecord(r)|, if IsAddress(r) then Some(r.data) else None))
  {
    hide SkipFrom, ShowName, NameOk;
    var name, fixed := ShowName(r.name), ShowFixed(r);
    var message := before + ShowRecord(r) + after;
    assert message == before + name + (fixed + r.data + after);
    assert message == (before + name) + fixed + (r.data + after);
    SkipShownName(before, r.name, fixed + r.data + after);
    FixedWords(r);
    WordInContext(before + name, fixed, r.data + after, 0);
    WordInContext(before + name, fixed, r.data + after, 2);
    WordInContext(before + name, fixed, r.data + after, 8);
    hide ShowFixed, Word;
    var data := |before| + |name| + 10;
    assert message[data..data + |r.data|] == r.data;
  }

  lemma {:induction false} ShownQuestionsParse(before: Octets, qs: seq<Question>, after: Octets)
    requires forall i | 0 <= i < |qs| :: QuestionOk(qs[i])
    ensures QuestionsEnd(before + ShowQuestions(qs) + after, |before|, |qs|) == Ok(|before + ShowQuestions(qs)|)
    decreases |qs|
  {
    hide QuestionEnd, ShowQuestion, QuestionOk;
    if qs != [] {
      var first := ShowQuestion(qs[0]);
      var rest := ShowQuestions(qs[1..]);
      ShownQuestionParses(before, qs[0], rest + after);
      ShownQuestionsParse(before + first, qs[1..], after);
      assert before + ShowQuestions(qs) + after == before + first + (rest + after);
      assert before + ShowQuestions(qs) + after == (before + first) + rest + after;
    }
  }

  lemma AddressesOfFirst(rs: seq<Record>)
    requires rs != []
    ensures AddressesOf(rs) == (if IsAddress(rs[0]) then {rs[0].data} else {}) + AddressesOf(rs[1..])
  {
    forall a | a in AddressesOf(rs)
      ensures a in (if IsAddress(rs[0]) then {rs[0].data} else {}) + AddressesOf(rs[1..])
    {
      var i :| 0 <= i < |rs| && IsAddress(rs[i]) && rs[i].data == a;
      if i > 0 {
        assert rs[1..][i - 1] == rs[i];
      }
    }
  }

  lemma {:induction false} ShownRecordsParse(before: Octets, rs: seq<Record>, after: Octets)
    requires forall i | 0 <= i < |rs| :: RecordOk(rs[i])
    ensures Addresses(before + ShowRecords(rs) + after, |before|, |rs|) == Ok(AddressesOf(rs))
    decreases |rs|
  {
    hide RecordAt, ShowRecord, RecordOk, IsAddress;
    if rs == [] {
      assert AddressesOf(rs) == {};
    } else {
      var first := ShowRecord(rs[0]);
      var rest := ShowRecords(rs[1..]);
      ShownRecordParses(before, rs[0], rest + after);
      ShownRecordsParse(before + first, rs[1..], after);
      AddressesOfFirst(rs);
      hide AddressesOf;
      assert before + ShowRecords(rs) + after == before + first + (rest + after);
      assert before + ShowRecords(rs) + after == (before + first) + rest + after;
    }
  }

  lemma {:induction false} HeaderWords(r: Response)
    requires ResponseOk(r)
    ensures var s := ShowHeader(r);
            Word(s, 0) == r.id && Word(s, 2) == r.flags
            && Word(s, 4) == |r.questions| && Word(s, 6) == |r.answers|
  {
  }

  predicate IsPlainAnswer(flags: nat) {
    IsResponse(flags) && Rcode(flags) == 0 && !IsTruncated(flags)
  }

  /** A well-formed untruncated response parses to exactly the addresses it answers with. */
  lemma {:induction false} ShownResponseParses(r: Response)
    requires ResponseOk(r) && IsPlainAnswer(r.flags)
    ensures ParseAnswer(ShowResponse(r), r.id) == Ok((AddressesOf(r.answers), false))
  {
    hide SkipFrom, QuestionsEnd, Addresses, IsResponse, Rcode, IsTruncated, AddressesOf, ShowQuestions, ShowRecords;
    var header, questions, answers := ShowHeader(r), ShowQuestions(r.questions), ShowRecords(r.answers);
    var message := ShowResponse(r);
    HeaderWords(r);
    assert message == [] + header + (questions + (answers + r.rest));
    WordInContext([], header, questions + (answers + r.rest), 0);
    WordInContext([], header, questions + (answers + r.rest), 2);
    WordInContext([], header, questions + (answers + r.rest), 4);
    WordInContext([], header, questions + (answers + r.rest), 6);
    assert message == header + questions + (answers + r.rest);
    assert message == (header + questions) + answers + r.rest;
    ShownQuestionsParse(header, r.questions, answers + r.rest);
    ShownRecordsParse(header + questions, r.answers, r.rest);
  }

  // ---- Parsed responses are printed ones ----

  lemma {:induction false} ParsedQuestionIsShown(message: Octets, offset: nat) returns (q: Question)
    requires QuestionEnd(message, offset).Ok?
    ensures QuestionOk(q) && message[offset..QuestionEnd(message, offset).value] == ShowQuestion(q)
  {
    hide SkipFrom, ShowName, NameOk, Word, ShowWord;
    var end := SkipFrom(message, offset, 0).value;
    var name := SkippedIsName(message, offset, 0);
    q := Question(name, Word(message, end), Word(message, end + 2));
    WordIsShown(message, end);
    WordIsShown(message, end + 2);
    Cut(message, end, end + 2, end + 4);
    Cut(message, offset, end, end + 4);
  }

  lemma {:induction false} Cut(message: Octets, i: nat, j: nat, k: nat)
    requires i <= j <= k <= |message|
    ensures message[i..k] == message[i..j] + message[j..k]
  {
  }

  lemma WordIsShown(message: Octets, i: nat)
    requires i + 2 <= |message|
    ensures IsWord(Word(message, i)) && ShowWord(Word(message, i)) == message[i..i + 2]
  {
    var n := Word(message, i);
    assert n / 256 == message[i] as int && n % 256 == message[i + 1] as int;
  }

  lemma {:induction false} FixedIsShown(message: Octets, i: nat, r: Record)
    requires RecordOk(r) && i + 10 <= |message|
    requires ShowWord(r.kind) == message[i..i + 2] && ShowWord(r.class_) == message[i + 2..i + 4]
    requires r.ttl == message[i + 4..i + 8] && ShowWord(|r.data|) == message[i + 8..i + 10]
    ensures ShowFixed(r) == message[i..i + 10]
  {
    hide ShowWord, Word, NameOk;
  }

  lemma {:induction false} ParsedRecordIsShown(message: Octets, offset: nat) returns (r: Record)
    requires RecordAt(message, offset).Ok?
    ensures RecordOk(r) && message[offset..RecordAt(message, offset).value.0] == ShowRecord(r)
    ensures RecordAt(message, offset).value.1 == if IsAddress(r) then Some(r.data) else None
  {
    hide SkipFrom, ShowName, NameOk, Word, ShowWord;
    var fixed := SkipFrom(message, offset, 0).value;
    var name := SkippedIsName(message, offset, 0);
    var end := RecordAt(message, offset).value.0;
    r := Record(name, Word(message, fixed), Word(message, fixed + 2),
      message[fixed + 4..fixed + 8], message[fixed + 10..end]);
    WordIsShown(message, fixed);
    WordIsShown(message, fixed + 2);
    WordIsShown(message, fixed + 8);
    FixedIsShown(message, fixed, r);
    RecordIsShown(message, offset, fixed, end, r);
  }

  lemma {:induction false} RecordIsShown(message: Octets, offset: nat, fixed: nat, end: nat, r: Record)
    requires RecordOk(r) && offset <= fixed && fixed + 10 <= end <= |message|
    requires ShowName(r.name) == message[offset..fixed] && ShowFixed(r) == message[fixed..fixed + 10]
    requires r.data == message[fixed + 10..end]
    ensures ShowRecord(r) == message[offset..end]
  {
    hide ShowName, NameOk, ShowFixed;
    Cut(message, fixed, fixed + 10, end);
    Cut(message, offset, fixed, end);
  }

  lemma {:induction false} ParsedQuestionsAreShown(message: Octets, offset: nat, count: nat)
    returns (qs: seq<Question>)
    requires QuestionsEnd(message, offset, count).Ok? && offset <= |message|
    ensures |qs| == count && QuestionsEnd(message, offset, count).value <= |message|
    ensures forall i | 0 <= i < |qs| :: QuestionOk(qs[i])
    ensures message[offset..QuestionsEnd(message, offset, count).value] == ShowQuestions(qs)
    decreases count
  {
    hide QuestionEnd, QuestionOk, ShowQuestion;
    if count == 0 {
      qs := [];
    } else {
      var next := QuestionEnd(message, offset).value;
      var q := ParsedQuestionIsShown(message, offset);
      var more := ParsedQuestionsAreShown(message, next, count - 1);
      qs := [q] + more;
      assert qs[1..] == more;
      var end := QuestionsEnd(message, offset, count).value;
      assert message[offset..end] == message[offset..next] + message[next..end];
    }
  }

  lemma {:induction false} ParsedRecordsAreShown(message: Octets, offset: nat, count: nat)
    returns (rs: seq<Record>, end: nat)
    requires Addresses(message, offset, count).Ok? && offset <= |message|
    ensures |rs| == count && offset <= end <= |message|
    ensures forall i | 0 <= i < |rs| :: RecordOk(rs[i])
    ensures message[offset..end] == ShowRecords(rs)
    ensures Addresses(message, offset, count).value == AddressesOf(rs)
    decreases count
  {
    hide RecordAt, RecordOk, ShowRecord, IsAddress;
    if count == 0 {
      rs, end := [], offset;
    } else {
      var (next, address) := RecordAt(message, offset).value;
      var r := ParsedRecordIsShown(message, offset);
      var more;
      more, end := ParsedRecordsAreShown(message, next, count - 1);
      rs := [r] + more;
      AddressesOfFirst(rs);
      hide AddressesOf;
      assert rs[1..] == more;
      assert message[offset..end] == message[offset..next] + message[next..end];
    }
  }

  lemma {:induction false} HeaderIsShown(message: Octets, r: Response)
    requires ResponseOk(r) && |message| >= 12
    requires ShowWord(r.id) == message[0..2] && ShowWord(r.flags) == message[2..4]
    requires ShowWord(|r.questions|) == message[4..6] && ShowWord(|r.answers|) == message[6..8]
    requires r.counts == message[8..12]
    ensures ShowHeader(r) == message[..12]
  {
    hide ShowWord, Word;
  }

  lemma {:induction false} ParsedMessageIsShown(message: Octets, id: nat, found: set<Octets>) returns (r: Response)
    requires ParseAnswer(message, id) == Ok((found, false))
    ensures ResponseOk(r) && IsPlainAnswer(r.flags) && r.id == id
    ensures ShowResponse(r) == message && AddressesOf(r.answers) == found
  {
    hide Word, ShowWord, IsResponse, Rcode, IsTruncated, SkipFrom, QuestionsEnd, Addresses, AddressesOf;
    hide ShowQuestions, ShowRecords, ShowHeader, ShowResponse, QuestionOk, RecordOk;
    var offset := QuestionsEnd(message, 12, Word(message, 4)).value;
    var qs := ParsedQuestionsAreShown(message, 12, Word(message, 4));
    var rs, end := ParsedRecordsAreShown(message, offset, Word(message, 6));
    r := Response(id, Word(message, 2), message[8..12], qs, rs, message[end..]);
    WordIsShown(message, 0);
    WordIsShown(message, 2);
    WordIsShown(message, 4);
    WordIsShown(message, 6);
    HeaderIsShown(message, r);
    ResponseIsShown(message, offset, end, r);
  }

  lemma {:induction false} ResponseIsShown(message: Octets, offset: nat, end: nat, r: Response)
    requires ResponseOk(r) && 12 <= offset <= end <= |message|
    requires ShowHeader(r) == message[..12] && ShowQuestions(r.questions) == message[12..offset]
    requires ShowRecords(r.answers) == message[offset..end] && r.rest == message[end..]
    ensures ShowResponse(r) == message
  {
    hide ShowHeader, ShowQuestions, ShowRecords;
    Cut(message, 12, offset, |message|);
    Cut(message, offset, end, |message|);
    assert message[end..] == message[end..|message|];
    assert message == message[..12] + message[12..|message|];
  }

  /**
   Parsing is exact: a message yields these addresses untruncated if and only if it is a well-formed
   response with that identifier, no error and no truncation, whose A/IN records are these addresses.
   */
  lemma {:induction false} ParseExact(message: Octets, id: nat, found: set<Octets>)
    ensures ParseAnswer(message, id) == Ok((found, false))
       <==> exists r ::
              ResponseOk(r) && IsPlainAnswer(r.flags) && r.id == id
              && ShowResponse(r) == message && AddressesOf(r.answers) == found
  {
    if ParseAnswer(message, id) == Ok((found, false)) {
      var r := ParsedMessageIsShown(message, id, found);
    }
    forall r | ResponseOk(r) && IsPlainAnswer(r.flags) && r.id == id
               && ShowResponse(r) == message && AddressesOf(r.answers) == found
      ensures ParseAnswer(message, id) == Ok((found, false))
    {
      ShownResponseParses(r);
    }
  }
}
