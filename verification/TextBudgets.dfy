/** Truncation with a notice that counts what it leaves out, and the two loops that spend a character budget. */
module TextBudgets {
  import opened Common
  import opened Decimal

  const NOTICE_HEAD := "\n... [internal search content truncated, "
  const NOTICE_TAIL := " characters omitted]"

  function Notice(omitted: nat): string {
    NOTICE_HEAD + ShowDecimal(omitted) + NOTICE_TAIL
  }

  function DigitCount(n: nat): nat {
    |ShowDecimal(n)|
  }

  /** The program's steps in order: a first notice for the whole length, then one for what that leaves out. */
  function Truncated(text: string, maxChars: int): string {
    if |text| <= maxChars then text
    else if maxChars <= 0 then ""
    else
      var first := Notice(|text|);
      if |first| >= maxChars then text[..maxChars]
      else
        var kept := Max(0, maxChars - |first|);
        var second := Notice(|text| - kept);
        if |second| >= maxChars then text[..maxChars]
        else text[..Max(0, maxChars - |second|)] + second
  }

  lemma {:induction false} DigitsGrow(m: nat, n: nat)
    requires m <= n
    ensures 1 <= DigitCount(m) <= DigitCount(n)
    decreases n
  {
    if n >= 10 && m >= 10 {
      DigitsGrow(m / 10, n / 10);
    } else if n >= 10 {
      DigitsGrow(0, n / 10);
    }
  }

  lemma NoticeLength(n: nat)
    ensures |Notice(n)| == |NOTICE_HEAD| + DigitCount(n) + |NOTICE_TAIL|
  {
    hide ShowDecimal;
  }

  /** The notice path is taken. */
  predicate Notified(text: string, maxChars: int) {
    |text| > maxChars && |Notice(|text|)| < maxChars
  }

  /** The second overflow check never fires: a notice for less omitted text is no longer. */
  lemma SecondCheckIsDead(text: string, maxChars: int)
    requires Notified(text, maxChars)
    ensures var kept := maxChars - |Notice(|text|)|;
            0 <= kept <= |text| && |Notice(|text| - kept)| <= |Notice(|text|)| < maxChars
  {
    hide ShowDecimal, Notice;
    var kept := maxChars - |Notice(|text|)|;
    DigitsGrow(|text| - kept, |text|);
    NoticeLength(|text|);
    NoticeLength(|text| - kept);
  }

  /** Truncation returns exactly the allowed number of characters. */
  lemma TruncatedLength(text: string, maxChars: int)
    ensures |Truncated(text, maxChars)| == Min(|text|, Max(0, maxChars))
  {
    hide Notice;
    if Notified(text, maxChars) {
      SecondCheckIsDead(text, maxChars);
    }
  }

  /**
   On the notice path the text kept, the omission reported and the true omission: the report exceeds the truth
   by the number of digits by which the two notices differ.
   */
  lemma ReportedOmission(text: string, maxChars: int) returns (kept: nat, reported: nat)
    requires Notified(text, maxChars)
    ensures kept <= |text| && Truncated(text, maxChars) == text[..kept] + Notice(reported)
    ensures reported - (|text| - kept) == DigitCount(|text|) - DigitCount(reported)
    ensures DigitCount(reported) <= DigitCount(|text|)
  {
    hide Notice, ShowDecimal;
    SecondCheckIsDead(text, maxChars);
    var first := maxChars - |Notice(|text|)|;
    reported := |text| - first;
    kept := maxChars - |Notice(reported)|;
    NoticeLength(|text|);
    NoticeLength(reported);
    DigitsGrow(reported, |text|);
  }

  /** A limit too short for a notice takes the first characters alone. */
  lemma ShortLimitKeepsPrefix(text: string, maxChars: int)
    requires !Notified(text, maxChars)
    ensures Truncated(text, maxChars) == text[..Min(|text|, Max(0, maxChars))]
  {
    hide Notice;
  }

  // ---- The search results loop ----

  /** The cap of one result, from its length, the per-result limit and what is left of the total. */
  function Cap(length: nat, perResult: Option<int>, remaining: Option<int>): int {
    var a := if perResult.Some? then Min(length, perResult.value) else length;
    if remaining.Some? then Min(a, remaining.value) else a
  }

  function Left(remaining: Option<int>, used: nat): Option<int> {
    if remaining.None? then None else Some(Max(0, remaining.value - used))
  }

  /** The results after the loop; entries without text content stay as they are. */
  function Limited(entries: seq<Option<string>>, perResult: Option<int>, remaining: Option<int>): seq<Option<string>> {
    if entries == [] then []
    else if entries[0].None? then [None] + Limited(entries[1..], perResult, remaining)
    else
      var text := Truncated(entries[0].value, Cap(|entries[0].value|, perResult, remaining));
      [Some(text)] + Limited(entries[1..], perResult, Left(remaining, |text|))
  }

  function TotalLength(entries: seq<Option<string>>): nat {
    if entries == [] then 0 else (if entries[0].Some? then |entries[0].value| else 0) + TotalLength(entries[1..])
  }

  /** Every result keeps under its limit, the sum under the total, and no result grows. */
  lemma {:induction false} LimitsHold(entries: seq<Option<string>>, perResult: Option<int>, remaining: Option<int>)
    ensures var out := Limited(entries, perResult, remaining);
            && |out| == |entries|
            && (forall i | 0 <= i < |entries| :: out[i].Some? <==> entries[i].Some?)
            && (forall i | 0 <= i < |entries| && out[i].Some? ::
                  |out[i].value| <= |entries[i].value|
                  && (perResult.Some? ==> |out[i].value| <= Max(0, perResult.value)))
            && (remaining.Some? ==> TotalLength(out) <= Max(0, remaining.value))
    decreases |entries|
  {
    hide Truncated;
    if entries != [] {
      if entries[0].None? {
        LimitsHold(entries[1..], perResult, remaining);
      } else {
        var cap := Cap(|entries[0].value|, perResult, remaining);
        TruncatedLength(entries[0].value, cap);
        LimitsHold(entries[1..], perResult, Left(remaining, |Truncated(entries[0].value, cap)|));
      }
    }
  }

  /** The share of one result: its own limit, then what the results before it left of the total. */
  predicate IsShare(length: nat, original: nat, perResult: Option<int>, remaining: Option<int>, before: nat) {
    var own := if perResult.Some? && perResult.value < original then Max(0, perResult.value) else original;
    length == if remaining.Some? && Max(0, remaining.value) - before < own then Max(0, Max(0, remaining.value) - before)
              else own
  }

  lemma ShareMoves(length: nat, original: nat, perResult: Option<int>, remaining: Option<int>, used: nat, before: nat)
    requires IsShare(length, original, perResult, Left(remaining, used), before)
    requires remaining.Some? ==> used <= Max(0, remaining.value)
    ensures IsShare(length, original, perResult, remaining, used + before)
  {
  }

  lemma FirstShare(text: string, perResult: Option<int>, remaining: Option<int>)
    ensures var cap := Cap(|text|, perResult, remaining);
            && IsShare(|Truncated(text, cap)|, |text|, perResult, remaining, 0)
            && (remaining.Some? ==> |Truncated(text, cap)| <= Max(0, remaining.value))
  {
    hide Truncated;
    TruncatedLength(text, Cap(|text|, perResult, remaining));
  }

  lemma TotalOfFront(x: Option<string>, rest: seq<Option<string>>, i: nat)
    requires i <= |rest|
    ensures TotalLength(([x] + rest)[..i + 1]) == (if x.Some? then |x.value| else 0) + TotalLength(rest[..i])
  {
    var front := ([x] + rest)[..i + 1];
    assert front[0] == x && front[1..] == rest[..i];
  }

  /** No character of the budget is wasted: every result is as long as its limit and what is left before it allow. */
  lemma {:induction false} SharesAreExact(entries: seq<Option<string>>, perResult: Option<int>, remaining: Option<int>,
                                         i: nat)
    requires i < |entries| && entries[i].Some?
    ensures var out := Limited(entries, perResult, remaining);
            && i < |out| && out[i].Some?
            && IsShare(|out[i].value|, |entries[i].value|, perResult, remaining, TotalLength(out[..i]))
    decreases |entries|
  {
    hide Truncated, TotalLength, IsShare, Limited, Left, Cap;
    LimitStep(entries, perResult, remaining);
    var rest := entries[1..];
    if entries[0].None? {
      SharesAreExact(rest, perResult, remaining, i - 1);
      TotalOfFront(None, Limited(rest, perResult, remaining), i - 1);
    } else {
      var text := Truncated(entries[0].value, Cap(|entries[0].value|, perResult, remaining));
      var more := Limited(rest, perResult, Left(remaining, |text|));
      FirstShare(entries[0].value, perResult, remaining);
      if i == 0 {
        assert ([Some(text)] + more)[..0] == [];
        NothingTotals();
      } else {
        SharesAreExact(rest, perResult, Left(remaining, |text|), i - 1);
        TotalOfFront(Some(text), more, i - 1);
        ShareMoves(|more[i - 1].value|, |rest[i - 1].value|, perResult, remaining, |text|, TotalLength(more[..i - 1]));
      }
    }
  }

  lemma NothingTotals()
    ensures TotalLength([]) == 0
  {
  }

  /** A budget that suffices changes nothing. */
  lemma {:induction false} EnoughChangesNothing(entries: seq<Option<string>>, perResult: Option<int>, remaining: Option<int>)
    requires perResult.Some? ==> forall i | 0 <= i < |entries| && entries[i].Some? :: |entries[i].value| <= perResult.value
    requires remaining.Some? ==> TotalLength(entries) <= remaining.value
    ensures Limited(entries, perResult, remaining) == entries
    decreases |entries|
  {
    if entries != [] {
      if entries[0].None? {
        EnoughChangesNothing(entries[1..], perResult, remaining);
      } else {
        EnoughChangesNothing(entries[1..], perResult, Left(remaining, |entries[0].value|));
      }
    }
  }

  method LimitResults(entries: array<Option<string>>, perResult: Option<int>, total: Option<int>)
    modifies entries
    ensures entries[..] == Limited(old(entries[..]), perResult, total)
  {
    hide Truncated, Limited;
    ghost var before, done: seq<Option<string>> := entries[..], [];
    var remaining := total;
    var i := 0;
    NothingLimited(perResult, total);
    assert before[0..] == before && [] + Limited(before, perResult, total) == Limited(before, perResult, total);
    while i < entries.Length
      invariant 0 <= i <= entries.Length == |before| && entries[..i] == done && entries[i..] == before[i..]
      invariant Limited(before, perResult, total) == done + Limited(before[i..], perResult, remaining)
    {
      ghost var rest := before[i..];
      var entry := entries[i];
      assert entry == entries[i..][0] && rest[0] == entry && rest[1..] == before[i + 1..];
      LimitStep(rest, perResult, remaining);
      if entry.Some? {
        var cap := |entry.value|;
        if perResult.Some? {
          cap := Min(cap, perResult.value);
        }
        if remaining.Some? {
          cap := Min(cap, remaining.value);
        }
        var text := Truncated(entry.value, cap);
        entries[i] := Some(text);
        if remaining.Some? {
          remaining := Some(Max(0, remaining.value - |text|));
        }
      }
      Regroup(done, entries[i], Limited(before[i + 1..], perResult, remaining));
      done := done + [entries[i]];
      NextSlice(entries, before, i);
      i := i + 1;
    }
    assert entries[..] == entries[..i] && before[i..] == [];
    NothingLimited(perResult, remaining);
    assert done + [] == done;
  }

  lemma NothingLimited(perResult: Option<int>, remaining: Option<int>)
    ensures Limited([], perResult, remaining) == []
  {
  }

  lemma Regroup<T>(a: seq<T>, x: T, b: seq<T>)
    ensures a + ([x] + b) == (a + [x]) + b
  {
  }

  lemma NextSlice<T>(a: array<T>, before: seq<T>, i: nat)
    requires i < a.Length == |before| && a[i + 1..] == before[i..][1..]
    ensures a[..i + 1] == a[..i] + [a[i]] && a[i + 1..] == before[i + 1..]
  {
  }

  lemma LimitStep(entries: seq<Option<string>>, perResult: Option<int>, remaining: Option<int>)
    requires entries != []
    ensures Limited(entries, perResult, remaining) ==
            if entries[0].None? then [None] + Limited(entries[1..], perResult, remaining)
            else
              var text := Truncated(entries[0].value, Cap(|entries[0].value|, perResult, remaining));
              [Some(text)] + Limited(entries[1..], perResult, Left(remaining, |text|))
  {
    hide Truncated;
  }

  // ---- The coding agent's fallback ----

  const TOTAL_OUTPUT := 16000
  const LEAST_OUTPUT := 1000
  const RECENT_OUTPUTS := 6

  datatype ToolOutput = ToolOutput(callId: Option<string>, output: string)

  function Shown(c: char, printable: char -> bool): char {
    if c == '\n' || c == '\r' || c == '\t' || printable(c) then c else '?'
  }

  function Printable(text: string, printable: char -> bool): (r: string)
    ensures |r| == |text|
    ensures forall i | 0 <= i < |text| ::
              r[i] == if text[i] in {'\n', '\r', '\t'} || printable(text[i]) then text[i] else '?'
  {
    seq(|text|, i requires 0 <= i < |text| => Shown(text[i], printable))
  }

  function Omission(omitted: nat): string {
    "\n... [coding-agent output truncated, " + ShowDecimal(omitted) + " characters omitted]"
  }

  /** Unprintable characters become question marks; past the limit a notice follows the kept characters. */
  function Sanitized(text: string, maxChars: nat, printable: char -> bool): string {
    var shown := Printable(text, printable);
    if |shown| <= maxChars then shown else shown[..maxChars] + Omission(|shown| - maxChars)
  }

  function Kept(text: string, maxChars: nat): nat {
    Min(|text|, maxChars)
  }

  /** Sanitizing keeps that many characters of the output, and goes past its limit exactly when it adds a notice. */
  lemma SanitizedKeeps(text: string, maxChars: nat, printable: char -> bool)
    ensures var s := Sanitized(text, maxChars, printable);
            && Kept(text, maxChars) <= |s|
            && s[..Kept(text, maxChars)] == Printable(text, printable)[..Kept(text, maxChars)]
            && (|s| <= maxChars <==> |text| <= maxChars)
            && |s| == Kept(text, maxChars) + (if |text| <= maxChars then 0 else |Omission(|text| - maxChars)|)
  {
    hide ShowDecimal;
  }

  function Chunk(index: nat, o: ToolOutput, sanitized: string): string {
    "Tool output " + ShowDecimal(index)
    + (if o.callId.Some? && o.callId.value != "" then " (" + o.callId.value + ")" else "")
    + ":\n```text\n" + sanitized + "\n```"
  }

  function Recent(outputs: seq<ToolOutput>): seq<ToolOutput> {
    if |outputs| <= RECENT_OUTPUTS then outputs else outputs[|outputs| - RECENT_OUTPUTS..]
  }

  /** The outputs kept are the last six, or all of them. */
  lemma RecentAreLast(outputs: seq<ToolOutput>)
    ensures |Recent(outputs)| == Min(6, |outputs|)
    ensures forall i | 0 <= i < |Recent(outputs)| :: Recent(outputs)[i] == outputs[|outputs| - |Recent(outputs)| + i]
  {
  }

  /** Where each output from i on is cut, when remaining characters are left: its share, but no less than the least. */
  function Limits(outputs: seq<ToolOutput>, i: nat, remaining: nat, printable: char -> bool): (r: seq<nat>)
    requires i <= |outputs|
    ensures |r| == |outputs| - i
    decreases |outputs| - i
  {
    if i == |outputs| then []
    else
      var limit := Max(LEAST_OUTPUT, remaining / (|outputs| - i));
      var used := |Chunk(i + 1, outputs[i], Sanitized(outputs[i].output, limit, printable))|;
      [limit] + Limits(outputs, i + 1, Max(0, remaining - used), printable)
  }

  /** The characters of tool output carried from output i on. */
  function KeptTotal(outputs: seq<ToolOutput>, i: nat, limits: seq<nat>): nat
    requires i + |limits| == |outputs|
    decreases |limits|
  {
    if limits == [] then 0 else Kept(outputs[i].output, limits[0]) + KeptTotal(outputs, i + 1, limits[1..])
  }

  /** The chunks from output i on, cut at these limits. */
  function Chunks(outputs: seq<ToolOutput>, i: nat, limits: seq<nat>, printable: char -> bool): seq<string>
    requires i + |limits| == |outputs|
    decreases |limits|
  {
    if limits == [] then []
    else
      [Chunk(i + 1, outputs[i], Sanitized(outputs[i].output, limits[0], printable))]
      + Chunks(outputs, i + 1, limits[1..], printable)
  }

  /**
   The characters of tool output in all chunks together never exceed what is left, or the least share of every
   output if that is more, whatever the outputs and however long their labels are.
   */
  lemma {:induction false} KeptWithinBudget(outputs: seq<ToolOutput>, i: nat, remaining: nat, printable: char -> bool)
    requires i <= |outputs|
    ensures KeptTotal(outputs, i, Limits(outputs, i, remaining, printable))
            <= Max(remaining, LEAST_OUTPUT * (|outputs| - i))
    decreases |outputs| - i
  {
    hide Chunk, Sanitized, Kept;
    if i < |outputs| {
      var limit: nat := Max(LEAST_OUTPUT, remaining / (|outputs| - i));
      var used := |Chunk(i + 1, outputs[i], Sanitized(outputs[i].output, limit, printable))|;
      var rest := Limits(outputs, i + 1, Max(0, remaining - used), printable);
      assert ([limit] + rest)[1..] == rest;
      KeptWithinBudget(outputs, i + 1, Max(0, remaining - used), printable);
      ChunkIsLonger(i + 1, outputs[i], limit, printable);
      Spend(remaining, |outputs| - i, limit, Kept(outputs[i].output, limit), used);
    }
  }

  /** Over any history the fallback carries at most the total of tool output. */
  lemma FallbackKeepsTotal(outputs: seq<ToolOutput>, printable: char -> bool)
    ensures var recent := Recent(outputs);
            KeptTotal(recent, 0, Limits(recent, 0, TOTAL_OUTPUT, printable)) <= TOTAL_OUTPUT
  {
    hide Limits, KeptTotal;
    KeptWithinBudget(Recent(outputs), 0, TOTAL_OUTPUT, printable);
  }

  /** A sanitized output: its first characters, shown, and a notice of how many were left out when it was cut. */
  predicate Shows(text: string, output: string, limit: nat, printable: char -> bool) {
    if |output| <= limit then text == Printable(output, printable)
    else
      text == Printable(output[..limit], printable) + "\n... [coding-agent output truncated, "
              + ShowDecimal(|output| - limit) + " characters omitted]"
  }

  /** Chunk i: the output's number, its call if it has one, and the sanitized text in a fence. */
  ghost predicate IsChunk(chunk: string, i: nat, o: ToolOutput, limit: nat, printable: char -> bool) {
    exists text ::
      && Shows(text, o.output, limit, printable)
      && chunk == "Tool output " + ShowDecimal(i + 1)
                  + (if o.callId.Some? && o.callId.value != "" then " (" + o.callId.value + ")" else "")
                  + ":\n```text\n" + text + "\n```"
  }

  /** left[i] characters of the total are left for chunk i, which is cut at its share of them or at a thousand. */
  ghost predicate Budgeted(chunks: seq<string>, recent: seq<ToolOutput>, left: seq<nat>, printable: char -> bool) {
    && |left| == |chunks| + 1 && |chunks| <= |recent| && left[0] == 16000
    && forall i | 0 <= i < |chunks| ::
         && IsChunk(chunks[i], i, recent[i], Max(1000, left[i] / (|recent| - i)), printable)
         && left[i + 1] == Max(0, left[i] - |chunks[i]|)
  }

  lemma ChunkIsOne(i: nat, o: ToolOutput, limit: nat, printable: char -> bool)
    ensures IsChunk(Chunk(i + 1, o, Sanitized(o.output, limit, printable)), i, o, limit, printable)
  {
    hide ShowDecimal;
    var text := Sanitized(o.output, limit, printable);
    if |o.output| > limit {
      assert Printable(o.output, printable)[..limit] == Printable(o.output[..limit], printable);
    }
    assert Shows(text, o.output, limit, printable);
  }

  lemma BudgetedNext(chunks: seq<string>, chunk: string, recent: seq<ToolOutput>, left: seq<nat>, printable: char -> bool)
    requires Budgeted(chunks, recent, left, printable) && |chunks| < |recent|
    requires var i := |chunks|; IsChunk(chunk, i, recent[i], Max(1000, left[i] / (|recent| - i)), printable)
    ensures Budgeted(chunks + [chunk], recent, left + [Max(0, left[|chunks|] - |chunk|)], printable)
  {
    hide IsChunk;
  }

  method Fallback(outputs: seq<ToolOutput>, printable: char -> bool) returns (chunks: seq<string>, ghost left: seq<nat>)
    ensures var recent := Recent(outputs);
            chunks == Chunks(recent, 0, Limits(recent, 0, TOTAL_OUTPUT, printable), printable)
    ensures |chunks| == |Recent(outputs)| && Budgeted(chunks, Recent(outputs), left, printable)
  {
    hide Chunk, Sanitized, IsChunk, Budgeted;
    var recent := Recent(outputs);
    var remaining: nat := TOTAL_OUTPUT;
    chunks, left := [], [16000];
    NothingBudgeted(recent, printable);
    ghost var limits := Limits(recent, 0, TOTAL_OUTPUT, printable);
    ghost var all := Chunks(recent, 0, limits, printable);
    assert [] + all == all;
    var i := 0;
    while i < |recent|
      invariant 0 <= i <= |recent| && i + |limits| == |recent|
      invariant limits == Limits(recent, i, remaining, printable)
      invariant all == chunks + Chunks(recent, i, limits, printable)
      invariant |chunks| == i && |left| == i + 1 && left[i] == remaining && Budgeted(chunks, recent, left, printable)
    {
      var slots := |recent| - i;
      var limit: nat := Max(LEAST_OUTPUT, remaining / slots);
      var chunk := Chunk(i + 1, recent[i], Sanitized(recent[i].output, limit, printable));
      assert limits[0] == limit && limits[1..] == Limits(recent, i + 1, Max(0, remaining - |chunk|), printable);
      Regroup(chunks, chunk, Chunks(recent, i + 1, limits[1..], printable));
      ChunkIsOne(i, recent[i], limit, printable);
      BudgetedNext(chunks, chunk, recent, left, printable);
      chunks, left := chunks + [chunk], left + [Max(0, remaining - |chunk|)];
      limits := limits[1..];
      remaining := Max(0, remaining - |chunk|);
      i := i + 1;
    }
    assert chunks + [] == chunks;
  }

  lemma NothingBudgeted(recent: seq<ToolOutput>, printable: char -> bool)
    ensures Budgeted([], recent, [16000], printable)
  {
  }

  lemma ChunkIsLonger(index: nat, o: ToolOutput, limit: nat, printable: char -> bool)
    ensures Kept(o.output, limit) <= limit
    ensures |Chunk(index, o, Sanitized(o.output, limit, printable))| >= Kept(o.output, limit)
  {
    hide ShowDecimal, Sanitized;
    SanitizedKeeps(o.output, limit, printable);
  }

  /** One slot's share: either its part of what is left, or the least share that every slot may take. */
  lemma Spend(remaining: nat, slots: nat, limit: nat, kept: nat, used: nat)
    requires slots > 0 && limit == Max(LEAST_OUTPUT, remaining / slots)
    requires kept <= limit && kept <= used
    ensures kept + Max(Max(0, remaining - used), LEAST_OUTPUT * (slots - 1)) <= Max(remaining, LEAST_OUTPUT * slots)
  {
    var share := remaining / slots;
    ShareTimesSlots(remaining, slots);
    if share >= LEAST_OUTPUT {
      LargerTimes(share, LEAST_OUTPUT, slots - 1);
    }
  }

  lemma ShareTimesSlots(remaining: nat, slots: nat)
    requires slots > 0
    ensures (remaining / slots) * (slots - 1) + remaining / slots <= remaining
  {
  }

  lemma LargerTimes(a: nat, b: nat, n: nat)
    requires a >= b
    ensures a * n >= b * n
  {
  }

  // ---- Counting the notices too ----

  /** The characters of sanitized output, notices included, from output i on. */
  function SanitizedTotal(outputs: seq<ToolOutput>, i: nat, limits: seq<nat>, printable: char -> bool): nat
    requires i + |limits| == |outputs|
    decreases |limits|
  {
    if limits == [] then 0
    else |Sanitized(outputs[i].output, limits[0], printable)| + SanitizedTotal(outputs, i + 1, limits[1..], printable)
  }

  /** The characters of the notices alone, from output i on. */
  function NoticeTotal(outputs: seq<ToolOutput>, i: nat, limits: seq<nat>): nat
    requires i + |limits| == |outputs|
    decreases |limits|
  {
    if limits == [] then 0
    else
      (if |outputs[i].output| <= limits[0] then 0 else |Omission(|outputs[i].output| - limits[0])|)
      + NoticeTotal(outputs, i + 1, limits[1..])
  }

  lemma {:induction false} SanitizedTotalIs(outputs: seq<ToolOutput>, i: nat, limits: seq<nat>, printable: char -> bool)
    requires i + |limits| == |outputs|
    ensures SanitizedTotal(outputs, i, limits, printable) == KeptTotal(outputs, i, limits) + NoticeTotal(outputs, i, limits)
    decreases |limits|
  {
    hide Sanitized, Omission;
    if limits != [] {
      SanitizedKeeps(outputs[i].output, limits[0], printable);
      SanitizedTotalIs(outputs, i + 1, limits[1..], printable);
    }
  }

  /** No output from i on is cut. */
  predicate Uncut(outputs: seq<ToolOutput>, i: nat, limits: seq<nat>)
    requires i + |limits| == |outputs|
  {
    forall j | 0 <= j < |limits| :: |outputs[i + j].output| <= limits[j]
  }

  lemma {:induction false} UncutHasNoNotice(outputs: seq<ToolOutput>, i: nat, limits: seq<nat>)
    requires i + |limits| == |outputs|
    ensures NoticeTotal(outputs, i, limits) == 0 <==> Uncut(outputs, i, limits)
    decreases |limits|
  {
    hide ShowDecimal;
    if limits != [] {
      var rest := limits[1..];
      UncutHasNoNotice(outputs, i + 1, rest);
      assert Uncut(outputs, i, limits) <==> |outputs[i].output| <= limits[0] && Uncut(outputs, i + 1, rest) by {
        if |outputs[i].output| <= limits[0] && Uncut(outputs, i + 1, rest) {
          forall j | 0 <= j < |limits| ensures |outputs[i + j].output| <= limits[j] {
            assert j > 0 ==> limits[j] == rest[j - 1] && |outputs[i + 1 + (j - 1)].output| <= rest[j - 1];
          }
        }
        if Uncut(outputs, i, limits) {
          forall j | 0 <= j < |rest| ensures |outputs[i + 1 + j].output| <= rest[j] {
            assert |outputs[i + (j + 1)].output| <= limits[j + 1];
          }
        }
      }
    }
  }

  lemma OmissionGrows(omitted: nat, longest: nat)
    requires omitted <= longest
    ensures |Omission(omitted)| <= |Omission(longest)|
  {
    hide ShowDecimal;
    DigitsGrow(omitted, longest);
  }

  /** At most one notice for each output, none longer than the longest output's length calls for. */
  lemma {:induction false} NoticesAreShort(outputs: seq<ToolOutput>, i: nat, limits: seq<nat>, longest: nat)
    requires i + |limits| == |outputs| && forall j | 0 <= j < |outputs| :: |outputs[j].output| <= longest
    ensures NoticeTotal(outputs, i, limits) <= |limits| * |Omission(longest)|
    decreases |limits|
  {
    hide Omission, ShowDecimal;
    if limits != [] {
      if |outputs[i].output| > limits[0] {
        OmissionGrows(|outputs[i].output| - limits[0], longest);
      }
      NoticesAreShort(outputs, i + 1, limits[1..], longest);
      OneMoreTime(|limits| - 1, |Omission(longest)|);
    }
  }

  lemma OneMoreTime(n: nat, m: nat)
    ensures (n + 1) * m == n * m + m
  {
  }

  /** The characters of the fallback's sanitized outputs, notices included. */
  function FallbackTotal(outputs: seq<ToolOutput>, printable: char -> bool): nat {
    var recent := Recent(outputs);
    SanitizedTotal(recent, 0, Limits(recent, 0, TOTAL_OUTPUT, printable), printable)
  }

  /** Nothing goes past the total while no recent output is cut, and otherwise no more than the notices do. */
  lemma {:induction false} NoticesBoundOvershoot(outputs: seq<ToolOutput>, printable: char -> bool, longest: nat)
    requires forall i | 0 <= i < |outputs| :: |outputs[i].output| <= longest
    ensures var recent := Recent(outputs);
            var limits := Limits(recent, 0, TOTAL_OUTPUT, printable);
            && (Uncut(recent, 0, limits) ==> FallbackTotal(outputs, printable) <= TOTAL_OUTPUT)
            && FallbackTotal(outputs, printable) <= TOTAL_OUTPUT + NoticeTotal(recent, 0, limits)
            && FallbackTotal(outputs, printable) <= TOTAL_OUTPUT + RECENT_OUTPUTS * |Omission(longest)|
  {
    hide Limits, KeptTotal, NoticeTotal, SanitizedTotal, Uncut, ShowDecimal, Omission;
    var recent := Recent(outputs);
    var limits := Limits(recent, 0, TOTAL_OUTPUT, printable);
    FallbackKeepsTotal(outputs, printable);
    SanitizedTotalIs(recent, 0, limits, printable);
    UncutHasNoNotice(recent, 0, limits);
    NoticesAreShort(recent, 0, limits, longest);
    LargerTimes(RECENT_OUTPUTS, |limits|, |Omission(longest)|);
  }

  // ---- When the notices go past the total ----

  /** What is left of the total when the turn of the last output comes. */
  function LeftForLast(outputs: seq<ToolOutput>, i: nat, remaining: nat, printable: char -> bool): nat
    requires i < |outputs|
    decreases |outputs| - i
  {
    if i + 1 == |outputs| then remaining
    else
      var limit: nat := Max(LEAST_OUTPUT, remaining / (|outputs| - i));
      var used := |Chunk(i + 1, outputs[i], Sanitized(outputs[i].output, limit, printable))|;
      LeftForLast(outputs, i + 1, Max(0, remaining - used), printable)
  }

  /** The characters of an output's label and fence. */
  function Frame(index: nat, o: ToolOutput): nat {
    |Chunk(index, o, "")|
  }

  /** The labels and fences of the outputs from i on, without the last one's. */
  function FramesBeforeLast(outputs: seq<ToolOutput>, i: nat): nat
    requires i < |outputs|
    decreases |outputs| - i
  {
    if i + 1 == |outputs| then 0 else Frame(i + 1, outputs[i]) + FramesBeforeLast(outputs, i + 1)
  }

  /**
   The last output is cut although at least the least share is left for it, and its notice is longer than all that
   the labels and fences before it took.
   */
  predicate LastNoticeOverruns(outputs: seq<ToolOutput>, printable: char -> bool) {
    outputs != [] &&
    var last := |outputs[|outputs| - 1].output|;
    var left := LeftForLast(outputs, 0, TOTAL_OUTPUT, printable);
    left >= LEAST_OUTPUT && last > left && |Omission(last - left)| > FramesBeforeLast(outputs, 0)
  }

  lemma ChunkIsFramed(index: nat, o: ToolOutput, sanitized: string)
    ensures |Chunk(index, o, sanitized)| == Frame(index, o) + |sanitized|
    ensures Frame(index, o) >= 27
  {
    hide ShowDecimal;
    DigitsGrow(0, index);
  }

  lemma {:induction false} LeftShrinks(outputs: seq<ToolOutput>, i: nat, remaining: nat, printable: char -> bool)
    requires i < |outputs|
    ensures LeftForLast(outputs, i, remaining, printable) <= remaining
    decreases |outputs| - i
  {
    hide Chunk, Sanitized;
    if i + 1 < |outputs| {
      var limit: nat := Max(LEAST_OUTPUT, remaining / (|outputs| - i));
      var used := |Chunk(i + 1, outputs[i], Sanitized(outputs[i].output, limit, printable))|;
      LeftShrinks(outputs, i + 1, Max(0, remaining - used), printable);
    }
  }

  lemma {:induction false} SanitizedStep(outputs: seq<ToolOutput>, i: nat, remaining: nat, printable: char -> bool)
    returns (limit: nat, next: nat)
    requires i < |outputs|
    ensures limit == Max(LEAST_OUTPUT, remaining / (|outputs| - i))
    ensures var text := |Sanitized(outputs[i].output, limit, printable)|;
            && next == Max(0, remaining - text - Frame(i + 1, outputs[i]))
            && SanitizedTotal(outputs, i, Limits(outputs, i, remaining, printable), printable)
               == text + SanitizedTotal(outputs, i + 1, Limits(outputs, i + 1, next, printable), printable)
            && (i + 1 < |outputs| ==>
                  LeftForLast(outputs, i, remaining, printable) == LeftForLast(outputs, i + 1, next, printable))
  {
    hide Chunk, Sanitized, Frame;
    limit := Max(LEAST_OUTPUT, remaining / (|outputs| - i));
    var text := Sanitized(outputs[i].output, limit, printable);
    ChunkIsFramed(i + 1, outputs[i], text);
    next := Max(0, remaining - |Chunk(i + 1, outputs[i], text)|);
    var rest := Limits(outputs, i + 1, next, printable);
    assert ([limit] + rest)[1..] == rest;
  }

  /** With a least share left for the last output, every character before it was paid for. */
  lemma {:induction false} SpentIsConserved(outputs: seq<ToolOutput>, i: nat, remaining: nat, printable: char -> bool)
    requires i < |outputs| && LeftForLast(outputs, i, remaining, printable) >= LEAST_OUTPUT
    ensures var left := LeftForLast(outputs, i, remaining, printable);
            SanitizedTotal(outputs, i, Limits(outputs, i, remaining, printable), printable)
            + FramesBeforeLast(outputs, i) + left
            == remaining + |Sanitized(outputs[|outputs| - 1].output, left, printable)|
    decreases |outputs| - i
  {
    hide Chunk, Sanitized, Frame, Limits;
    var limit, next := SanitizedStep(outputs, i, remaining, printable);
    if i + 1 == |outputs| {
      assert remaining / 1 == remaining;
    } else {
      LeftShrinks(outputs, i + 1, next, printable);
      SpentIsConserved(outputs, i + 1, next, printable);
    }
  }

  /** A budget from which every slot can still take its share with a notice of up to a hundred characters. */
  function Reserve(slots: nat): nat {
    slots * (100 * slots + 2000)
  }

  lemma OneSlotLess(budget: nat, remaining: nat, slots: nat, text: nat)
    requires slots >= 2 && budget >= Reserve(slots) && remaining <= budget
    requires text <= Max(LEAST_OUTPUT, remaining / slots) + 100
    ensures budget - text >= Reserve(slots - 1)
  {
    var share, n, least := budget / slots, slots - 1, 100 * slots + 2000;
    ShareOfMore(remaining, budget, slots);
    LargeShare(budget, slots, least);
    ShareTimesSlots(budget, slots);
    LargerTimes(share, least, n);
    ReserveStep(n);
    OneShareLess(budget, share, share * n, least * n, n, text);
  }

  lemma OneShareLess(budget: nat, share: nat, others: nat, needed: nat, n: nat, text: nat)
    requires n >= 1 && share >= LEAST_OUTPUT && text <= share + 100
    requires others + share <= budget && others >= needed == Reserve(n) + 100 * n
    ensures budget - text >= Reserve(n)
  {
    hide Reserve;
  }

  lemma ReserveStep(n: nat)
    ensures (100 * (n + 1) + 2000) * n == Reserve(n) + 100 * n
  {
  }

  lemma ShareOfMore(a: nat, b: nat, slots: nat)
    requires slots > 0 && a <= b
    ensures a / slots <= b / slots
  {
    var x, y := a / slots, b / slots;
    if x > y {
      LargerTimes(x, y + 1, slots);
    }
  }

  lemma LargeShare(budget: nat, slots: nat, least: nat)
    requires slots > 0 && slots * least <= budget
    ensures budget / slots >= least
  {
    var share := budget / slots;
    if share < least {
      LargerTimes(least, share + 1, slots);
    }
  }

  /** With less than a least share left for the last output, the sanitized text fits what was not yet spent on it. */
  lemma {:induction false} FrugalWhenExhausted(
    outputs: seq<ToolOutput>, i: nat, remaining: nat, budget: nat, printable: char -> bool, longest: nat)
    requires i < |outputs| && forall j | 0 <= j < |outputs| :: |outputs[j].output| <= longest
    requires |Omission(longest)| <= 100
    requires LeftForLast(outputs, i, remaining, printable) < LEAST_OUTPUT
    requires remaining <= budget && Reserve(|outputs| - i) <= budget
    ensures SanitizedTotal(outputs, i, Limits(outputs, i, remaining, printable), printable) <= budget
    decreases |outputs| - i
  {
    hide Chunk, Sanitized, Frame, Limits, Omission;
    var limit, next := SanitizedStep(outputs, i, remaining, printable);
    var text := |Sanitized(outputs[i].output, limit, printable)|;
    SanitizedIsShort(outputs[i].output, limit, printable, longest);
    if i + 1 == |outputs| {
      assert remaining / 1 == remaining && Reserve(1) == 2100;
      assert SanitizedTotal(outputs, i + 1, Limits(outputs, i + 1, next, printable), printable) == 0;
    } else {
      OneSlotLess(budget, remaining, |outputs| - i, text);
      FrugalWhenExhausted(outputs, i + 1, next, budget - text, printable, longest);
    }
  }

  lemma SanitizedIsShort(text: string, limit: nat, printable: char -> bool, longest: nat)
    requires |text| <= longest
    ensures |Sanitized(text, limit, printable)| <= limit + |Omission(longest)|
  {
    hide Omission;
    SanitizedKeeps(text, limit, printable);
    if |text| > limit {
      OmissionGrows(|text| - limit, longest);
    }
  }

  /**
   The fallback carries more than its total exactly when the last recent output's notice overruns what the labels
   and fences before it took, and then by what it overruns them. The lengths have fewer than 44 digits.
   */
  lemma {:induction false} FallbackOvershoot(outputs: seq<ToolOutput>, printable: char -> bool, longest: nat)
    requires forall i | 0 <= i < |outputs| :: |outputs[i].output| <= longest
    requires |Omission(longest)| <= 100
    ensures var recent := Recent(outputs);
            && (FallbackTotal(outputs, printable) > TOTAL_OUTPUT <==> LastNoticeOverruns(recent, printable))
            && (LastNoticeOverruns(recent, printable) ==>
                  var left := LeftForLast(recent, 0, TOTAL_OUTPUT, printable);
                  FallbackTotal(outputs, printable) - TOTAL_OUTPUT
                  == |Omission(|recent[|recent| - 1].output| - left)| - FramesBeforeLast(recent, 0))
    ensures FallbackTotal(outputs, printable) <= TOTAL_OUTPUT + |Omission(longest)|
  {
    hide Limits, SanitizedTotal, LeftForLast, FramesBeforeLast, Omission, Sanitized, ShowDecimal;
    var recent := Recent(outputs);
    if recent == [] {
      NothingSanitized(printable);
    } else {
      var last := recent[|recent| - 1].output;
      var left := LeftForLast(recent, 0, TOTAL_OUTPUT, printable);
      if left >= LEAST_OUTPUT {
        SpentIsConserved(recent, 0, TOTAL_OUTPUT, printable);
        SanitizedKeeps(last, left, printable);
        SanitizedIsShort(last, left, printable, longest);
      } else {
        LargerReserve(|recent|);
        FrugalWhenExhausted(recent, 0, TOTAL_OUTPUT, TOTAL_OUTPUT, printable, longest);
      }
    }
  }

  lemma NothingSanitized(printable: char -> bool)
    ensures FallbackTotal([], printable) == 0
  {
  }

  lemma LargerReserve(slots: nat)
    requires slots <= RECENT_OUTPUTS
    ensures Reserve(slots) <= TOTAL_OUTPUT
  {
    assert slots == 0 || slots == 1 || slots == 2 || slots == 3 || slots == 4 || slots == 5 || slots == 6;
  }

  /** With four outputs or more the fallback keeps within its total, notices included, whatever the labels. */
  lemma {:induction false} FourOutputsWithinTotal(outputs: seq<ToolOutput>, printable: char -> bool, longest: nat)
    requires forall i | 0 <= i < |outputs| :: |outputs[i].output| <= longest
    requires |outputs| >= 4 && |Omission(longest)| <= 81
    ensures FallbackTotal(outputs, printable) <= TOTAL_OUTPUT
  {
    hide FallbackTotal, LeftForLast, FramesBeforeLast, Omission, Frame, Chunk;
    var recent := Recent(outputs);
    FallbackOvershoot(outputs, printable, longest);
    FramesAtLeast(recent, 0);
    var last := recent[|recent| - 1];
    var left := LeftForLast(recent, 0, TOTAL_OUTPUT, printable);
    if |last.output| > left {
      OmissionGrows(|last.output| - left, longest);
    }
  }

  lemma {:induction false} FramesAtLeast(outputs: seq<ToolOutput>, i: nat)
    requires i < |outputs|
    ensures FramesBeforeLast(outputs, i) >= 27 * (|outputs| - i - 1)
    decreases |outputs| - i
  {
    hide Frame, Chunk;
    if i + 1 < |outputs| {
      ChunkIsFramed(i + 1, outputs[i], "");
      FramesAtLeast(outputs, i + 1);
    }
  }

  /** A single output stays within the total, notice included, exactly when it needs no notice. */
  lemma {:induction false} OneOutputWithinTotal(o: ToolOutput, printable: char -> bool)
    ensures FallbackTotal([o], printable) <= TOTAL_OUTPUT <==> |o.output| <= TOTAL_OUTPUT
  {
    hide ShowDecimal, Sanitized, Chunk;
    var limits := Limits([o], 0, TOTAL_OUTPUT, printable);
    assert limits == [TOTAL_OUTPUT];
    assert SanitizedTotal([o], 1, limits[1..], printable) == 0;
    SanitizedKeeps(o.output, TOTAL_OUTPUT, printable);
  }

  lemma EmptyOutputCosts(index: nat, limit: nat, printable: char -> bool)
    requires index < 10
    ensures var o := ToolOutput(None, "");
            Frame(index, o) == 27 && |Chunk(index, o, Sanitized(o.output, limit, printable))| == 27
  {
    ChunkIsFramed(index, ToolOutput(None, ""), Sanitized("", limit, printable));
  }

  lemma DigitsOfLongest()
    ensures DigitCount(TOTAL_OUTPUT + 1) == 5
  {
    assert DigitCount(16) == 2;
    assert DigitCount(1600) == 4;
  }

  lemma OmissionLength(omitted: nat)
    ensures |Omission(omitted)| == 57 + DigitCount(omitted)
  {
    hide ShowDecimal;
  }

  /**
   One, two or three outputs of which only the last says anything, and one character too much: its notice overruns
   the frames before it, and the fallback carries more than its total.
   */
  lemma {:induction false} OvershootHappens(count: nat, printable: char -> bool) returns (outputs: seq<ToolOutput>)
    requires 1 <= count <= 3
    ensures |outputs| == count && |outputs[count - 1].output| == TOTAL_OUTPUT + 1
    ensures forall i | 0 <= i < count - 1 :: outputs[i].output == ""
    ensures FallbackTotal(outputs, printable) > TOTAL_OUTPUT
  {
    hide FallbackTotal, LeftForLast, FramesBeforeLast, Omission, ShowDecimal;
    var text := seq(TOTAL_OUTPUT + 1, _ => 'a');
    var none, long := ToolOutput(None, ""), ToolOutput(None, text);
    outputs := if count == 1 then [long] else if count == 2 then [none, long] else [none, none, long];
    LastOfFew(outputs, none, long, printable);
    var left := LeftForLast(outputs, 0, TOTAL_OUTPUT, printable);
    OmissionLength(TOTAL_OUTPUT + 1);
    OmissionLength(|text| - left);
    DigitsGrow(0, |text| - left);
    DigitsOfLongest();
    FallbackOvershoot(outputs, printable, TOTAL_OUTPUT + 1);
  }

  lemma {:induction false} LastOfFew(outputs: seq<ToolOutput>, none: ToolOutput, long: ToolOutput, printable: char -> bool)
    requires none == ToolOutput(None, "")
    requires outputs == [long] || outputs == [none, long] || outputs == [none, none, long]
    ensures FramesBeforeLast(outputs, 0) == 27 * (|outputs| - 1)
    ensures LeftForLast(outputs, 0, TOTAL_OUTPUT, printable) == TOTAL_OUTPUT - 27 * (|outputs| - 1)
  {
    hide Chunk, Sanitized, Frame;
    EmptyOutputCosts(1, 8000, printable);
    EmptyOutputCosts(1, 5333, printable);
    EmptyOutputCosts(2, 7986, printable);
    if |outputs| == 3 {
      assert LeftForLast(outputs, 1, 15973, printable) == LeftForLast(outputs, 2, 15946, printable);
      assert FramesBeforeLast(outputs, 1) == 27 + FramesBeforeLast(outputs, 2);
    }
  }
}
