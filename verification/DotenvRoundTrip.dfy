/** What a written environment promises: each setting once, everything else kept, and nothing left to change. */
module DotenvRoundTrip {
  import opened Common
  import opened DotenvLines
  import opened DotenvBlocks
  import opened DotenvEditor

  lemma {:induction false} OccurrencesAppend(a: seq<Block>, b: seq<Block>, key: string)
    ensures Occurrences(a + b, key) == Occurrences(a, key) + Occurrences(b, key)
    decreases |a|
  {
    if a == [] {
      assert a + b == b;
    } else {
      assert (a + b)[1..] == a[1..] + b;
      OccurrencesAppend(a[1..], b, key);
    }
  }

  lemma {:induction false} EditedOccurrences(bs: seq<Block>, settings: seq<Setting>, key: string)
    ensures Occurrences(Edited(bs, settings), key) == Occurrences(bs, key)
    decreases |bs|
  {
    hide Lookup, Entry;
    if bs != [] {
      assert Edited(bs, settings)[1..] == Edited(bs[1..], settings);
      EditedOccurrences(bs[1..], settings, key);
    }
  }

  lemma {:induction false} MissingOccurrences(bs: seq<Block>, settings: seq<Setting>, i: nat)
    requires Distinct(settings) && i < |settings|
    ensures Occurrences(Missing(bs, settings), settings[i].key)
            == if Occurrences(bs, settings[i].key) == 0 then 1 else 0
    ensures Occurrences(bs, settings[i].key) == 0
            ==> Assign(settings[i].key, [Entry(settings[i])]) in Missing(bs, settings)
    decreases |settings|
  {
    hide Entry;
    var key := settings[i].key;
    var first := if Occurrences(bs, settings[0].key) == 0 then [Assign(settings[0].key, [Entry(settings[0])])] else [];
    OccurrencesAppend(first, Missing(bs, settings[1..]), key);
    assert Occurrences(first[..], key) == if first != [] && settings[0].key == key then 1 else 0 by {
      if first != [] {
        assert first[1..] == [];
      }
    }
    assert Distinct(settings[1..]);
    if i == 0 {
      OtherKeysMissing(bs, settings[1..], key);
    } else {
      assert settings[0].key != key;
      MissingOccurrences(bs, settings[1..], i - 1);
    }
  }

  lemma {:induction false} OtherKeysMissing(bs: seq<Block>, settings: seq<Setting>, key: string)
    requires forall i | 0 <= i < |settings| :: settings[i].key != key
    ensures Occurrences(Missing(bs, settings), key) == 0
    decreases |settings|
  {
    hide Entry;
    if settings != [] {
      OtherKeysMissing(bs, settings[1..], key);
      var rest := Missing(bs, settings[1..]);
      if Occurrences(bs, settings[0].key) == 0 {
        assert ([Assign(settings[0].key, [Entry(settings[0])])] + rest)[1..] == rest;
      } else {
        assert [] + rest == rest;
      }
    }
  }

  lemma OccurrencesOne(b: Block, key: string)
    ensures Occurrences([b], key) == if b.Assign? && b.key == key then 1 else 0
  {
    assert [b][1..] == [];
  }

  lemma NewlinedOccurrences(bs: seq<Block>, key: string)
    requires bs != [] && LinesOf(bs[|bs| - 1]) != []
    ensures Occurrences(Newlined(bs), key) == Occurrences(bs, key)
  {
    hide Occurrences, Ending, Ended, LastNewline;
    var n := |bs| - 1;
    OccurrencesAppend(bs, [Line("\n")], key);
    OccurrencesOne(Line("\n"), key);
    OccurrencesAppend(bs[..n], [bs[n]], key);
    OccurrencesOne(bs[n], key);
    OccurrencesAppend(bs[..n], [BlockNewline(bs[n])], key);
    OccurrencesOne(BlockNewline(bs[n]), key);
    assert bs == bs[..n] + [bs[n]];
  }

  lemma {:induction false} OutcomeOccurrences(bs: seq<Block>, settings: seq<Setting>, i: nat)
    requires AllSolid(bs) && SettingsOk(settings) && i < |settings|
    ensures Occurrences(Outcome(bs, settings), settings[i].key) == Max(1, Occurrences(bs, settings[i].key))
  {
    hide Occurrences, Newlined, Missing, Solid;
    var key := settings[i].key;
    var edited, more := Edited(bs, settings), Missing(bs, settings);
    EditedOccurrences(bs, settings, key);
    MissingOccurrences(bs, settings, i);
    if more != [] && edited != [] {
      EditIsSolid(bs[|bs| - 1], settings);
      SolidHasLines(edited[|edited| - 1]);
      NewlinedOccurrences(edited, key);
      OccurrencesAppend(Newlined(edited), more, key);
    } else {
      OccurrencesAppend(edited, more, key);
    }
  }

  lemma {:induction false} OccurrenceAt(bs: seq<Block>, key: string) returns (j: nat)
    requires Occurrences(bs, key) > 0
    ensures j < |bs| && bs[j].Assign? && bs[j].key == key
    decreases |bs|
  {
    if bs[0].Assign? && bs[0].key == key {
      j := 0;
    } else {
      var k := OccurrenceAt(bs[1..], key);
      j := k + 1;
    }
  }

  /** A chosen block reads exactly as its setting is written, so ending the last line never touches it. */
  predicate Current(b: Block, settings: seq<Setting>) {
    Chosen(b, settings) ==> b == Assign(b.key, [Entry(Lookup(settings, b.key).value)])
  }

  lemma EntryEnds(s: Setting)
    ensures Ending([Entry(s)]) == ""
  {
  }

  lemma NewlinedKeeps(bs: seq<Block>, settings: seq<Setting>)
    requires bs != [] && LinesOf(bs[|bs| - 1]) != [] && forall i | 0 <= i < |bs| :: Current(bs[i], settings)
    ensures forall i | 0 <= i < |Newlined(bs)| :: Current(Newlined(bs)[i], settings)
    ensures forall i | 0 <= i < |bs| && Chosen(bs[i], settings) :: Newlined(bs)[i] == bs[i]
  {
    hide Ending, Lookup, Entry;
    var last := bs[|bs| - 1];
    if Chosen(last, settings) {
      EntryEnds(Lookup(settings, last.key).value);
      assert Current(last, settings);
    }
  }

  lemma EditedIsCurrent(b: Block, settings: seq<Setting>)
    ensures Current(EditBlock(b, settings), settings)
  {
  }

  lemma {:induction false} OutcomeIsCurrent(bs: seq<Block>, settings: seq<Setting>)
    requires AllSolid(bs) && SettingsOk(settings)
    ensures forall i | 0 <= i < |Outcome(bs, settings)| :: Current(Outcome(bs, settings)[i], settings)
    ensures forall i | 0 <= i < |bs| && Chosen(bs[i], settings) ::
              i < |Outcome(bs, settings)| && Outcome(bs, settings)[i] == EditBlock(bs[i], settings)
  {
    hide Current, Solid, Newlined, Missing, Lookup, Entry;
    var edited, more := Edited(bs, settings), Missing(bs, settings);
    forall i | 0 <= i < |edited| ensures Current(edited[i], settings) {
      EditedIsCurrent(bs[i], settings);
    }
    forall b | b in more ensures Current(b, settings) {
      MissingIsCurrent(bs, settings, b);
    }
    if more != [] && edited != [] {
      EditIsSolid(bs[|bs| - 1], settings);
      SolidHasLines(edited[|edited| - 1]);
      NewlinedKeeps(edited, settings);
      NewlinedIsLonger(edited);
    }
  }

  lemma NewlinedIsLonger(bs: seq<Block>)
    requires bs != [] && LinesOf(bs[|bs| - 1]) != []
    ensures |Newlined(bs)| >= |bs|
  {
  }

  lemma MissingIsCurrent(bs: seq<Block>, settings: seq<Setting>, b: Block)
    requires Distinct(settings) && b in Missing(bs, settings)
    ensures Current(b, settings)
  {
    hide Entry, Lookup, Occurrences, Missing;
    MissingAre(bs, settings);
    var i :| 0 <= i < |settings| && b == Assign(settings[i].key, [Entry(settings[i])]);
    LookupIs(settings, i);
  }

  /** Each setting reads back as exactly one assignment, and that one is its entry. */
  lemma {:induction false} EachSettingOnce(bs: seq<Block>, settings: seq<Setting>, i: nat)
    requires AllSolid(bs) && SettingsOk(settings) && i < |settings| && Problem(bs, settings).None?
    ensures Occurrences(Outcome(bs, settings), settings[i].key) == 1
    ensures Assign(settings[i].key, [Entry(settings[i])]) in Outcome(bs, settings)
  {
    hide Solid, Newlined, Lookup, Entry, Outcome;
    NoProblem(bs, settings, i);
    OutcomeOccurrences(bs, settings, i);
    OutcomeIsCurrent(bs, settings);
    LookupIs(settings, i);
    var j := OccurrenceAt(Outcome(bs, settings), settings[i].key);
    assert Current(Outcome(bs, settings)[j], settings);
  }

  lemma {:induction false} NoProblem(bs: seq<Block>, settings: seq<Setting>, i: nat)
    requires i < |settings| && Problem(bs, settings).None?
    ensures Safe(settings[i].value) && Occurrences(bs, settings[i].key) <= 1
    decreases |settings|
  {
    if i > 0 {
      NoProblem(bs, settings[1..], i - 1);
    }
  }

  lemma {:induction false} ProblemIsNone(bs: seq<Block>, settings: seq<Setting>)
    requires forall i | 0 <= i < |settings| :: Safe(settings[i].value) && Occurrences(bs, settings[i].key) <= 1
    ensures Problem(bs, settings).None?
    decreases |settings|
  {
    hide Safe, Occurrences;
    if settings != [] {
      ProblemIsNone(bs, settings[1..]);
    }
  }

  /** Nothing is missing any more, and editing again changes no block. */
  lemma {:induction false} MissingNothing(bs: seq<Block>, settings: seq<Setting>)
    requires forall i | 0 <= i < |settings| :: Occurrences(bs, settings[i].key) != 0
    ensures Missing(bs, settings) == []
    decreases |settings|
  {
    hide Occurrences;
    if settings != [] {
      MissingNothing(bs, settings[1..]);
    }
  }

  /** Applying the same settings to what was written writes the same text: there is nothing left to change. */
  lemma {:induction false} WritingIsIdempotent(content: string, settings: seq<Setting>)
    requires SettingsOk(settings) && Selected(content, settings).Ok?
    ensures Selected(Selected(content, settings).value, settings) == Selected(content, settings)
  {
    hide Solid, Split, Blocks, Join, Flatten, Occurrences, Outcome, Problem, Missing, Edited, Proper;
    var bs := Blocks(Split(content)).value;
    ReadBlocksAreSolid(content);
    WrittenReadsBack(bs, settings);
    var out := Outcome(bs, settings);
    forall i | 0 <= i < |settings| ensures Safe(settings[i].value) && Occurrences(out, settings[i].key) == 1 {
      EachSettingOnce(bs, settings, i);
    }
    ProblemIsNone(out, settings);
    MissingNothing(out, settings);
    OutcomeIsCurrent(bs, settings);
    EditingCurrent(out, settings);
  }

  lemma EditingCurrent(bs: seq<Block>, settings: seq<Setting>)
    requires forall i | 0 <= i < |bs| :: Current(bs[i], settings)
    ensures Edited(bs, settings) == bs
  {
    hide Lookup, Entry;
    forall i | 0 <= i < |bs| ensures EditBlock(bs[i], settings) == bs[i] {
      assert Current(bs[i], settings);
    }
  }

  lemma ReadBlocksAreSolid(content: string)
    requires Blocks(Split(content)).Some?
    ensures AllSolid(Blocks(Split(content)).value) && Proper(Flatten(Blocks(Split(content)).value))
    ensures Join(Flatten(Blocks(Split(content)).value)) == content
  {
    hide Blocks, Split, Join, Solid;
    SplitIsProper(content);
    JoinOfSplit(content);
    BlocksKeepLines(Split(content));
  }

  // ---- Everything else is kept ----

  /** The blocks no setting is about, in order. */
  function Others(bs: seq<Block>, settings: seq<Setting>): seq<Block> {
    if bs == [] then []
    else (if Chosen(bs[0], settings) then [] else [bs[0]]) + Others(bs[1..], settings)
  }

  lemma {:induction false} OthersAppend(a: seq<Block>, b: seq<Block>, settings: seq<Setting>)
    ensures Others(a + b, settings) == Others(a, settings) + Others(b, settings)
    decreases |a|
  {
    hide Chosen;
    if a == [] {
      assert a + b == b && [] + Others(b, settings) == Others(b, settings);
    } else {
      assert (a + b)[1..] == a[1..] + b;
      OthersAppend(a[1..], b, settings);
      Reassociate(if Chosen(a[0], settings) then [] else [a[0]], Others(a[1..], settings), Others(b, settings));
    }
  }

  lemma OthersOne(b: Block, settings: seq<Setting>)
    ensures Others([b], settings) == if Chosen(b, settings) then [] else [b]
  {
    hide Chosen;
    assert Others([b][1..], settings) == [];
  }

  lemma {:induction false} EditingKeepsOthers(bs: seq<Block>, settings: seq<Setting>)
    ensures Others(Edited(bs, settings), settings) == Others(bs, settings)
    decreases |bs|
  {
    hide Lookup, Entry;
    if bs != [] {
      assert Edited(bs, settings)[1..] == Edited(bs[1..], settings);
      EditingKeepsOthers(bs[1..], settings);
    }
  }

  lemma {:induction false} NoOthers(bs: seq<Block>, settings: seq<Setting>)
    requires forall b | b in bs :: Chosen(b, settings)
    ensures Others(bs, settings) == []
    decreases |bs|
  {
    hide Chosen;
    if bs != [] {
      NoOthers(bs[1..], settings);
    }
  }

  lemma MissingAreChosen(bs: seq<Block>, settings: seq<Setting>)
    requires Distinct(settings)
    ensures Others(Missing(bs, settings), settings) == []
  {
    hide Missing, Occurrences, Entry, Lookup;
    MissingAre(bs, settings);
    forall b | b in Missing(bs, settings) ensures Chosen(b, settings) {
      var i :| 0 <= i < |settings| && b == Assign(settings[i].key, [Entry(settings[i])]);
      LookupIs(settings, i);
    }
    NoOthers(Missing(bs, settings), settings);
  }

  function Text(bs: seq<Block>): string {
    Join(Flatten(bs))
  }

  lemma {:induction false} TextAppend(a: seq<Block>, b: seq<Block>)
    ensures Text(a + b) == Text(a) + Text(b)
  {
    FlattenAppend(a, b);
    JoinAppend(Flatten(a), Flatten(b));
  }

  lemma NewlineText(b: Block)
    requires LinesOf(b) != []
    ensures Text([BlockNewline(b)]) == Text([b]) + "\n" && Text([Line("\n")]) == "\n"
  {
    hide Join;
    FlattenOne(b);
    FlattenOne(BlockNewline(b));
    FlattenOne(Line("\n"));
    JoinOne("\n");
    var lines := LinesOf(b);
    var n := |lines| - 1;
    assert lines == lines[..n] + [lines[n]];
    JoinAppend(lines[..n], [lines[n]]);
    JoinAppend(lines[..n], [lines[n] + "\n"]);
    JoinOne(lines[n]);
    JoinOne(lines[n] + "\n");
  }

  /** Ending the last line adds to the text of the other blocks just what that line lacks. */
  lemma {:induction false} NewlinedKeepsOthers(bs: seq<Block>, settings: seq<Setting>)
    requires bs != [] && LinesOf(bs[|bs| - 1]) != [] && Current(bs[|bs| - 1], settings)
    ensures Text(Others(Newlined(bs), settings)) == Text(Others(bs, settings)) + Ending([LastLine(bs)])
  {
    hide Others, Lookup, Entry, Text, Ended, Ending;
    EndingIs([LastLine(bs)]);
    assert Text(Others(bs, settings)) + "" == Text(Others(bs, settings));
    var n := |bs| - 1;
    var last := bs[n];
    if Chosen(last, settings) {
      EntryEnds(Lookup(settings, last.key).value);
    }
    assert bs == bs[..n] + [last];
    OthersAppend(bs, [Line("\n")], settings);
    OthersAppend(bs[..n], [last], settings);
    OthersAppend(bs[..n], [BlockNewline(last)], settings);
    OthersOne(last, settings);
    OthersOne(BlockNewline(last), settings);
    OthersOne(Line("\n"), settings);
    NewlineText(last);
    TextAppend(Others(bs, settings), [Line("\n")]);
    TextAppend(Others(bs[..n], settings), [last]);
    TextAppend(Others(bs[..n], settings), [BlockNewline(last)]);
  }

  lemma EndingIs(lines: seq<string>)
    ensures Ending(lines) == "" || Ending(lines) == "\n"
  {
  }

  /** The newline an appended entry makes the text before it gain: an unended last line that is not itself replaced. */
  function Gained(content: string, bs: seq<Block>, settings: seq<Setting>): string {
    if Missing(bs, settings) != [] && bs != [] && !Chosen(bs[|bs| - 1], settings)
       && content != "" && content[|content| - 1] != '\n'
    then "\n" else ""
  }

  lemma {:induction false} LastCharacter(content: string, bs: seq<Block>)
    requires bs != [] && AllSolid(bs) && Proper(Flatten(bs)) && Text(bs) == content
    ensures LinesOf(bs[|bs| - 1]) != [] && content != ""
    ensures Ending([LastLine(bs)]) == if content[|content| - 1] == '\n' then "" else "\n"
  {
    hide Solid, Flatten, Join;
    SolidHasLines(bs[|bs| - 1]);
    LastLineEnds(bs);
    var lines := Flatten(bs);
    var n := |lines| - 1;
    assert OneLine(lines[n]);
    assert lines == lines[..n] + [lines[n]];
    JoinAppend(lines[..n], [lines[n]]);
    JoinOne(lines[n]);
  }

  /** What editing leaves of the last line to be ended. */
  lemma EditedEnding(bs: seq<Block>, settings: seq<Setting>)
    requires bs != [] && LinesOf(bs[|bs| - 1]) != []
    ensures var edited := Edited(bs, settings);
            && LinesOf(edited[|edited| - 1]) != []
            && Ending([LastLine(edited)]) == if Chosen(bs[|bs| - 1], settings) then "" else Ending([LastLine(bs)])
  {
    hide Lookup, Entry, Ending;
    var last := bs[|bs| - 1];
    if Chosen(last, settings) {
      EntryEnds(Lookup(settings, last.key).value);
    }
  }

  /**
   The text that is not about the settings, multiline values and comments included, keeps its characters and
   their order. It gains one newline, at its end, exactly when an entry is appended behind a last line that
   lacks it and is not itself replaced.
   */
  lemma {:induction false} OtherTextIsKept(content: string, settings: seq<Setting>)
    requires SettingsOk(settings) && Selected(content, settings).Ok?
    ensures var before := Blocks(Split(content));
            var after := Blocks(Split(Selected(content, settings).value));
            && before.Some? && after.Some? && Text(before.value) == content
            && Text(Others(after.value, settings))
               == Text(Others(before.value, settings)) + Gained(content, before.value, settings)
  {
    hide Solid, Split, Blocks, Others, Missing, Newlined, Problem, Proper, Lookup, Ending, Text, Chosen;
    var bs := Blocks(Split(content)).value;
    ReadBlocksAreSolid(content);
    TextIs(bs);
    WrittenReadsBack(bs, settings);
    var edited, more := Edited(bs, settings), Missing(bs, settings);
    EditingKeepsOthers(bs, settings);
    MissingAreChosen(bs, settings);
    assert Text(Others(bs, settings)) + "" == Text(Others(bs, settings));
    if more == [] || edited == [] {
      OthersAppend(edited, more, settings);
      assert Others(edited, settings) + [] == Others(edited, settings);
    } else {
      EditIsSolid(bs[|bs| - 1], settings);
      SolidHasLines(bs[|bs| - 1]);
      LastCharacter(content, bs);
      EditedEnding(bs, settings);
      EditedIsCurrent(bs[|bs| - 1], settings);
      NewlinedKeepsOthers(edited, settings);
      OthersAppend(Newlined(edited), more, settings);
      assert Others(Newlined(edited), settings) + [] == Others(Newlined(edited), settings);
    }
  }

  lemma TextIs(bs: seq<Block>)
    ensures Text(bs) == Join(Flatten(bs))
  {
  }

  /** Reading the written text finds exactly one assignment for each setting, with its value as written. */
  lemma {:induction false} SettingsReadBack(content: string, settings: seq<Setting>, i: nat)
    requires SettingsOk(settings) && Selected(content, settings).Ok? && i < |settings|
    ensures var after := Blocks(Split(Selected(content, settings).value));
            && after.Some? && Occurrences(after.value, settings[i].key) == 1
            && Assign(settings[i].key, [Entry(settings[i])]) in after.value
            && HeadOf(Entry(settings[i])) == Match(settings[i].key, settings[i].value + "\n")
  {
    hide Solid, Split, Blocks, Outcome, Written, Proper, HeadOf, Entry;
    var bs := Blocks(Split(content)).value;
    ReadBlocksAreSolid(content);
    WrittenReadsBack(bs, settings);
    EachSettingOnce(bs, settings, i);
    EntryReadsBack(settings[i]);
  }

  // ---- Where the settings stand ----

  /** These are the settings no block assigns, in their order. */
  predicate AreMissing(which: seq<nat>, bs: seq<Block>, settings: seq<Setting>) {
    && (forall p | 0 <= p < |which| :: which[p] < |settings| && Occurrences(bs, settings[which[p]].key) == 0)
    && (forall p, q | 0 <= p < q < |which| :: which[p] < which[q])
    && (forall j: nat | j < |settings| && Occurrences(bs, settings[j].key) == 0 :: j in which)
  }

  /** Blocks that assign these settings, one line each. */
  predicate AreEntries(blocks: seq<Block>, which: seq<nat>, settings: seq<Setting>) {
    && |blocks| == |which|
    && forall p | 0 <= p < |which| ::
         && which[p] < |settings|
         && blocks[p] == Assign(settings[which[p]].key,
                                [settings[which[p]].key + "=" + settings[which[p]].value + "\n"])
  }

  /** The settings after the first, numbered among all of them, and the first if it is missing. */
  function Renumbered(more: seq<nat>, first: bool): (which: seq<nat>)
    ensures |which| == |more| + (if first then 1 else 0)
  {
    (if first then [0] else []) + seq(|more|, i requires 0 <= i < |more| => more[i] + 1)
  }

  lemma RenumberedMissing(more: seq<nat>, bs: seq<Block>, first: Setting, rest: seq<Setting>)
    requires AreMissing(more, bs, rest)
    ensures AreMissing(Renumbered(more, Occurrences(bs, first.key) == 0), bs, [first] + rest)
  {
    hide Occurrences;
    var none := Occurrences(bs, first.key) == 0;
    var n := if none then 1 else 0;
    var which, settings := Renumbered(more, none), [first] + rest;
    forall p | 0 <= p < |which| ensures which[p] < |settings| && Occurrences(bs, settings[which[p]].key) == 0 {
      if p >= n {
        assert settings[which[p]] == rest[more[p - n]];
      }
    }
    forall j: nat | j < |settings| && Occurrences(bs, settings[j].key) == 0 ensures j in which {
      if j > 0 {
        assert rest[j - 1] == settings[j];
        var i :| 0 <= i < |more| && more[i] == j - 1;
        assert which[n + i] == j;
      }
    }
  }

  lemma RenumberedEntries(more: seq<nat>, blocks: seq<Block>, first: Setting, rest: seq<Setting>, none: bool)
    requires AreEntries(blocks, more, rest)
    ensures AreEntries((if none then [Assign(first.key, [Entry(first)])] else []) + blocks, Renumbered(more, none),
                       [first] + rest)
  {
    var which, settings := Renumbered(more, none), [first] + rest;
    var n := if none then 1 else 0;
    forall p | n <= p < |which| ensures which[p] < |settings| && settings[which[p]] == rest[more[p - n]] {
      assert which[p] == more[p - n] + 1;
    }
  }

  lemma {:induction false} MissingInOrder(bs: seq<Block>, settings: seq<Setting>) returns (which: seq<nat>)
    ensures AreMissing(which, bs, settings) && AreEntries(Missing(bs, settings), which, settings)
    decreases |settings|
  {
    which := [];
    if settings != [] {
      hide AreMissing, AreEntries;
      var more := MissingInOrder(bs, settings[1..]);
      which := Renumbered(more, Occurrences(bs, settings[0].key) == 0);
      RenumberedMissing(more, bs, settings[0], settings[1..]);
      RenumberedEntries(more, Missing(bs, settings[1..]), settings[0], settings[1..], Occurrences(bs, settings[0].key) == 0);
      assert [settings[0]] + settings[1..] == settings;
    }
  }

  /** Every assignment of a setting's key is the one line of that setting, at the place it had before. */
  predicate EditedInPlace(before: seq<Block>, after: seq<Block>, settings: seq<Setting>) {
    && |after| >= |before|
    && forall i, j | 0 <= i < |before| && 0 <= j < |settings| && before[i].Assign? && before[i].key == settings[j].key ::
         after[i] == Assign(settings[j].key, [settings[j].key + "=" + settings[j].value + "\n"])
  }

  /**
   An edited assignment keeps its place among the blocks and becomes one line; the settings that were missing are the
   last blocks, in the order in which they were given.
   */
  lemma {:induction false} SettingsStayInPlace(content: string, settings: seq<Setting>) returns (which: seq<nat>)
    requires SettingsOk(settings) && Selected(content, settings).Ok?
    ensures var before, after := Blocks(Split(content)), Blocks(Split(Selected(content, settings).value));
            && before.Some? && after.Some? && |after.value| >= |before.value| + |which|
            && EditedInPlace(before.value, after.value, settings) && AreMissing(which, before.value, settings)
            && AreEntries(after.value[|after.value| - |which|..], which, settings)
  {
    hide Solid, Split, Blocks, Outcome, Written, Proper, Problem, Occurrences, Missing, Lookup, AreMissing, AreEntries;
    var bs := Blocks(Split(content)).value;
    ReadBlocksAreSolid(content);
    WrittenReadsBack(bs, settings);
    OutcomeIsCurrent(bs, settings);
    OutcomeEnds(bs, settings);
    which := MissingInOrder(bs, settings);
    EntriesCount(Missing(bs, settings), which, settings);
    forall i, j | 0 <= i < |bs| && 0 <= j < |settings| && bs[i].Assign? && bs[i].key == settings[j].key
      ensures i < |Outcome(bs, settings)|
      ensures Outcome(bs, settings)[i] == Assign(settings[j].key, [settings[j].key + "=" + settings[j].value + "\n"])
    {
      LookupIs(settings, j);
      assert Chosen(bs[i], settings);
    }
  }

  lemma EntriesCount(blocks: seq<Block>, which: seq<nat>, settings: seq<Setting>)
    requires AreEntries(blocks, which, settings)
    ensures |blocks| == |which|
  {
  }

  lemma OutcomeEnds(bs: seq<Block>, settings: seq<Setting>)
    requires AllSolid(bs) && SettingsOk(settings)
    ensures var out, more := Outcome(bs, settings), Missing(bs, settings);
            |out| >= |bs| + |more| && out[|out| - |more|..] == more
  {
    hide Solid, Missing, Newlined, Lookup, Entry;
    var edited, more := Edited(bs, settings), Missing(bs, settings);
    if more != [] && edited != [] {
      EditIsSolid(bs[|bs| - 1], settings);
      SolidHasLines(edited[|edited| - 1]);
      NewlinedIsLonger(edited);
    }
  }

  // ---- When the edit is refused ----

  /** The first setting that cannot be made: its value is unsafe, or its key is assigned more than once. */
  lemma {:induction false} ProblemIsFirst(bs: seq<Block>, settings: seq<Setting>)
    ensures Problem(bs, settings).None? <==>
            forall i | 0 <= i < |settings| :: Safe(settings[i].value) && Occurrences(bs, settings[i].key) <= 1
    ensures Problem(bs, settings).Some? ==> exists i ::
              && 0 <= i < |settings|
              && (forall j | 0 <= j < i :: Safe(settings[j].value) && Occurrences(bs, settings[j].key) <= 1)
              && if !Safe(settings[i].value) then Problem(bs, settings) == Some(Unsafe(settings[i].key))
                 else Occurrences(bs, settings[i].key) > 1 && Problem(bs, settings) == Some(Duplicate(settings[i].key))
    decreases |settings|
  {
    hide Safe, Occurrences;
    if settings != [] {
      var s := settings[0];
      ProblemIsFirst(bs, settings[1..]);
      if Safe(s.value) && Occurrences(bs, s.key) <= 1 {
        assert forall i | 0 < i < |settings| :: settings[i] == settings[1..][i - 1];
        assert forall i | 0 <= i < |settings[1..]| :: settings[1..][i] == settings[i + 1];
        if Problem(bs, settings).Some? {
          var i :| 0 <= i < |settings[1..]|
                   && (forall j | 0 <= j < i :: Safe(settings[1..][j].value) && Occurrences(bs, settings[1..][j].key) <= 1)
                   && if !Safe(settings[1..][i].value) then Problem(bs, settings[1..]) == Some(Unsafe(settings[1..][i].key))
                      else Occurrences(bs, settings[1..][i].key) > 1
                           && Problem(bs, settings[1..]) == Some(Duplicate(settings[1..][i].key));
          assert settings[i + 1] == settings[1..][i];
        }
      }
    }
  }
}
