/** The editor as the program runs it, slice by slice on the line list, and the decision to rewrite the file. */
module DotenvSync {
  import opened Common
  import opened DotenvLines
  import opened DotenvBlocks
  import opened DotenvGrammar
  import opened DotenvScanner
  import opened DotenvEditor
  import opened DotenvRoundTrip

  /** Lines first to last give way to one entry. */
  datatype Replacement = Replacement(first: int, last: int, entry: string)

  function Matching(spans: seq<Span>, key: string): seq<Span> {
    if spans == [] then []
    else (if spans[0].key == key then [spans[0]] else []) + Matching(spans[1..], key)
  }

  /** Where block j stands among the lines. */
  function SpanAt(bs: seq<Block>, j: nat, at: int): Span
    requires j < |bs| && bs[j].Assign?
  {
    var first := at + |Flatten(bs[..j])|;
    Span(bs[j].key, first, first + |LinesOf(bs[j])| - 1)
  }

  lemma SpansStep(bs: seq<Block>, at: int, key: string)
    requires bs != []
    ensures var rest := Spans(bs[1..], at + |LinesOf(bs[0])|);
            Matching(Spans(bs, at), key)
            == (if bs[0].Assign? && bs[0].key == key then [Span(key, at, at + |LinesOf(bs[0])| - 1)] else [])
               + Matching(rest, key)
  {
    var rest := Spans(bs[1..], at + |LinesOf(bs[0])|);
    if bs[0].Assign? {
      assert ([Span(bs[0].key, at, at + |LinesOf(bs[0])| - 1)] + rest)[1..] == rest;
    } else {
      assert [] + rest == rest && [] + Matching(rest, key) == Matching(rest, key);
    }
  }

  lemma {:induction false} MatchingCounts(bs: seq<Block>, at: int, key: string)
    ensures |Matching(Spans(bs, at), key)| == Occurrences(bs, key)
    decreases |bs|
  {
    hide Matching, Spans;
    if bs == [] {
      NoSpans(at, key);
    } else {
      SpansStep(bs, at, key);
      MatchingCounts(bs[1..], at + |LinesOf(bs[0])|, key);
    }
  }

  lemma NoSpans(at: int, key: string)
    ensures Matching(Spans([], at), key) == []
  {
  }

  /** A found span is the place of an assignment of that key. */
  lemma {:induction false} MatchingIsPlace(bs: seq<Block>, at: int, key: string) returns (j: nat)
    requires Occurrences(bs, key) > 0
    ensures j < |bs| && bs[j].Assign? && bs[j].key == key
    ensures |Matching(Spans(bs, at), key)| > 0 && Matching(Spans(bs, at), key)[0] == SpanAt(bs, j, at)
    decreases |bs|
  {
    hide Matching, Spans;
    SpansStep(bs, at, key);
    if bs[0].Assign? && bs[0].key == key {
      j := 0;
      NothingFlattens();
      assert bs[..0] == [];
    } else {
      var k := MatchingIsPlace(bs[1..], at + |LinesOf(bs[0])|, key);
      j := k + 1;
      assert bs[..j] == [bs[0]] + bs[1..][..k];
      FlattenAppend([bs[0]], bs[1..][..k]);
      FlattenOne(bs[0]);
    }
  }

  lemma {:induction false} OnlyPlace(bs: seq<Block>, key: string, i: nat, j: nat)
    requires Occurrences(bs, key) <= 1 && i < |bs| && j < |bs|
    requires bs[i].Assign? && bs[i].key == key && bs[j].Assign? && bs[j].key == key
    ensures i == j
    decreases |bs|
  {
    if i > 0 && j > 0 {
      OnlyPlace(bs[1..], key, i - 1, j - 1);
    } else if i != j {
      PlaceCounts(bs[1..], key, Max(i, j) - 1);
    }
  }

  lemma {:induction false} PlaceCounts(bs: seq<Block>, key: string, j: nat)
    requires j < |bs| && bs[j].Assign? && bs[j].key == key
    ensures Occurrences(bs, key) >= 1
    decreases |bs|
  {
    if j > 0 {
      PlaceCounts(bs[1..], key, j - 1);
    }
  }

  /** This replacement is for block j: its place, and the entry it is edited to. */
  predicate IsFor(r: Replacement, bs: seq<Block>, settings: seq<Setting>, j: nat) {
    && j < |bs| && Chosen(bs[j], settings) && LinesOf(bs[j]) != []
    && r.first == |Flatten(bs[..j])| && r.last == r.first + |LinesOf(bs[j])| - 1
    && LinesOf(EditBlock(bs[j], settings)) == [r.entry]
  }

  ghost predicate AllFor(rs: seq<Replacement>, where: seq<nat>, bs: seq<Block>, settings: seq<Setting>) {
    && |rs| == |where|
    && (forall k | 0 <= k < |rs| :: IsFor(rs[k], bs, settings, where[k]))
    && (forall k, l | 0 <= k < l < |where| :: where[k] != where[l])
  }

  lemma {:induction false} LaterStartsLater(bs: seq<Block>, i: nat, j: nat)
    requires i < j <= |bs| && LinesOf(bs[i]) != []
    ensures |Flatten(bs[..i])| < |Flatten(bs[..j])|
  {
    hide Flatten;
    assert bs[..j] == bs[..i] + ([bs[i]] + bs[i + 1..j]);
    FlattenAppend(bs[..i], [bs[i]] + bs[i + 1..j]);
    FlattenAppend([bs[i]], bs[i + 1..j]);
    FlattenOne(bs[i]);
  }

  method LastOf(rs: seq<Replacement>) returns (k: nat)
    requires rs != []
    ensures k < |rs| && forall i | 0 <= i < |rs| :: rs[i].first <= rs[k].first
  {
    k := 0;
    for i := 1 to |rs|
      invariant k < |rs| && forall j | 0 <= j < i :: rs[j].first <= rs[k].first
    {
      if rs[i].first > rs[k].first {
        k := i;
      }
    }
  }

  /** Half-edited lines: blocks before m as they were, the rest edited. */
  function Half(bs: seq<Block>, settings: seq<Setting>, m: nat): seq<string>
    requires m <= |bs|
  {
    Flatten(bs[..m]) + Flatten(Edited(bs, settings)[m..])
  }

  /** Replacing block j's slice, when nothing between j and m is chosen, moves the edited part down to j. */
  lemma {:induction false} SliceStep(bs: seq<Block>, settings: seq<Setting>, j: nat, m: nat, r: Replacement)
    requires j < m <= |bs| && IsFor(r, bs, settings, j)
    requires forall i | j < i < m :: !Chosen(bs[i], settings)
    ensures var lines := Half(bs, settings, m);
            0 <= r.first <= r.last < |lines| && lines[..r.first] + [r.entry] + lines[r.last + 1..] == Half(bs, settings, j)
  {
    hide Flatten, Chosen, EditBlock;
    var edited := Edited(bs, settings);
    var pre, mid, post := bs[..j], bs[j + 1..m], edited[m..];
    assert bs[..m] == pre + ([bs[j]] + mid);
    FlattenAppend(pre, [bs[j]] + mid);
    FlattenAppend([bs[j]], mid);
    FlattenOne(bs[j]);
    NotChosenStays(bs, settings, j + 1, m);
    assert edited[j..] == [edited[j]] + (mid + post);
    FlattenAppend([edited[j]], mid + post);
    FlattenAppend(mid, post);
    FlattenOne(edited[j]);
    Slices(Flatten(pre), LinesOf(bs[j]), Flatten(mid), Flatten(post), r.entry);
  }

  lemma Slices(a: seq<string>, b: seq<string>, c: seq<string>, d: seq<string>, entry: string)
    ensures var lines := (a + (b + c)) + d;
            lines[..|a|] + [entry] + lines[|a| + |b|..] == a + ([entry] + (c + d))
  {
    var lines := (a + (b + c)) + d;
    assert lines[..|a|] == a;
    assert lines[|a| + |b|..] == c + d;
  }

  lemma NotChosenStays(bs: seq<Block>, settings: seq<Setting>, i: nat, m: nat)
    requires i <= m <= |bs| && forall k | i <= k < m :: !Chosen(bs[k], settings)
    ensures Edited(bs, settings)[i..m] == bs[i..m]
  {
    hide Chosen;
    var edited := Edited(bs, settings);
    forall k | 0 <= k < m - i ensures edited[i..m][k] == bs[i..m][k] {
      assert edited[i + k] == EditBlock(bs[i + k], settings);
    }
  }

  lemma HalfBegins(bs: seq<Block>, settings: seq<Setting>)
    ensures Half(bs, settings, |bs|) == Flatten(bs)
  {
    NothingFlattens();
    assert bs[..|bs|] == bs && Edited(bs, settings)[|bs|..] == [];
  }

  lemma HalfEnds(bs: seq<Block>, settings: seq<Setting>, m: nat)
    requires m <= |bs| && forall k | 0 <= k < m :: !Chosen(bs[k], settings)
    ensures Half(bs, settings, m) == Flatten(Edited(bs, settings))
  {
    hide Chosen, Flatten;
    NotChosenStays(bs, settings, 0, m);
    var edited := Edited(bs, settings);
    assert edited == edited[..m] + edited[m..] && edited[0..m] == edited[..m] && bs[0..m] == bs[..m];
    FlattenAppend(edited[..m], edited[m..]);
  }

  /** Replaces the slices from the last to the first, so that no replacement moves one still to come. */
  method ReplaceAll(lines: seq<string>, rs: seq<Replacement>, ghost where: seq<nat>, ghost bs: seq<Block>,
                    ghost settings: seq<Setting>)
    returns (out: seq<string>)
    requires lines == Flatten(bs) && AllFor(rs, where, bs, settings)
    requires forall j | 0 <= j < |bs| && Chosen(bs[j], settings) :: j in where
    ensures out == Flatten(Edited(bs, settings))
  {
    hide Flatten, Chosen, Edited, Half, IsFor;
    out := lines;
    var todo := rs;
    ghost var places: seq<nat>, m: nat := where, |bs|;
    HalfBegins(bs, settings);
    PlacesInside(rs, where, bs, settings);
    while todo != []
      invariant m <= |bs| && out == Half(bs, settings, m)
      invariant AllFor(todo, places, bs, settings) && forall k | 0 <= k < |places| :: places[k] < m
      invariant forall j | 0 <= j < m && Chosen(bs[j], settings) :: j in places
      decreases |todo|
    {
      var k := LastOf(todo);
      ghost var j: nat := places[k];
      forall i: nat | j < i < m ensures !Chosen(bs[i], settings) {
        if Chosen(bs[i], settings) {
          var l :| 0 <= l < |places| && places[l] == i;
          LaterIsGreater(todo[k], todo[l], bs, settings, j, i);
        }
      }
      SliceStep(bs, settings, j, m, todo[k]);
      out := out[..todo[k].first] + [todo[k].entry] + out[todo[k].last + 1..];
      forall l | 0 <= l < |places| && l != k ensures places[l] < j {
        if places[l] > j {
          LaterIsGreater(todo[k], todo[l], bs, settings, j, places[l]);
        }
      }
      ghost var others: seq<nat> := places[..k] + places[k + 1..];
      forall i | 0 <= i < j && Chosen(bs[i], settings) ensures i in others {
        var l :| 0 <= l < |places| && places[l] == i;
        assert others[if l < k then l else l - 1] == i;
      }
      m, places, todo := j, others, todo[..k] + todo[k + 1..];
    }
    HalfEnds(bs, settings, m);
  }

  lemma PlacesInside(rs: seq<Replacement>, where: seq<nat>, bs: seq<Block>, settings: seq<Setting>)
    requires AllFor(rs, where, bs, settings)
    ensures forall k | 0 <= k < |where| :: where[k] < |bs|
  {
    hide Chosen, Flatten;
    forall k | 0 <= k < |where| ensures where[k] < |bs| {
      assert IsFor(rs[k], bs, settings, where[k]);
    }
  }

  lemma LaterIsGreater(r: Replacement, s: Replacement, bs: seq<Block>, settings: seq<Setting>, j: nat, i: nat)
    requires IsFor(r, bs, settings, j) && IsFor(s, bs, settings, i) && j < i
    ensures r.first < s.first
  {
    hide Chosen, Flatten;
    LaterStartsLater(bs, j, i);
  }

  predicate Assigns(bs: seq<Block>, j: nat, key: string) {
    j < |bs| && bs[j].Assign? && bs[j].key == key
  }

  predicate AssignsOneOf(bs: seq<Block>, j: nat, settings: seq<Setting>, n: nat)
    requires n <= |settings|
  {
    exists i :: 0 <= i < n && Assigns(bs, j, settings[i].key)
  }

  /** The replacements are those of the first n settings' assignments, each once. */
  ghost predicate Planned(rs: seq<Replacement>, where: seq<nat>, bs: seq<Block>, settings: seq<Setting>, n: nat)
    requires n <= |settings|
  {
    && AllFor(rs, where, bs, settings)
    && (forall k | 0 <= k < |where| :: AssignsOneOf(bs, where[k], settings, n))
    && (forall i, j: nat | 0 <= i < n && Assigns(bs, j, settings[i].key) :: j in where)
  }

  lemma OneMoreSetting(bs: seq<Block>, j: nat, settings: seq<Setting>, n: nat)
    requires n < |settings| && (AssignsOneOf(bs, j, settings, n) || Assigns(bs, j, settings[n].key))
    ensures AssignsOneOf(bs, j, settings, n + 1)
  {
    hide Assigns;
    if AssignsOneOf(bs, j, settings, n) {
      var i :| 0 <= i < n && Assigns(bs, j, settings[i].key);
    }
  }

  lemma {:induction false} PlanStep(rs: seq<Replacement>, where: seq<nat>, bs: seq<Block>, settings: seq<Setting>, n: nat,
                                    r: Replacement, j: nat)
    requires n < |settings| && Distinct(settings) && Planned(rs, where, bs, settings, n)
    requires IsFor(r, bs, settings, j) && Assigns(bs, j, settings[n].key) && Occurrences(bs, settings[n].key) <= 1
    ensures Planned(rs + [r], where + [j], bs, settings, n + 1)
  {
    hide IsFor, Occurrences, AssignsOneOf;
    var where' := where + [j];
    forall k | 0 <= k < |where| ensures where[k] != j {
      KeysDiffer(bs, where[k], settings, n, j);
    }
    forall k | 0 <= k < |where'| ensures AssignsOneOf(bs, where'[k], settings, n + 1) {
      OneMoreSetting(bs, where'[k], settings, n);
    }
    forall i, l: nat | 0 <= i < n + 1 && Assigns(bs, l, settings[i].key) ensures l in where' {
      if i == n {
        OnlyPlace(bs, settings[n].key, l, j);
        assert where'[|where|] == l;
      } else {
        assert l in where;
      }
    }
  }

  lemma KeysDiffer(bs: seq<Block>, l: nat, settings: seq<Setting>, n: nat, j: nat)
    requires n < |settings| && Distinct(settings)
    requires AssignsOneOf(bs, l, settings, n) && Assigns(bs, j, settings[n].key)
    ensures l != j
  {
    var i :| 0 <= i < n && Assigns(bs, l, settings[i].key);
    assert settings[i].key != settings[n].key;
  }

  /** A setting with no assignment adds nothing to the replacements. */
  lemma PlanSkip(rs: seq<Replacement>, where: seq<nat>, bs: seq<Block>, settings: seq<Setting>, n: nat)
    requires n < |settings| && Planned(rs, where, bs, settings, n) && Occurrences(bs, settings[n].key) == 0
    ensures Planned(rs, where, bs, settings, n + 1)
  {
    hide IsFor, Occurrences, AssignsOneOf;
    forall i, j: nat | 0 <= i < n + 1 && Assigns(bs, j, settings[i].key) ensures j in where {
      if i == n {
        PlaceCounts(bs, settings[n].key, j);
      }
    }
    forall k | 0 <= k < |where| ensures AssignsOneOf(bs, where[k], settings, n + 1) {
      OneMoreSetting(bs, where[k], settings, n);
    }
  }

  lemma PlaceIsFor(bs: seq<Block>, settings: seq<Setting>, n: nat, j: nat)
    requires n < |settings| && Distinct(settings)
    requires Assigns(bs, j, settings[n].key) && LinesOf(bs[j]) != []
    ensures IsFor(Replacement(SpanAt(bs, j, 0).first, SpanAt(bs, j, 0).last, Entry(settings[n])), bs, settings, j)
  {
    hide Flatten, Entry, Lookup;
    LookupIs(settings, n);
  }

  lemma PlannedCovers(rs: seq<Replacement>, where: seq<nat>, bs: seq<Block>, settings: seq<Setting>)
    requires Planned(rs, where, bs, settings, |settings|)
    ensures forall j | 0 <= j < |bs| && Chosen(bs[j], settings) :: j in where
  {
    hide IsFor, Lookup;
    forall j | 0 <= j < |bs| && Chosen(bs[j], settings) ensures j in where {
      LookupFinds(settings, bs[j].key);
      var i :| 0 <= i < |settings| && settings[i] == Lookup(settings, bs[j].key).value;
      assert Assigns(bs, j, settings[i].key);
    }
  }

  lemma MissingStep(bs: seq<Block>, settings: seq<Setting>)
    requires settings != []
    ensures Flatten(Missing(bs, settings)) ==
            (if Occurrences(bs, settings[0].key) == 0 then [Entry(settings[0])] else []) + Flatten(Missing(bs, settings[1..]))
  {
    hide Entry, Occurrences;
    var rest := Missing(bs, settings[1..]);
    if Occurrences(bs, settings[0].key) == 0 {
      assert ([Assign(settings[0].key, [Entry(settings[0])])] + rest)[1..] == rest;
    } else {
      assert [] + rest == rest && [] + Flatten(rest) == Flatten(rest);
    }
  }

  lemma MissingEmpty(bs: seq<Block>, settings: seq<Setting>)
    ensures Flatten(Missing(bs, settings)) == [] <==> Missing(bs, settings) == []
  {
    hide Entry, Occurrences;
    NothingFlattens();
    if Missing(bs, settings) != [] {
      MissingAre(bs, settings);
      assert Missing(bs, settings)[0] in Missing(bs, settings);
    }
  }

  /** The setting cannot be made in a text of these blocks. */
  predicate Refused(s: Setting, bs: seq<Block>) {
    !Safe(s.value) || Occurrences(bs, s.key) > 1
  }

  /** The edit is refused for the first setting that cannot be made, or because the text does not fall into blocks. */
  lemma {:induction false} SelectedMeans(content: string, settings: seq<Setting>)
    ensures var r := Selected(content, settings);
            && (r == Err(Unterminated) <==> forall bs :: !FallsInto(Split(content), bs))
            && forall bs | FallsInto(Split(content), bs) ::
                 && (r.Ok? <==> forall i | 0 <= i < |settings| :: !Refused(settings[i], bs))
                 && (r.Err? ==> exists i ::
                       && 0 <= i < |settings| && Refused(settings[i], bs) && (forall j | 0 <= j < i :: !Refused(settings[j], bs))
                       && r.error == if Safe(settings[i].value) then Duplicate(settings[i].key) else Unsafe(settings[i].key))
  {
    hide Blocks, FallsInto, Written, Problem, Safe, Occurrences;
    FallsExactly(Split(content));
    var bs := Blocks(Split(content));
    if bs.Some? {
      assert FallsInto(Split(content), bs.value);
      ProblemIsFirst(bs.value, settings);
    }
  }

  method SelectedEnvironment(content: string, settings: seq<Setting>) returns (r: Result<string, Error>)
    requires Distinct(settings)
    ensures r == Selected(content, settings)
    ensures r == Err(Unterminated) <==> forall bs :: !FallsInto(Split(content), bs)
    ensures forall bs | FallsInto(Split(content), bs) ::
              && (r.Ok? <==> forall i | 0 <= i < |settings| :: !Refused(settings[i], bs))
              && (r.Err? ==> exists i ::
                    && 0 <= i < |settings| && Refused(settings[i], bs) && (forall j | 0 <= j < i :: !Refused(settings[j], bs))
                    && r.error == if Safe(settings[i].value) then Duplicate(settings[i].key) else Unsafe(settings[i].key))
  {
    r := EditText(content, settings);
    SelectedMeans(content, settings);
  }

  /** The plan, the slice replacements and the additions, as the program makes them. */
  method EditText(content: string, settings: seq<Setting>) returns (r: Result<string, Error>)
    requires Distinct(settings)
    ensures r == Selected(content, settings)
  {
    hide Blocks, Split, Flatten, Occurrences, Spans, Matching, Join, Missing, Planned, IsFor, Entry, Edited, Solid;
    var lines := Split(content);
    var found := EnvironmentAssignments(lines);
    if found.None? {
      return Err(Unterminated);
    }
    ghost var bs := Blocks(lines).value;
    BlocksKeepLines(lines);
    var replacements: seq<Replacement>, additions: seq<string> := [], [];
    ghost var where: seq<nat> := [];
    PlanNothing(bs, settings);
    assert settings[0..] == settings && [] + Flatten(Missing(bs, settings)) == Flatten(Missing(bs, settings));
    var i := 0;
    while i < |settings|
      invariant 0 <= i <= |settings|
      invariant Problem(bs, settings) == Problem(bs, settings[i..])
      invariant additions + Flatten(Missing(bs, settings[i..])) == Flatten(Missing(bs, settings))
      invariant Planned(replacements, where, bs, settings, i)
    {
      var s := settings[i];
      assert settings[i..][0] == s && settings[i..][1..] == settings[i + 1..];
      if !Safe(s.value) {
        return Err(Unsafe(s.key));
      }
      var positions := Matching(found.value, s.key);
      MatchingCounts(bs, 0, s.key);
      if |positions| > 1 {
        return Err(Duplicate(s.key));
      }
      MissingStep(bs, settings[i..]);
      if |positions| == 1 {
        ghost var j := MatchingIsPlace(bs, 0, s.key);
        SolidHasLines(bs[j]);
        PlaceIsFor(bs, settings, i, j);
        var replacement := Replacement(positions[0].first, positions[0].last, Entry(s));
        PlanStep(replacements, where, bs, settings, i, replacement, j);
        replacements, where := replacements + [replacement], where + [j];
        assert [] + Flatten(Missing(bs, settings[i + 1..])) == Flatten(Missing(bs, settings[i + 1..]));
      } else {
        PlanSkip(replacements, where, bs, settings, i);
        Reassociate(additions, [Entry(s)], Flatten(Missing(bs, settings[i + 1..])));
        additions := additions + [Entry(s)];
      }
      i := i + 1;
    }
    NoMoreMissing(bs, settings[i..]);
    assert additions + [] == additions;
    PlannedCovers(replacements, where, bs, settings);
    PlannedIsFor(replacements, where, bs, settings);
    lines := ReplaceAll(lines, replacements, where, bs, settings);
    MissingEmpty(bs, settings);
    if additions != [] {
      JoinEnding(lines, additions);
      if lines != [] && Ending(lines) != "" {
        lines := lines[..|lines| - 1] + [lines[|lines| - 1] + "\n"];
      }
      lines := lines + additions;
    }
    return Ok(Join(lines));
  }

  lemma PlanNothing(bs: seq<Block>, settings: seq<Setting>)
    ensures Planned([], [], bs, settings, 0)
  {
  }

  lemma PlannedIsFor(rs: seq<Replacement>, where: seq<nat>, bs: seq<Block>, settings: seq<Setting>)
    requires Planned(rs, where, bs, settings, |settings|)
    ensures AllFor(rs, where, bs, settings)
  {
  }

  lemma NoMoreMissing(bs: seq<Block>, settings: seq<Setting>)
    requires settings == []
    ensures Flatten(Missing(bs, settings)) == [] && Problem(bs, settings).None?
  {
  }

  lemma JoinEnding(lines: seq<string>, more: seq<string>)
    ensures var ended := if lines != [] && Ending(lines) != "" then LastNewline(lines) else lines;
            Join(ended + more) == Join(lines) + Ending(lines) + Join(more)
  {
    hide Join;
    var ended := if lines != [] && Ending(lines) != "" then LastNewline(lines) else lines;
    JoinAppend(ended, more);
    if lines != [] && Ending(lines) != "" {
      var n := |lines| - 1;
      assert lines == lines[..n] + [lines[n]];
      JoinAppend(lines[..n], [lines[n]]);
      JoinAppend(lines[..n], [lines[n] + "\n"]);
      JoinOne(lines[n]);
      JoinOne(lines[n] + "\n");
    } else {
      assert Join(lines) + "" == Join(lines);
    }
  }

  // ---- The decision to rewrite ----

  const IMAGE := "IMAGE_TAG"
  const CONTROLLER := "CODE_INTERPRETER_IMAGE_TAG"

  function Tags(image: string, controller: string): seq<Setting> {
    [Setting(IMAGE, image), Setting(CONTROLLER, controller)]
  }

  lemma TagsAreKeys(image: string, controller: string)
    ensures Distinct(Tags(image, controller)) && KeyOk(IMAGE) && KeyOk(CONTROLLER)
  {
    assert IMAGE[0] != CONTROLLER[0];
    KeyCharsAppend("IMAGE", "_TAG");
    KeyCharsAppend("CODE", "_INTER");
    KeyCharsAppend("CODE" + "_INTER", "PRETER");
    KeyCharsAppend("CODE" + "_INTER" + "PRETER", "_IMAGE");
    KeyCharsAppend("CODE" + "_INTER" + "PRETER" + "_IMAGE", "_TAG");
    assert IMAGE == "IMAGE" + "_TAG";
    assert CONTROLLER == "CODE" + "_INTER" + "PRETER" + "_IMAGE" + "_TAG";
  }

  lemma KeyCharsAppend(a: string, b: string)
    requires forall i | 0 <= i < |a| :: KeyChar(a[i])
    requires forall i | 0 <= i < |b| :: KeyChar(b[i])
    ensures forall i | 0 <= i < |a + b| :: KeyChar((a + b)[i])
  {
  }

  /** Each tag is assigned exactly once, on a line of its own. */
  predicate HoldsTags(text: string, image: string, controller: string) {
    var bs := Blocks(Split(text));
    && bs.Some? && Occurrences(bs.value, "IMAGE_TAG") == 1 && Occurrences(bs.value, "CODE_INTERPRETER_IMAGE_TAG") == 1
    && Assign("IMAGE_TAG", ["IMAGE_TAG=" + image + "\n"]) in bs.value
    && Assign("CODE_INTERPRETER_IMAGE_TAG", ["CODE_INTERPRETER_IMAGE_TAG=" + controller + "\n"]) in bs.value
  }

  lemma TagEntries(image: string, controller: string)
    ensures Entry(Setting("IMAGE_TAG", image)) == "IMAGE_TAG=" + image + "\n"
    ensures Entry(Setting("CODE_INTERPRETER_IMAGE_TAG", controller)) == "CODE_INTERPRETER_IMAGE_TAG=" + controller + "\n"
  {
    assert "IMAGE_TAG" + "=" == "IMAGE_TAG=" && "CODE_INTERPRETER_IMAGE_TAG" + "=" == "CODE_INTERPRETER_IMAGE_TAG=";
  }

  lemma SyncedHoldsTags(content: string, image: string, controller: string)
    ensures var r := Selected(content, Tags(image, controller));
            r.Ok? ==> HoldsTags(r.value, image, controller)
  {
    hide Selected, Blocks, Split, Occurrences, Entry, KeyOk, HeadOf;
    TagEntries(image, controller);
    var tags := Tags(image, controller);
    TagsAreKeys(image, controller);
    if Selected(content, tags).Ok? {
      SelectedIsSafe(content, tags);
      SettingsReadBack(content, tags, 0);
      SettingsReadBack(content, tags, 1);
    }
  }

  /** Brings an existing file's tags up to date; written is the new content, when the file is rewritten at all. */
  method SyncExisting(content: string, image: string, controller: string)
    returns (r: Result<Option<string>, Error>)
    ensures r.Ok? <==> Selected(content, Tags(image, controller)).Ok?
    ensures r.Ok? && r.value.Some? ==> Ok(r.value.value) == Selected(content, Tags(image, controller))
    ensures r.Ok? && r.value.None? ==> Selected(content, Tags(image, controller)) == Ok(content)
    ensures r.Ok? && r.value.Some? ==> r.value.value != content
    ensures r.Err? ==> Selected(content, Tags(image, controller)) == Err(r.error)
    ensures r.Ok? ==> HoldsTags(if r.value.Some? then r.value.value else content, image, controller)
  {
    hide Selected, HoldsTags;
    TagsAreKeys(image, controller);
    SyncedHoldsTags(content, image, controller);
    var updated := SelectedEnvironment(content, Tags(image, controller));
    if updated.Err? {
      return Err(updated.error);
    }
    if updated.value != content {
      return Ok(Some(updated.value));
    }
    return Ok(None);
  }

  lemma SelectedIsSafe(content: string, settings: seq<Setting>)
    requires Selected(content, settings).Ok?
    ensures forall i | 0 <= i < |settings| :: Safe(settings[i].value)
  {
    hide Blocks, Split, Written;
    forall i | 0 <= i < |settings| ensures Safe(settings[i].value) {
      NoProblem(Blocks(Split(content)).value, settings, i);
    }
  }

  /** A second synchronization with the same tags writes nothing. */
  method SyncTwice(content: string, image: string, controller: string) returns (second: Option<string>)
    requires Selected(content, Tags(image, controller)).Ok?
    ensures second.None?
  {
    hide Selected;
    TagsAreKeys(image, controller);
    SelectedIsSafe(content, Tags(image, controller));
    var first := SyncExisting(content, image, controller);
    var now := if first.value.Some? then first.value.value else content;
    WritingIsIdempotent(content, Tags(image, controller));
    var again := SyncExisting(now, image, controller);
    second := again.value;
  }
}
