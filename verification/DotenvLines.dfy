/** Splitting a text into lines that keep their ends, as Python's splitlines does, and joining them again. */
module DotenvLines {

  predicate Boundary(c: char) {
    || c == '\n' || c == '\r' || c == '\U{0B}' || c == '\U{0C}' || '\U{1C}' <= c <= '\U{1E}'
    || c == '\U{85}' || c == '\U{2028}' || c == '\U{2029}'
  }

  /** The length of the first line, its end included; a carriage return takes a following newline with it. */
  function LineLength(s: string): (n: nat)
    requires s != ""
    ensures 0 < n <= |s|
  {
    if s[0] == '\r' && |s| > 1 && s[1] == '\n' then 2
    else if Boundary(s[0]) || |s| == 1 then 1
    else 1 + LineLength(s[1..])
  }

  function Split(s: string): seq<string> {
    if s == "" then [] else [s[..LineLength(s)]] + Split(s[LineLength(s)..])
  }

  function Join(lines: seq<string>): string {
    if lines == [] then "" else lines[0] + Join(lines[1..])
  }

  predicate OneLine(l: string) {
    l != "" && LineLength(l) == |l|
  }

  predicate Ended(l: string) {
    l != "" && Boundary(l[|l| - 1])
  }

  /** The two lines stay apart when they are joined. */
  predicate Apart(l: string, m: string) {
    Ended(l) && !(l[|l| - 1] == '\r' && m != "" && m[0] == '\n')
  }

  predicate Proper(lines: seq<string>) {
    && (forall i | 0 <= i < |lines| :: OneLine(lines[i]))
    && (forall i | 0 <= i < |lines| - 1 :: Apart(lines[i], lines[i + 1]))
  }

  lemma {:induction false} FirstLineStands(l: string, rest: string)
    requires OneLine(l) && (rest == "" || Apart(l, rest))
    ensures LineLength(l + rest) == |l|
    decreases |l|
  {
    if rest == "" {
      assert l + rest == l;
    } else if |l| > 1 && !(l[0] == '\r' && l[1] == '\n') {
      assert (l + rest)[1..] == l[1..] + rest;
      FirstLineStands(l[1..], rest);
    }
  }

  lemma {:induction false} FirstLineIsOne(s: string)
    requires s != ""
    ensures OneLine(s[..LineLength(s)])
    ensures LineLength(s) < |s| ==> Apart(s[..LineLength(s)], s[LineLength(s)..])
    decreases |s|
  {
    var n := LineLength(s);
    if s[0] == '\r' && |s| > 1 && s[1] == '\n' {
    } else if Boundary(s[0]) || |s| == 1 {
    } else {
      FirstLineIsOne(s[1..]);
      assert s[..n][1..] == s[1..][..n - 1];
      assert s[n..] == s[1..][n - 1..];
    }
  }

  /** Splitting loses nothing. */
  lemma {:induction false} JoinOfSplit(s: string)
    ensures Join(Split(s)) == s
    decreases |s|
  {
    if s != "" {
      JoinOfSplit(s[LineLength(s)..]);
    }
  }

  lemma {:induction false} SplitIsProper(s: string)
    ensures Proper(Split(s))
    decreases |s|
  {
    if s != "" {
      FirstLineIsOne(s);
      var rest := s[LineLength(s)..];
      SplitIsProper(rest);
      if rest != "" {
        assert Split(rest)[0] == rest[..LineLength(rest)];
      }
    }
  }

  /** Joined lines split back into the same lines when none of them runs into its neighbour. */
  lemma {:induction false} SplitOfJoin(lines: seq<string>)
    requires Proper(lines)
    ensures Split(Join(lines)) == lines
    decreases |lines|
  {
    if lines != [] {
      var rest := Join(lines[1..]);
      if lines[1..] != [] {
        assert OneLine(lines[1]);
        assert rest != "" && rest[0] == lines[1][0];
      }
      FirstLineStands(lines[0], rest);
      assert Join(lines)[|lines[0]|..] == rest;
      TailIsProper(lines);
      SplitOfJoin(lines[1..]);
    }
  }

  lemma TailIsProper(lines: seq<string>)
    requires Proper(lines) && lines != []
    ensures Proper(lines[1..])
  {
    forall i | 0 <= i < |lines[1..]| - 1 ensures Apart(lines[1..][i], lines[1..][i + 1]) {
      assert Apart(lines[i + 1], lines[i + 2]);
    }
  }

  lemma {:induction false} JoinAppend(a: seq<string>, b: seq<string>)
    ensures Join(a + b) == Join(a) + Join(b)
    decreases |a|
  {
    if a == [] {
      assert a + b == b;
    } else {
      assert (a + b)[1..] == a[1..] + b;
      JoinAppend(a[1..], b);
    }
  }

  /** Two proper lists join properly when the seam stays apart. */
  lemma ProperSeam(a: seq<string>, b: seq<string>)
    requires Proper(a) && Proper(b)
    requires a != [] && b != [] ==> Apart(a[|a| - 1], b[0])
    ensures Proper(a + b)
  {
    forall i | 0 <= i < |a + b| - 1 ensures Apart((a + b)[i], (a + b)[i + 1]) {
      if i < |a| - 1 {
        assert Apart(a[i], a[i + 1]);
      } else if i >= |a| {
        assert Apart(b[i - |a|], b[i - |a| + 1]);
      }
    }
  }

  lemma ProperParts(a: seq<string>, b: seq<string>)
    requires Proper(a + b)
    ensures Proper(a) && Proper(b)
    ensures a != [] && b != [] ==> Apart(a[|a| - 1], b[0])
  {
    var ab := a + b;
    forall i | 0 <= i < |a| ensures OneLine(a[i]) {
      assert ab[i] == a[i];
    }
    forall i | 0 <= i < |b| ensures OneLine(b[i]) {
      assert ab[|a| + i] == b[i];
    }
    forall i | 0 <= i < |a| - 1 ensures Apart(a[i], a[i + 1]) {
      assert Apart(ab[i], ab[i + 1]);
    }
    forall i | 0 <= i < |b| - 1 ensures Apart(b[i], b[i + 1]) {
      assert Apart(ab[|a| + i], ab[|a| + i + 1]);
    }
    if a != [] && b != [] {
      assert Apart(ab[|a| - 1], ab[|a|]);
    }
  }

  /** A text without line ends, closed by a newline, is one ended line. */
  lemma {:induction false} PlainLine(text: string)
    requires forall i | 0 <= i < |text| :: !Boundary(text[i])
    ensures OneLine(text + "\n") && Ended(text + "\n")
    decreases |text|
  {
    if text != "" {
      assert (text + "\n")[1..] == text[1..] + "\n";
      PlainLine(text[1..]);
    }
  }

  /** Adding a newline to an unended line, or to one ended by a lone carriage return, keeps it one line. */
  lemma {:induction false} NewlineStays(l: string)
    requires OneLine(l) && (!Ended(l) || l[|l| - 1] == '\r')
    ensures OneLine(l + "\n") && Ended(l + "\n")
    decreases |l|
  {
    if |l| > 1 {
      assert (l + "\n")[1..] == l[1..] + "\n";
      NewlineStays(l[1..]);
    }
  }

  /** A line has a line end only as its last character, or as the carriage return of a final pair. */
  lemma {:induction false} OneLineMeans(l: string)
    ensures OneLine(l) <==>
            l != "" && forall i | 0 <= i < |l| - 1 ::
              Boundary(l[i]) ==> l[i] == '\r' && i == |l| - 2 && l[|l| - 1] == '\n'
    decreases |l|
  {
    if |l| > 1 && !Boundary(l[0]) {
      OneLineMeans(l[1..]);
      assert forall i | 0 <= i < |l[1..]| :: l[1..][i] == l[i + 1];
      assert forall i | 0 < i < |l| :: l[i] == l[1..][i - 1];
    }
  }
}
