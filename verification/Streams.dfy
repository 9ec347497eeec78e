/**
 The byte streams the egress proxy reads and writes (asyncio's StreamReader and StreamWriter).
 An octet is a character below 256, so wire text can be written as string literals.
 */
module Streams {
  import opened Common

  type Octet = c: char | (c as int) < 256 witness ' '
  type Octets = seq<Octet>

  /** The default buffer limit of a stream: a longer line makes readline raise ValueError. */
  const LINE_LIMIT := 65536

  /** Length of the first line, its newline included; a last line may lack one. */
  function LineLength(s: Octets): (n: nat)
    ensures n <= |s|
    ensures s != [] ==> n > 0
  {
    if s == [] then 0
    else if s[0] == '\n' then 1
    else 1 + LineLength(s[1..])
  }

  /** A line whose text, newline excluded, stays within the stream limit. */
  predicate LineFits(line: Octets) {
    |line| <= LINE_LIMIT || (|line| == LINE_LIMIT + 1 && line[LINE_LIMIT] == '\n')
  }

  /** What readline returns for the unread bytes s; None stands for its ValueError. */
  function FirstLine(s: Octets): Option<Octets> {
    var line := s[..LineLength(s)];
    if LineFits(line) then Some(line) else None
  }

  /** A text with one newline, at its end, is the first line of any stream that begins with it. */
  lemma {:induction false} FirstLineOfPrefix(line: Octets, rest: Octets)
    requires line != [] && line[|line| - 1] == '\n'
    requires forall i :: 0 <= i < |line| - 1 ==> line[i] != '\n'
    ensures LineLength(line + rest) == |line|
  {
    if |line| > 1 {
      assert (line + rest)[1..] == line[1..] + rest;
      FirstLineOfPrefix(line[1..], rest);
    }
  }

  class StreamReader {
    /** Every byte the peer sends before it closes the connection. */
    const input: Octets
    var pos: nat

    constructor (input: Octets)
      ensures this.input == input && pos == 0
    {
      this.input, this.pos := input, 0;
    }

    ghost predicate Valid()
      reads this
    {
      pos <= |input|
    }

    /** The bytes not consumed yet. */
    function Rest(): Octets
      requires pos <= |input|
      reads this
    {
      input[pos..]
    }

    /** Returns exactly n bytes, or consumes what is left and fails. */
    method ReadExactly(n: nat) returns (data: Option<Octets>)
      requires Valid()
      modifies this
      ensures Valid() && old(pos) <= pos
      ensures n <= |old(Rest())| ==> data == Some(old(Rest())[..n]) && pos == old(pos) + n
      ensures n > |old(Rest())| ==> data.None? && pos == |input|
    {
      if n <= |input| - pos {
        data := Some(Rest()[..n]);
        pos := pos + n;
      } else {
        data := None;
        pos := |input|;
      }
    }

    /** Returns the next line; fails, having dropped buffered bytes, when it is too long. */
    method ReadLine() returns (line: Option<Octets>)
      requires Valid()
      modifies this
      ensures Valid() && old(pos) <= pos
      ensures line == FirstLine(old(Rest()))
      ensures line.Some? ==> pos == old(pos) + |line.value|
    {
      line := FirstLine(Rest());
      pos := if line.Some? then pos + |line.value| else |input|;
    }
  }

  class StreamWriter {
    var written: Octets
    var closed: bool

    constructor ()
      ensures written == [] && !closed
    {
      written, closed := [], false;
    }

    method Write(data: Octets)
      modifies this`written
      ensures written == old(written) + data
    {
      written := written + data;
    }

    method Close()
      modifies this`closed
      ensures closed
    {
      closed := true;
    }
  }
}
