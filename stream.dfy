/** The part of CodeMirror's `StringStream` that the LMC tokenizer uses: one
    line of text and a cursor that only moves forward. */
module Stream {
  import opened Wrappers
  import opened Text
  import opened Patterns

  class StringStream {
    const line: string
    var pos: nat

    ghost predicate Valid()
      reads this
    {
      pos <= |line|
    }

    constructor (line: string)
      ensures Valid() && this.line == line && pos == 0
    {
      this.line := line;
      pos := 0;
    }

    /** `eol()`: the cursor has reached the end of the line. */
    predicate Eol()
      reads this
      ensures Valid() ==> (Eol() <==> pos == |line|)
    {
      pos >= |line|
    }

    /** The column of the token being read; the host sets the token start
        to the cursor before every call, and there are no tabs. */
    function Column(): (c: nat)
      reads this
      ensures Valid() ==> c <= |line|
      ensures Eol() <==> c >= |line|
    {
      pos
    }

    /** The column of the first non-whitespace character of the line. */
    function Indentation(): (n: nat)
      reads this
      ensures n <= |line|
      ensures n < |line| ==> !IsSpace(line[n])
      ensures forall k :: 0 <= k < n ==> IsSpace(line[k])
    {
      FirstNonSpaceIsFirst(line);
      FirstNonSpace(line)
    }

    /** `match(regex)`: consumes what `p` matches at the cursor, and nothing
        when it does not match. */
    method Match(p: Pattern) returns (matched: bool)
      requires Valid()
      modifies this
      ensures Valid()
      ensures matched == (MatchLength(p, line, old(pos)) > 0)
      ensures pos == old(pos) + MatchLength(p, line, old(pos))
    {
      var n := MatchLength(p, line, pos);
      matched := n > 0;
      pos := pos + n;
    }

    /** `eatSpace()`: skips the whitespace at the cursor. */
    method EatSpace() returns (ate: bool)
      requires Valid()
      modifies this
      ensures Valid()
      ensures pos == old(pos) + Run(line, old(pos), Space)
      ensures ate == (pos > old(pos))
    {
      var start := pos;
      while pos < |line| && IsSpace(line[pos])
        invariant start <= pos <= |line|
        invariant Run(line, start, Space) == pos - start + Run(line, pos, Space)
        decreases |line| - pos
      {
        pos := pos + 1;
      }
      ate := pos > start;
    }

    /** `skipToEnd()`. */
    method SkipToEnd()
      requires Valid()
      modifies this
      ensures Valid() && pos == |line|
    {
      pos := |line|;
    }

    /** `next()`: the character at the cursor, which it steps over; nothing
        at the end of the line. */
    method Next() returns (c: Option<char>)
      requires Valid()
      modifies this
      ensures Valid()
      ensures old(pos) < |line| ==> c == Some(line[old(pos)]) && pos == old(pos) + 1
      ensures old(pos) == |line| ==> c == None && pos == old(pos)
    {
      if pos < |line| {
        c := Some(line[pos]);
        pos := pos + 1;
      } else {
        c := None;
      }
    }
  }
}
