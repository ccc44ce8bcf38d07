/** Character classes of the ECMAScript regular expressions used by the LMC
    tokenizer, the case folding of their `i` flag, and the maximal runs that
    their greedy quantifiers consume. */
module Text {

  /** `\s`: the ECMAScript WhiteSpace and LineTerminator code points. */
  predicate IsSpace(c: char)
    ensures c == '\n' ==> IsSpace(c)
    ensures IsSpace(c) ==> !('0' <= c <= '9' || 'a' <= c <= 'z' || 'A' <= c <= 'Z' || c == '_')
  {
    || c == '\t' || c == '\n' || c == '\U{000B}' || c == '\U{000C}' || c == '\r' || c == ' '
    || c == '\U{00A0}' || c == '\U{1680}' || ('\U{2000}' <= c <= '\U{200A}')
    || c == '\U{2028}' || c == '\U{2029}' || c == '\U{202F}' || c == '\U{205F}'
    || c == '\U{3000}' || c == '\U{FEFF}'
  }

  /** `\d`: the ten ASCII digits, none of them whitespace. */
  predicate IsDigit(c: char)
    ensures IsDigit(c) ==> !IsSpace(c) && 0 <= c as int - '0' as int < 10
  {
    '0' <= c <= '9'
  }

  /** `\w`: ASCII letters, digits and the underscore. */
  predicate IsWordChar(c: char)
    ensures IsDigit(c) ==> IsWordChar(c)
    ensures IsWordChar(c) ==> !IsSpace(c)
  {
    'a' <= c <= 'z' || 'A' <= c <= 'Z' || IsDigit(c) || c == '_'
  }

  datatype CharClass = Space | NonSpace | Digit | Word

  predicate InClass(cc: CharClass, c: char) {
    match cc
    case Space => IsSpace(c)
    case NonSpace => !IsSpace(c)
    case Digit => IsDigit(c)
    case Word => IsWordChar(c)
  }

  /** Length of the longest run of `cc` characters starting at `i`: what a
      greedy `\s*`, `\S+`, `\d+` or `\w+` takes there. */
  function Run(s: string, i: nat, cc: CharClass): (r: nat)
    requires i <= |s|
    ensures i + r <= |s|
    decreases |s| - i
  {
    if i < |s| && InClass(cc, s[i]) then 1 + Run(s, i + 1, cc) else 0
  }

  /** The run is the longest one: it stops at the end of the line or at a
      character outside the class. */
  lemma {:induction false} RunStops(s: string, i: nat, cc: CharClass)
    requires i <= |s|
    ensures i + Run(s, i, cc) == |s| || !InClass(cc, s[i + Run(s, i, cc)])
    decreases |s| - i
  {
    if i < |s| && InClass(cc, s[i]) {
      RunStops(s, i + 1, cc);
    }
  }

  /** Every character of the run is of the class. */
  lemma {:induction false} RunChars(s: string, i: nat, cc: CharClass, k: nat)
    requires i <= |s| && i <= k < i + Run(s, i, cc)
    ensures InClass(cc, s[k])
    decreases k - i
  {
    if k > i {
      RunChars(s, i + 1, cc, k);
    }
  }

  /** A run is determined by its characters: `n` characters of the class
      followed by the end of the line or by one that is not of it. */
  lemma {:induction false} RunExact(s: string, i: nat, n: nat, cc: CharClass)
    requires i + n <= |s|
    requires forall k :: i <= k < i + n ==> InClass(cc, s[k])
    requires i + n == |s| || !InClass(cc, s[i + n])
    ensures Run(s, i, cc) == n
    decreases n
  {
    if n > 0 {
      RunExact(s, i + 1, n - 1, cc);
    }
  }

  /** Index of the first non-whitespace character of a line, or its length
      when it is blank; CodeMirror's `indentation()` without tabs. */
  function FirstNonSpace(s: string): (n: nat)
    ensures n <= |s|
    ensures n == |s| || !IsSpace(s[n])
  {
    RunStops(s, 0, Space);
    Run(s, 0, Space)
  }

  /** Every character before `FirstNonSpace(s)` is whitespace. */
  lemma {:induction false} FirstNonSpaceIsFirst(s: string)
    ensures forall k :: 0 <= k < FirstNonSpace(s) ==> IsSpace(s[k])
  {
    forall k | 0 <= k < FirstNonSpace(s) ensures IsSpace(s[k]) {
      RunChars(s, 0, Space, k);
    }
  }

  /** Canonicalisation of a non-unicode `i` regular expression on the
      characters it can make equal to an ASCII letter: only `a`-`z` fold. */
  function ToUpper(c: char): (r: char)
    ensures ('A' <= r <= 'Z') <==> ('A' <= c <= 'Z' || 'a' <= c <= 'z')
    ensures r != c <==> 'a' <= c <= 'z'
    ensures !('a' <= r <= 'z')
  {
    if 'a' <= c <= 'z' then (c as int - 32) as char else c
  }

  /** A line with every character folded: no lower-case ASCII letter is
      left, and only lower-case letters change. */
  function UpperAll(s: string): (r: string)
    ensures |r| == |s|
    ensures forall k :: 0 <= k < |s| ==> r[k] == ToUpper(s[k])
    ensures forall k :: 0 <= k < |s| ==> !('a' <= r[k] <= 'z') && (r[k] == s[k] || 'a' <= s[k] <= 'z')
  {
    seq(|s|, k requires 0 <= k < |s| => ToUpper(s[k]))
  }

  /** Folding a character does not change any class the tokenizer tests. */
  lemma {:induction false} UpperKeepsClass(cc: CharClass, c: char)
    ensures InClass(cc, ToUpper(c)) == InClass(cc, c)
    ensures ToUpper(ToUpper(c)) == ToUpper(c)
    ensures (ToUpper(c) == '\n') == (c == '\n')
  {
  }

  /** Greedy runs are the same in a line and in its upper-cased copy. */
  lemma {:induction false} RunUpper(s: string, i: nat, cc: CharClass)
    requires i <= |s|
    ensures Run(UpperAll(s), i, cc) == Run(s, i, cc)
    decreases |s| - i
  {
    if i < |s| {
      UpperKeepsClass(cc, s[i]);
      RunUpper(s, i + 1, cc);
    }
  }
}
