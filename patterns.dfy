/** The fixed mnemonic tables of LMC assembly and the regular expressions
    the tokenizer tries at the cursor, each written as the length of text it
    matches there (0 when it does not match: none of them matches the empty
    string). Under CodeMirror's `StringStream.match` a match that does not
    start at the cursor is refused, so every pattern behaves as if anchored. */
module Patterns {
  import opened Text

  const VariabledKeywords: set<string> := {"STA", "STO", "LDA"}
  const OtherKeywords: set<string> := {"HLT"}
  const BranchKeywords: set<string> := {"BRA", "BRZ", "BRP"}
  const MathsKeywords: set<string> := {"ADD", "SUB"}
  const IoKeywords: set<string> := {"INP", "OUT", "OTC"}
  const DatKeyword: set<string> := {"DAT"}

  /** Every mnemonic a leading label may precede (DAT is not among them):
      the five instruction tables one after another. */
  const LabelableKeywords: set<string> :=
    {"STA", "STO", "LDA", "HLT", "BRA", "BRZ", "BRP", "ADD", "SUB", "INP", "OUT", "OTC"}

  /** The three characters at `j`, folded as the `i` flag folds them. */
  function Folded3(s: string, j: nat): string
    requires j + 3 <= |s|
  {
    [ToUpper(s[j]), ToUpper(s[j + 1]), ToUpper(s[j + 2])]
  }

  /** `(?:A|B|C)` with the `i` flag, over a table of three-letter mnemonics,
      matches at `j`. */
  predicate MnemonicAt(s: string, j: nat, table: set<string>)
    ensures MnemonicAt(s, j, table) ==> j + 3 <= |s| && table != {}
  {
    j + 3 <= |s| && Folded3(s, j) in table
  }

  /** `w` occurs at `j` once both sides are case-folded. */
  predicate MatchesIgnoreCase(s: string, j: nat, w: string) {
    j + |w| <= |s| && forall k :: 0 <= k < |w| ==> ToUpper(s[j + k]) == w[k]
  }

  /** `\s*(?:table)` matches at `j`. Backtracking into `\s*` gains nothing,
      because every mnemonic starts with a letter, so the mnemonic must sit
      right after the whole whitespace run. */
  predicate FollowedBy(s: string, j: nat, table: set<string>)
    requires j <= |s|
    ensures FollowedBy(s, j, table) ==> j + 3 <= |s| && table != {}
  {
    MnemonicAt(s, j + Run(s, j, Space), table)
  }

  /** The largest end `e` in `(i, top]` at which `\s*(?:table)` matches, or
      `i` when there is none: how `\w+(?=...)` backs off from the longest
      word run to the first end where the lookahead succeeds. */
  function LookaheadEnd(s: string, i: nat, top: nat, table: set<string>): (e: nat)
    requires i <= top <= |s|
    ensures i <= e <= top
    decreases top - i
  {
    if top == i then i
    else if FollowedBy(s, top, table) then top
    else LookaheadEnd(s, i, top - 1, table)
  }

  /** The end found is one at which the lookahead succeeds. */
  lemma {:induction false} LookaheadEndFollowed(s: string, i: nat, top: nat, table: set<string>)
    requires i <= top <= |s|
    ensures LookaheadEnd(s, i, top, table) > i ==> FollowedBy(s, LookaheadEnd(s, i, top, table), table)
    decreases top - i
  {
    if top > i && !FollowedBy(s, top, table) {
      LookaheadEndFollowed(s, i, top - 1, table);
    }
  }

  /** No end beyond the one found satisfies the lookahead. */
  lemma {:induction false} LookaheadEndIsLargest(s: string, i: nat, top: nat, table: set<string>, e: nat)
    requires i <= top <= |s|
    requires LookaheadEnd(s, i, top, table) < e <= top
    ensures !FollowedBy(s, e, table)
    decreases top - i
  {
    if top > i && !FollowedBy(s, top, table) && e < top {
      LookaheadEndIsLargest(s, i, top - 1, table, e);
    }
  }

  /** Length consumed by `^\w+(?=\s*(?:table))`: the longest `k >= 1` such
      that the `k` characters at `i` are word characters and the lookahead
      holds after them; 0 when no such `k` exists. */
  function LabelLength(s: string, i: nat, table: set<string>): (n: nat)
    requires i <= |s|
    ensures n <= Run(s, i, Word)
  {
    LookaheadEnd(s, i, i + Run(s, i, Word), table) - i
  }

  /** A label is matched only where the lookahead succeeds after it. */
  lemma {:induction false} LabelLengthFollowed(s: string, i: nat, table: set<string>)
    requires i <= |s|
    ensures LabelLength(s, i, table) > 0 ==> FollowedBy(s, i + LabelLength(s, i, table), table)
  {
    LookaheadEndFollowed(s, i, i + Run(s, i, Word), table);
  }

  /** `LabelLength` is the longest match: its characters are word
      characters, and no longer word prefix is followed by the lookahead. */
  lemma {:induction false} LabelLengthIsLongest(s: string, i: nat, table: set<string>)
    requires i <= |s|
    ensures forall k :: i <= k < i + LabelLength(s, i, table) ==> IsWordChar(s[k])
    ensures forall e :: i + LabelLength(s, i, table) < e <= i + Run(s, i, Word) ==>
              !FollowedBy(s, e, table)
  {
    var n := LabelLength(s, i, table);
    forall k | i <= k < i + n ensures IsWordChar(s[k]) {
      RunChars(s, i, Word, k);
    }
    forall e | i + n < e <= i + Run(s, i, Word) ensures !FollowedBy(s, e, table) {
      LookaheadEndIsLargest(s, i, i + Run(s, i, Word), table, e);
    }
  }

  /** The regular expressions `tokenCallback` uses. */
  datatype Pattern =
    | Newline                         // /\n/
    | DigitRun                        // /\d+/
    | Mnemonic(table: set<string>)    // /^(?:A|B|C)/i and /(?:HLT)/i, /DAT/i
    | LabelWord(table: set<string>)   // /^\w+(?=\s*(?:A|B|C))/i
    | WordRun                         // /\w+/
    | NonSpaceRun                     // /\S+/

  const NewlineRegex: Pattern := Newline
  const DigitRegex: Pattern := DigitRun
  const IoRegex: Pattern := Mnemonic(IoKeywords)
  const MathsRegex: Pattern := Mnemonic(MathsKeywords)
  const BranchKeywordRegex: Pattern := Mnemonic(BranchKeywords)
  const VariableKeywordRegex: Pattern := Mnemonic(VariabledKeywords)
  const OtherKeywordRegex: Pattern := Mnemonic(OtherKeywords)
  const DatRegex: Pattern := Mnemonic(DatKeyword)
  const VariableRegex: Pattern := LabelWord(DatKeyword)
  const LabelKeywordRegex: Pattern := LabelWord(LabelableKeywords)
  const CommentRegex: Pattern := NonSpaceRun
  const WordRegex: Pattern := WordRun

  /** Number of characters `p` matches at `i`; 0 means no match. */
  function MatchLength(p: Pattern, s: string, i: nat): (n: nat)
    requires i <= |s|
    ensures i + n <= |s|
  {
    match p
    case Newline => if i < |s| && s[i] == '\n' then 1 else 0
    case DigitRun => Run(s, i, Digit)
    case Mnemonic(table) => if MnemonicAt(s, i, table) then 3 else 0
    case LabelWord(table) => LabelLength(s, i, table)
    case WordRun => Run(s, i, Word)
    case NonSpaceRun => Run(s, i, NonSpace)
  }

  /** True of the mnemonic tables: entries are three characters long and
      start with an upper-case letter. */
  predicate IsMnemonicTable(table: set<string>) {
    forall w :: w in table ==> |w| == 3 && 'A' <= w[0] <= 'Z'
  }

  lemma {:induction false} TablesAreMnemonicTables()
    ensures IsMnemonicTable(VariabledKeywords) && IsMnemonicTable(OtherKeywords)
    ensures IsMnemonicTable(BranchKeywords) && IsMnemonicTable(MathsKeywords)
    ensures IsMnemonicTable(IoKeywords) && IsMnemonicTable(DatKeyword)
    ensures IsMnemonicTable(LabelableKeywords)
  {
    forall w | w in LabelableKeywords ensures |w| == 3 && 'A' <= w[0] <= 'Z' {
      LabelableMember(w);
    }
  }

  /** The three-letter shortcut is the regular expression's alternation: a
      mnemonic of the table occurs at `j`, ignoring case. */
  lemma {:induction false} MnemonicAtIsAlternation(s: string, j: nat, table: set<string>)
    requires IsMnemonicTable(table)
    ensures MnemonicAt(s, j, table) <==> exists w :: w in table && MatchesIgnoreCase(s, j, w)
  {
    if MnemonicAt(s, j, table) {
      var w := Folded3(s, j);
      assert MatchesIgnoreCase(s, j, w);
    }
    if w :| w in table && MatchesIgnoreCase(s, j, w) {
      assert Folded3(s, j) == w;
    }
  }

  /** A mnemonic starts with a letter: no class other than words and
      non-space holds of its first character. */
  lemma {:induction false} MnemonicStartsWithLetter(s: string, j: nat, table: set<string>)
    requires IsMnemonicTable(table) && MnemonicAt(s, j, table)
    ensures IsWordChar(s[j]) && !IsDigit(s[j]) && !IsSpace(s[j]) && s[j] != '\n'
  {
    assert 'A' <= Folded3(s, j)[0] <= 'Z';
  }

  /** `FollowedBy` is what the backtracking `\s*(?:table)` accepts: some
      prefix of the whitespace run is followed by a mnemonic. */
  lemma {:induction false} FollowedByIsBacktracking(s: string, j: nat, table: set<string>)
    requires j <= |s| && IsMnemonicTable(table)
    ensures FollowedBy(s, j, table) <==>
              exists e :: j <= e <= j + Run(s, j, Space) && MnemonicAt(s, e, table)
  {
    var top := j + Run(s, j, Space);
    if e :| j <= e <= top && MnemonicAt(s, e, table) {
      if e < top {
        RunChars(s, j, Space, e);
        MnemonicStartsWithLetter(s, e, table);
        assert false;
      }
    }
    if FollowedBy(s, j, table) {
      assert j <= top <= top && MnemonicAt(s, top, table);
    }
  }

  /** The five instruction tables are pairwise disjoint and none holds DAT,
      so at most one mnemonic branch of the tokenizer can match. */
  lemma {:induction false} TablesDisjoint(w: string)
    ensures !(w in IoKeywords && w in MathsKeywords)
    ensures !((w in IoKeywords || w in MathsKeywords) && w in BranchKeywords)
    ensures !((w in IoKeywords || w in MathsKeywords || w in BranchKeywords) && w in VariabledKeywords)
    ensures !((w in IoKeywords || w in MathsKeywords || w in BranchKeywords || w in VariabledKeywords)
              && w in OtherKeywords)
    ensures !(w in LabelableKeywords && w in DatKeyword)
  {
  }

  /** `LABELABLE` is exactly the union of the five tables. */
  lemma {:induction false} LabelableIsUnion()
    ensures LabelableKeywords
            == VariabledKeywords + OtherKeywords + BranchKeywords + MathsKeywords + IoKeywords
  {
  }

  /** Membership in `LABELABLE`, table by table. */
  lemma {:induction false} LabelableMember(w: string)
    ensures w in LabelableKeywords <==>
              w in VariabledKeywords || w in OtherKeywords || w in BranchKeywords
              || w in MathsKeywords || w in IoKeywords
  {
    LabelableIsUnion();
  }
}
