/** What `tokenCallback` promises, proved of its model `NextToken`. */
module LexerProperties {
  import opened Wrappers
  import opened Text
  import opened Patterns
  import opened Lexer

  /** Some mnemonic of the five instruction tables, or DAT, is at `i`. */
  predicate AnyMnemonicAt(s: string, i: nat) {
    MnemonicAt(s, i, LabelableKeywords) || MnemonicAt(s, i, DatKeyword)
  }

  /** Where the next call starts after a token that ended at `j`. */
  function AfterSpace(s: string, j: nat): nat
    requires j <= |s|
  {
    j + Run(s, j, Space)
  }

  /** The look-ahead's mnemonic is where the next call starts. */
  lemma {:induction false} FollowedByAfterSpace(s: string, j: nat, table: set<string>)
    requires j <= |s| && FollowedBy(s, j, table)
    ensures MnemonicAt(s, AfterSpace(s, j), table)
  {
  }

  /** A start state has every flag clear. */
  lemma {:induction false} StartStateFlags()
    ensures !NoFlags.previousLinkable && !NoFlags.previousVariable && !NoFlags.previousDat
    ensures AtMostOneFlag(NoFlags)
  {
  }

  /** A flag is set on return exactly when the token just read is a
      mnemonic that sets it: ADD/SUB or STA/STO/LDA set `previousVariable`,
      BRA/BRZ/BRP set `previousLinkable`, DAT sets `previousDat`. The
      styles `tag` and `def` come from ADD/SUB and from DAT alone. */
  lemma {:induction false} FlagsRecordMnemonic(s: string, i: nat, f: Flags)
    requires i <= |s|
    ensures var r := NextToken(s, i, f);
            && (r.flags.previousVariable <==>
                  MnemonicAt(s, i, MathsKeywords) || MnemonicAt(s, i, VariabledKeywords))
            && (r.flags.previousLinkable <==> MnemonicAt(s, i, BranchKeywords))
            && (r.flags.previousDat <==> MnemonicAt(s, i, DatKeyword))
            && (r.style == Some(Tag) <==> MnemonicAt(s, i, MathsKeywords))
            && (r.style == Some(Def) <==> MnemonicAt(s, i, DatKeyword))
            && (r.flags.previousLinkable ==> r.style == Some(Keyword))
  {
    MnemonicRuleMatches(s, i);
    if i + 3 <= |s| {
      TablesDisjoint(Folded3(s, i));
      LabelableMember(Folded3(s, i));
    }
  }

  /** One of the six tables `tokenCallback` tries holds the mnemonic at `i`. */
  predicate InSomeTable(s: string, i: nat) {
    || MnemonicAt(s, i, IoKeywords) || MnemonicAt(s, i, MathsKeywords)
    || MnemonicAt(s, i, BranchKeywords) || MnemonicAt(s, i, VariabledKeywords)
    || MnemonicAt(s, i, OtherKeywords) || MnemonicAt(s, i, DatKeyword)
  }

  lemma {:induction false} AnyMnemonicIsSomeTable(s: string, i: nat)
    ensures AnyMnemonicAt(s, i) <==> InSomeTable(s, i)
  {
    if i + 3 <= |s| {
      LabelableMember(Folded3(s, i));
    }
  }

  /** The mnemonic rules match exactly when a mnemonic is at the cursor,
      starting with a letter, and then they consume its three letters. */
  lemma {:induction false} MnemonicRuleMatches(s: string, i: nat)
    requires i <= |s|
    ensures MnemonicRule(s, i).Some? <==> AnyMnemonicAt(s, i)
    ensures AnyMnemonicAt(s, i) ==>
              && i < |s| && IsWordChar(s[i]) && !IsDigit(s[i]) && !IsSpace(s[i])
              && MnemonicRule(s, i).value.end == i + 3
  {
    AnyMnemonicIsSomeTable(s, i);
    assert MnemonicRule(s, i).Some? <==> InSomeTable(s, i);
    if AnyMnemonicAt(s, i) {
      TablesAreMnemonicTables();
      if MnemonicAt(s, i, LabelableKeywords) {
        MnemonicStartsWithLetter(s, i, LabelableKeywords);
      } else {
        MnemonicStartsWithLetter(s, i, DatKeyword);
      }
    }
  }

  /** A mnemonic at the cursor wins whatever the incoming flags: INP/OUT/OTC
      give `string`, ADD/SUB `tag`, BRA/BRZ/BRP, STA/STO/LDA and HLT
      `keyword`, DAT `def`; exactly its three letters are consumed, then
      the whitespace after them. */
  lemma {:induction false} MnemonicWins(s: string, i: nat, f: Flags)
    requires i <= |s| && AnyMnemonicAt(s, i)
    ensures var r := NextToken(s, i, f);
            && r.pos == AfterSpace(s, i + 3)
            && (MnemonicAt(s, i, IoKeywords) ==> r.style == Some(String))
            && (MnemonicAt(s, i, MathsKeywords) ==> r.style == Some(Tag))
            && ((MnemonicAt(s, i, BranchKeywords) || MnemonicAt(s, i, VariabledKeywords)
                 || MnemonicAt(s, i, OtherKeywords)) ==> r.style == Some(Keyword))
            && (MnemonicAt(s, i, DatKeyword) ==> r.style == Some(Def))
  {
    MnemonicRuleMatches(s, i);
    TablesDisjoint(Folded3(s, i));
  }

  /** `number` is returned exactly when the previous call read DAT and the
      cursor is on a digit; the whole run of digits is consumed. */
  lemma {:induction false} NumberOnlyAfterDat(s: string, i: nat, f: Flags)
    requires i <= |s|
    ensures var r := NextToken(s, i, f);
            && (r.style == Some(Number) <==> f.previousDat && i < |s| && IsDigit(s[i]))
            && (r.style == Some(Number) ==> r.pos == AfterSpace(s, i + Run(s, i, Digit)))
  {
    MnemonicRuleMatches(s, i);
  }

  /** Across two calls, on the same line or the next one: the second gives
      `number` exactly when the first gave `def` and the second starts on a
      digit. */
  lemma {:induction false} NumberFollowsDat(s: string, i: nat, f: Flags, t: string, j: nat)
    requires i <= |s| && j <= |t|
    ensures var first := NextToken(s, i, f);
            NextToken(t, j, first.flags).style == Some(Number) <==>
              first.style == Some(Def) && j < |t| && IsDigit(t[j])
  {
    var first := NextToken(s, i, f);
    FlagsRecordMnemonic(s, i, f);
    NumberOnlyAfterDat(t, j, first.flags);
  }

  /** After ADD/SUB or STA/STO/LDA, a word that is not a mnemonic is a
      `variable`; away from the indentation column, or when no DAT follows
      it, the whole word is consumed. */
  lemma {:induction false} OperandAfterVariableMnemonic(s: string, i: nat, f: Flags)
    requires i < |s| && AtMostOneFlag(f) && f.previousVariable
    requires IsWordChar(s[i]) && !AnyMnemonicAt(s, i)
    ensures var r := NextToken(s, i, f);
            && r.style == Some(Variable)
            && (i != FirstNonSpace(s) || LabelLength(s, i, DatKeyword) == 0 ==>
                  r.pos == AfterSpace(s, i + Run(s, i, Word)))
  {
    OperandVariableRule(s, i, f);
    NextTokenOfRule(s, i, f);
  }

  /** After BRA/BRZ/BRP, a word that is not a mnemonic (and is not a
      leading DAT label) is a `link`; away from the indentation column, or
      when no mnemonic follows it, the whole word is consumed. */
  lemma {:induction false} OperandAfterBranch(s: string, i: nat, f: Flags)
    requires i < |s| && AtMostOneFlag(f) && f.previousLinkable
    requires IsWordChar(s[i]) && !AnyMnemonicAt(s, i)
    requires i != FirstNonSpace(s) || LabelLength(s, i, DatKeyword) == 0
    ensures var r := NextToken(s, i, f);
            && r.style == Some(Link)
            && (i != FirstNonSpace(s) || LabelLength(s, i, LabelableKeywords) == 0 ==>
                  r.pos == AfterSpace(s, i + Run(s, i, Word)))
  {
    OperandLinkRule(s, i, f);
    NextTokenOfRule(s, i, f);
  }

  /** The rule chosen for an operand word after ADD/SUB or STA/STO/LDA. */
  lemma {:induction false} OperandVariableRule(s: string, i: nat, f: Flags)
    requires i < |s| && AtMostOneFlag(f) && f.previousVariable
    requires IsWordChar(s[i]) && !AnyMnemonicAt(s, i)
    ensures var t := FirstRule(s, i, f);
            && t.Some? && t.value.style == Variable && t.value.flags == NoFlags
            && (i != FirstNonSpace(s) || LabelLength(s, i, DatKeyword) == 0 ==>
                  t.value.end == i + Run(s, i, Word))
  {
    OperandVariableWord(s, i, f);
    FirstRuleIsWordRule(s, i, f);
  }

  lemma {:induction false} OperandVariableWord(s: string, i: nat, f: Flags)
    requires i < |s| && f.previousVariable && IsWordChar(s[i])
    ensures var t := WordRule(s, i, f);
            && t.Some? && t.value.style == Variable && t.value.flags == NoFlags
            && (i != FirstNonSpace(s) || LabelLength(s, i, DatKeyword) == 0 ==>
                  t.value.end == i + Run(s, i, Word))
  {
    ContextWordOnFlag(s, i, DatKeyword, f.previousVariable);
  }

  /** The rule chosen for an operand word after BRA/BRZ/BRP. */
  lemma {:induction false} OperandLinkRule(s: string, i: nat, f: Flags)
    requires i < |s| && AtMostOneFlag(f) && f.previousLinkable
    requires IsWordChar(s[i]) && !AnyMnemonicAt(s, i)
    requires i != FirstNonSpace(s) || LabelLength(s, i, DatKeyword) == 0
    ensures var t := FirstRule(s, i, f);
            && t.Some? && t.value.style == Link && t.value.flags == NoFlags
            && (i != FirstNonSpace(s) || LabelLength(s, i, LabelableKeywords) == 0 ==>
                  t.value.end == i + Run(s, i, Word))
  {
    OperandLinkWord(s, i, f);
    FirstRuleIsWordRule(s, i, f);
  }

  lemma {:induction false} OperandLinkWord(s: string, i: nat, f: Flags)
    requires i < |s| && !f.previousVariable && f.previousLinkable && IsWordChar(s[i])
    requires i != FirstNonSpace(s) || LabelLength(s, i, DatKeyword) == 0
    ensures var t := WordRule(s, i, f);
            && t.Some? && t.value.style == Link && t.value.flags == NoFlags
            && (i != FirstNonSpace(s) || LabelLength(s, i, LabelableKeywords) == 0 ==>
                  t.value.end == i + Run(s, i, Word))
  {
    ContextWordOnFlag(s, i, LabelableKeywords, f.previousLinkable);
    assert ContextWordLength(s, i, DatKeyword, f.previousVariable) == 0;
  }

  /** With its flag set, a context word rule takes at least the word at
      the cursor, and exactly that word unless the lead pattern applies. */
  lemma {:induction false} ContextWordOnFlag(s: string, i: nat, table: set<string>, flag: bool)
    requires i < |s| && flag && IsWordChar(s[i])
    ensures ContextWordLength(s, i, table, flag) > 0
    ensures FirstNonSpace(s) != i || LabelLength(s, i, table) == 0 ==>
              ContextWordLength(s, i, table, flag) == Run(s, i, Word)
  {
    assert Run(s, i, Word) > 0;
  }

  /** When no number or mnemonic rule applies, the word rules decide. */
  lemma {:induction false} FirstRuleIsWordRule(s: string, i: nat, f: Flags)
    requires i <= |s| && !AnyMnemonicAt(s, i)
    requires !(f.previousDat && i < |s| && IsDigit(s[i]))
    ensures FirstRule(s, i, f) == WordRule(s, i, f)
  {
    MnemonicRuleMatches(s, i);
  }

  /** The rule chosen for a leading DAT label. */
  lemma {:induction false} LeadingDatRule(s: string, i: nat, f: Flags)
    requires i <= |s| && i == FirstNonSpace(s) && !AnyMnemonicAt(s, i)
    requires !(f.previousDat && i < |s| && IsDigit(s[i]))
    requires LabelLength(s, i, DatKeyword) > 0
    ensures var t := FirstRule(s, i, f);
            t.Some? && t.value.style == Variable && t.value.end == i + LabelLength(s, i, DatKeyword)
            && t.value.flags == NoFlags
  {
    assert ContextWordLength(s, i, DatKeyword, f.previousVariable) == LabelLength(s, i, DatKeyword);
    FirstRuleIsWordRule(s, i, f);
  }

  /** The rule chosen for a leading label before another mnemonic. */
  lemma {:induction false} LeadingLinkRule(s: string, i: nat, f: Flags)
    requires i <= |s| && i == FirstNonSpace(s) && !AnyMnemonicAt(s, i)
    requires !(f.previousDat && i < |s| && IsDigit(s[i])) && !f.previousVariable
    requires LabelLength(s, i, DatKeyword) == 0 && LabelLength(s, i, LabelableKeywords) > 0
    ensures var t := FirstRule(s, i, f);
            t.Some? && t.value.style == Link && t.value.end == i + LabelLength(s, i, LabelableKeywords)
            && t.value.flags == NoFlags
  {
    assert ContextWordLength(s, i, DatKeyword, f.previousVariable) == 0;
    assert ContextWordLength(s, i, LabelableKeywords, f.previousLinkable) == LabelLength(s, i, LabelableKeywords);
    FirstRuleIsWordRule(s, i, f);
  }

  /** A rule that matched `n` characters at `i` gives its style, and the
      next call starts after the whitespace that follows. */
  lemma {:induction false} RuleThenSpace(s: string, i: nat, f: Flags, style: Style, n: nat)
    requires i + n <= |s| && !(i < |s| && s[i] == '\n')
    requires FirstRule(s, i, f).Some? && FirstRule(s, i, f).value.style == style
    requires FirstRule(s, i, f).value.end == i + n
    ensures NextToken(s, i, f).style == Some(style)
    ensures NextToken(s, i, f).pos == AfterSpace(s, i + n)
  {
    NextTokenOfRule(s, i, f);
  }

  /** At the indentation column, a word followed by optional whitespace and
      DAT is a `variable`. Only the word is consumed, with the whitespace
      after it, so the next call starts on DAT. */
  lemma {:induction false} LeadingDatLabel(s: string, i: nat, f: Flags)
    requires i <= |s| && i == FirstNonSpace(s) && !AnyMnemonicAt(s, i)
    requires !(f.previousDat && i < |s| && IsDigit(s[i]))
    requires LabelLength(s, i, DatKeyword) > 0
    ensures var r := NextToken(s, i, f);
            && r.style == Some(Variable)
            && r.pos == AfterSpace(s, i + LabelLength(s, i, DatKeyword))
            && MnemonicAt(s, r.pos, DatKeyword)
  {
    var v := LabelLength(s, i, DatKeyword);
    assert Run(s, i, Word) > 0;
    LeadingDatRule(s, i, f);
    RuleThenSpace(s, i, f, Variable, v);
    LabelLengthFollowed(s, i, DatKeyword);
    FollowedByAfterSpace(s, i + v, DatKeyword);
  }

  /** Failing that, and unless the previous call asked for a variable, a
      word at the indentation column followed by any labelable mnemonic is a
      `link`; the next call starts on that mnemonic. */
  lemma {:induction false} LeadingMnemonicLabel(s: string, i: nat, f: Flags)
    requires i <= |s| && i == FirstNonSpace(s) && !AnyMnemonicAt(s, i)
    requires !(f.previousDat && i < |s| && IsDigit(s[i])) && !f.previousVariable
    requires LabelLength(s, i, DatKeyword) == 0 && LabelLength(s, i, LabelableKeywords) > 0
    ensures var r := NextToken(s, i, f);
            && r.style == Some(Link)
            && r.pos == AfterSpace(s, i + LabelLength(s, i, LabelableKeywords))
            && MnemonicAt(s, r.pos, LabelableKeywords)
  {
    var l := LabelLength(s, i, LabelableKeywords);
    assert Run(s, i, Word) > 0;
    LeadingLinkRule(s, i, f);
    RuleThenSpace(s, i, f, Link, l);
    LabelLengthFollowed(s, i, LabelableKeywords);
    FollowedByAfterSpace(s, i + l, LabelableKeywords);
  }

  /** The looked-ahead mnemonic is not lost: the call after a leading label
      reads it, as `def` after a DAT label. */
  lemma {:induction false} LabelThenMnemonic(s: string, i: nat, f: Flags)
    requires i <= |s| && i == FirstNonSpace(s) && !AnyMnemonicAt(s, i)
    requires !(f.previousDat && i < |s| && IsDigit(s[i]))
    requires LabelLength(s, i, DatKeyword) > 0
             || (!f.previousVariable && LabelLength(s, i, LabelableKeywords) > 0)
    ensures var r := NextToken(s, i, f);
            && AnyMnemonicAt(s, r.pos)
            && (LabelLength(s, i, DatKeyword) > 0 ==> NextToken(s, r.pos, r.flags).style == Some(Def))
  {
    var r := NextToken(s, i, f);
    if LabelLength(s, i, DatKeyword) > 0 {
      LeadingDatLabel(s, i, f);
    } else {
      LeadingMnemonicLabel(s, i, f);
    }
    MnemonicWins(s, r.pos, r.flags);
  }

  /** `null` is returned exactly at the end of the line or on whitespace,
      and then exactly one character is skipped (none at the end): the
      newline branch and the fallback do not eat whitespace. */
  lemma {:induction false} NullExactlyOnSpace(s: string, i: nat, f: Flags)
    requires i <= |s|
    ensures var r := NextToken(s, i, f);
            && (r.style == None <==> i == |s| || IsSpace(s[i]))
            && (r.style == None ==> r.pos == if i < |s| then i + 1 else i)
  {
    MnemonicRuleMatches(s, i);
  }

  /** Every token is followed by the whitespace after it having been eaten. */
  lemma {:induction false} TokenEatsFollowingSpace(s: string, i: nat, f: Flags)
    requires i <= |s|
    ensures var r := NextToken(s, i, f);
            r.style.Some? ==> r.pos == |s| || !IsSpace(s[r.pos])
  {
    if !(i < |s| && s[i] == '\n') && FirstRule(s, i, f).Some? {
      NextTokenOfRule(s, i, f);
      RunStops(s, FirstRule(s, i, f).value.end, Space);
    }
  }

  /** A `comment` starts on unmatched non-space text and runs to the end of
      the line; text that starts with a character that is neither a word
      character nor whitespace is always one. */
  lemma {:induction false} CommentRunsToEnd(s: string, i: nat, f: Flags)
    requires i <= |s|
    ensures var r := NextToken(s, i, f);
            && (r.style == Some(Comment) ==>
                  r.pos == |s| && i < |s| && !IsSpace(s[i]) && !AnyMnemonicAt(s, i))
            && (i < |s| && !IsSpace(s[i]) && !IsWordChar(s[i]) ==> r.style == Some(Comment))
  {
    MnemonicRuleMatches(s, i);
  }

  /** A mnemonic is matched regardless of case. */
  lemma {:induction false} MnemonicAtUpper(s: string, j: nat, table: set<string>)
    ensures MnemonicAt(UpperAll(s), j, table) == MnemonicAt(s, j, table)
  {
    if j + 3 <= |s| {
      UpperKeepsClass(Space, s[j]);
      UpperKeepsClass(Space, s[j + 1]);
      UpperKeepsClass(Space, s[j + 2]);
      assert Folded3(UpperAll(s), j) == Folded3(s, j);
    }
  }

  /** The lookahead `\s*(?:table)` does not see case. */
  lemma {:induction false} FollowedByUpper(s: string, j: nat, table: set<string>)
    requires j <= |s|
    ensures FollowedBy(UpperAll(s), j, table) == FollowedBy(s, j, table)
  {
    RunUpper(s, j, Space);
    MnemonicAtUpper(s, j + Run(s, j, Space), table);
  }

  /** Two lines of the same length on which the lookahead succeeds at the
      same ends have the same largest such end. */
  lemma {:induction false} LookaheadEndAgree(s: string, u: string, i: nat, top: nat, table: set<string>)
    requires i <= top <= |s| == |u|
    requires forall j :: i < j <= top ==> FollowedBy(u, j, table) == FollowedBy(s, j, table)
    ensures LookaheadEnd(u, i, top, table) == LookaheadEnd(s, i, top, table)
    decreases top - i
  {
    if top > i {
      LookaheadEndAgree(s, u, i, top - 1, table);
    }
  }

  lemma {:induction false} LookaheadEndUpper(s: string, i: nat, top: nat, table: set<string>)
    requires i <= top <= |s|
    ensures LookaheadEnd(UpperAll(s), i, top, table) == LookaheadEnd(s, i, top, table)
  {
    forall j | i < j <= top
      ensures FollowedBy(UpperAll(s), j, table) == FollowedBy(s, j, table)
    {
      FollowedByUpper(s, j, table);
    }
    LookaheadEndAgree(s, UpperAll(s), i, top, table);
  }

  /** Two lines with the same word run at `i` and the same lookahead ends
      after it give the same label length. */
  lemma {:induction false} LabelLengthAgree(s: string, u: string, i: nat, table: set<string>)
    requires i <= |s| == |u| && Run(u, i, Word) == Run(s, i, Word)
    requires LookaheadEnd(u, i, i + Run(s, i, Word), table) == LookaheadEnd(s, i, i + Run(s, i, Word), table)
    ensures LabelLength(u, i, table) == LabelLength(s, i, table)
  {
  }

  /** The look-ahead label rule does not see case. */
  lemma {:induction false} LabelLengthUpper(s: string, i: nat, table: set<string>)
    requires i <= |s|
    ensures LabelLength(UpperAll(s), i, table) == LabelLength(s, i, table)
  {
    var top := i + Run(s, i, Word);
    RunUpper(s, i, Word);
    LookaheadEndUpper(s, i, top, table);
    LabelLengthAgree(s, UpperAll(s), i, table);
  }

  /** Every pattern matches the same length in a line and in its
      upper-cased copy. */
  lemma {:induction false} MatchLengthUpper(p: Pattern, s: string, i: nat)
    requires i <= |s|
    ensures MatchLength(p, UpperAll(s), i) == MatchLength(p, s, i)
  {
    match p
    case Newline =>
      if i < |s| { UpperKeepsClass(Space, s[i]); }
    case DigitRun => RunUpper(s, i, Digit);
    case Mnemonic(table) => MnemonicAtUpper(s, i, table);
    case LabelWord(table) => LabelLengthUpper(s, i, table);
    case WordRun => RunUpper(s, i, Word);
    case NonSpaceRun => RunUpper(s, i, NonSpace);
  }

  lemma {:induction false} MnemonicRuleUpper(s: string, i: nat)
    requires i <= |s|
    ensures MnemonicRule(UpperAll(s), i) == MnemonicRule(s, i)
  {
    MnemonicAtUpper(s, i, IoKeywords);
    MnemonicAtUpper(s, i, MathsKeywords);
    MnemonicAtUpper(s, i, BranchKeywords);
    MnemonicAtUpper(s, i, VariabledKeywords);
    MnemonicAtUpper(s, i, OtherKeywords);
    MnemonicAtUpper(s, i, DatKeyword);
  }

  lemma {:induction false} ContextWordUpper(s: string, i: nat, table: set<string>, flag: bool)
    requires i <= |s|
    ensures ContextWordLength(UpperAll(s), i, table, flag) == ContextWordLength(s, i, table, flag)
  {
    RunUpper(s, 0, Space);
    LabelLengthUpper(s, i, table);
    RunUpper(s, i, Word);
  }

  /** Two rule outcomes that agree field by field are equal. */
  lemma {:induction false} SameRule(a: Option<Rule>, b: Option<Rule>)
    requires a.Some? == b.Some?
    requires a.Some? ==> a.value.style == b.value.style && a.value.end == b.value.end
                         && a.value.flags == b.value.flags
    ensures a == b
  {
  }

  /** `WordRule` depends on the line only through the three lengths it
      tests and the line's length, stated field by field. */
  lemma {:induction false} WordRuleFields(s: string, u: string, i: nat, f: Flags)
    requires i <= |s| == |u|
    requires ContextWordLength(u, i, DatKeyword, f.previousVariable)
             == ContextWordLength(s, i, DatKeyword, f.previousVariable)
    requires ContextWordLength(u, i, LabelableKeywords, f.previousLinkable)
             == ContextWordLength(s, i, LabelableKeywords, f.previousLinkable)
    requires Run(u, i, NonSpace) == Run(s, i, NonSpace)
    ensures WordRule(u, i, f).Some? == WordRule(s, i, f).Some?
    ensures WordRule(u, i, f).Some? ==> WordRule(u, i, f).value.style == WordRule(s, i, f).value.style
    ensures WordRule(u, i, f).Some? ==> WordRule(u, i, f).value.end == WordRule(s, i, f).value.end
    ensures WordRule(u, i, f).Some? ==> WordRule(u, i, f).value.flags == WordRule(s, i, f).value.flags
  {
  }

  lemma {:induction false} WordRuleUpper(s: string, i: nat, f: Flags)
    requires i <= |s|
    ensures WordRule(UpperAll(s), i, f) == WordRule(s, i, f)
  {
    ContextWordUpper(s, i, DatKeyword, f.previousVariable);
    ContextWordUpper(s, i, LabelableKeywords, f.previousLinkable);
    RunUpper(s, i, NonSpace);
    WordRuleFields(s, UpperAll(s), i, f);
    SameRule(WordRule(UpperAll(s), i, f), WordRule(s, i, f));
  }

  /** The first matching rule is the same in a line and in its upper-cased
      copy. */
  lemma {:induction false} FirstRuleUpper(s: string, i: nat, f: Flags)
    requires i <= |s|
    ensures FirstRule(UpperAll(s), i, f) == FirstRule(s, i, f)
  {
    RunUpper(s, i, Digit);
    MnemonicRuleUpper(s, i);
    if !(f.previousDat && Run(s, i, Digit) > 0) && MnemonicRule(s, i).None? {
      WordRuleUpper(s, i, f);
    }
  }

  /** The tokenizer is case-insensitive: a line and its upper-cased copy
      give the same style, the same new cursor and the same flags. */
  lemma {:induction false} CaseInsensitive(s: string, i: nat, f: Flags)
    requires i <= |s|
    ensures NextToken(UpperAll(s), i, f) == NextToken(s, i, f)
  {
    if !(i < |s| && s[i] == '\n') {
      FirstRuleUpper(s, i, f);
      NextTokenOfRule(s, i, f);
      NextTokenOfRule(UpperAll(s), i, f);
      if FirstRule(s, i, f).Some? {
        RunUpper(s, FirstRule(s, i, f).value.end, Space);
      }
    }
  }
}
