/** Lines of LMC assembly tokenised from a start state. Each line is given
    character by character in a precondition, and the tokeniser's steps are
    taken one lemma at a time with the general properties of `NextToken`. */
module WorkedExamples {
  import opened Wrappers
  import opened Text
  import opened Patterns
  import opened Lexer
  import opened LexerProperties
  import opened LineDriver

  /** One call of the host loop. */
  lemma {:induction false} TokenizeStep(s: string, i: nat, f: Flags)
    requires i < |s|
    ensures var t := NextToken(s, i, f);
            Tokenize(s, i, f).spans == [Span(t.style, i, t.pos)] + Tokenize(s, t.pos, t.flags).spans
  {
  }

  predicate IsLoopLine(s: string) {
    && |s| == 16
    && s[0] == 'L' && s[1] == 'O' && s[2] == 'O' && s[3] == 'P' && s[4] == ' '
    && s[5] == 'S' && s[6] == 'T' && s[7] == 'A' && s[8] == ' '
    && s[9] == 'C' && s[10] == 'O' && s[11] == 'U' && s[12] == 'N' && s[13] == 'T'
    && s[14] == 'E' && s[15] == 'R'
  }

  lemma {:induction false} LoopRuns(s: string)
    requires IsLoopLine(s)
    ensures Run(s, 0, Word) == 4 && FirstNonSpace(s) == 0 && Run(s, 9, Word) == 7
  {
    RunExact(s, 0, 4, Word);
    RunExact(s, 0, 0, Space);
    RunExact(s, 9, 7, Word);
  }

  lemma {:induction false} LoopSpaces(s: string)
    requires IsLoopLine(s)
    ensures Run(s, 4, Space) == 1 && Run(s, 8, Space) == 1 && Run(s, 16, Space) == 0
  {
    RunExact(s, 4, 1, Space);
    RunExact(s, 8, 1, Space);
    RunExact(s, 16, 0, Space);
  }

  lemma {:induction false} LoopMnemonics(s: string)
    requires IsLoopLine(s)
    ensures !AnyMnemonicAt(s, 0) && AnyMnemonicAt(s, 5) && !AnyMnemonicAt(s, 9)
    ensures MnemonicAt(s, 5, VariabledKeywords)
  {
    assert Folded3(s, 0) == "LOO";
    assert Folded3(s, 5) == "STA";
    assert Folded3(s, 9) == "COU";
  }

  lemma {:induction false} LoopLabel(s: string)
    requires IsLoopLine(s)
    ensures LabelLength(s, 0, LabelableKeywords) == 4 && LabelLength(s, 0, DatKeyword) == 0
  {
    LoopRuns(s);
    LoopSpaces(s);
    LoopMnemonics(s);
    RunExact(s, 1, 0, Space);
    RunExact(s, 2, 0, Space);
    RunExact(s, 3, 0, Space);
    assert Folded3(s, 1) == "OOP" && Folded3(s, 2) == "OP " && Folded3(s, 3) == "P S";
    assert MnemonicAt(s, 5, LabelableKeywords);
    assert !FollowedBy(s, 4, DatKeyword) && !FollowedBy(s, 3, DatKeyword);
    assert !FollowedBy(s, 2, DatKeyword) && !FollowedBy(s, 1, DatKeyword);
  }

  lemma {:induction false} LoopStep1(s: string)
    requires IsLoopLine(s)
    ensures var r := NextToken(s, 0, NoFlags);
            r.style == Some(Link) && r.pos == 5 && r.flags == NoFlags
  {
    LoopRuns(s);
    LoopSpaces(s);
    LoopMnemonics(s);
    LoopLabel(s);
    LeadingMnemonicLabel(s, 0, NoFlags);
    FlagsRecordMnemonic(s, 0, NoFlags);
  }

  lemma {:induction false} LoopStep2(s: string)
    requires IsLoopLine(s)
    ensures var r := NextToken(s, 5, NoFlags);
            r.style == Some(Keyword) && r.pos == 9 && r.flags == Flags(false, true, false)
  {
    LoopSpaces(s);
    LoopMnemonics(s);
    MnemonicWins(s, 5, NoFlags);
    FlagsRecordMnemonic(s, 5, NoFlags);
  }

  lemma {:induction false} LoopStep3(s: string)
    requires IsLoopLine(s)
    ensures var r := NextToken(s, 9, Flags(false, true, false));
            r.style == Some(Variable) && r.pos == 16 && r.flags == NoFlags
  {
    LoopRuns(s);
    LoopSpaces(s);
    LoopMnemonics(s);
    OperandAfterVariableMnemonic(s, 9, Flags(false, true, false));
    FlagsRecordMnemonic(s, 9, Flags(false, true, false));
  }

  lemma {:induction false} LoopSteps(s: string)
    requires IsLoopLine(s)
    ensures Tokenize(s, 0, NoFlags).spans
            == [Span(Some(Link), 0, 5), Span(Some(Keyword), 5, 9), Span(Some(Variable), 9, 16)]
  {
    LoopStep1(s);
    LoopStep2(s);
    LoopStep3(s);
    TokenizeStep(s, 0, NoFlags);
    TokenizeStep(s, 5, NoFlags);
    TokenizeStep(s, 9, Flags(false, true, false));
  }

  /** `LOOP STA COUNTER` from a start state: `link`, `keyword`, `variable`,
      each span taking the whitespace after its word. */
  lemma {:induction false} LoopStaCounter()
    ensures Tokenize("LOOP STA COUNTER", 0, NoFlags).spans
            == [Span(Some(Link), 0, 5), Span(Some(Keyword), 5, 9), Span(Some(Variable), 9, 16)]
  {
    LoopSteps("LOOP STA COUNTER");
  }

  predicate IsCounterLine(s: string) {
    && |s| == 13
    && s[0] == 'C' && s[1] == 'O' && s[2] == 'U' && s[3] == 'N' && s[4] == 'T' && s[5] == 'E'
    && s[6] == 'R' && s[7] == ' ' && s[8] == 'D' && s[9] == 'A' && s[10] == 'T' && s[11] == ' '
    && s[12] == '5'
  }

  lemma {:induction false} CounterRuns(s: string)
    requires IsCounterLine(s)
    ensures Run(s, 0, Word) == 7 && FirstNonSpace(s) == 0 && Run(s, 12, Digit) == 1
    ensures Run(s, 7, Space) == 1 && Run(s, 11, Space) == 1 && Run(s, 13, Space) == 0
  {
    RunExact(s, 0, 7, Word);
    RunExact(s, 0, 0, Space);
    RunExact(s, 12, 1, Digit);
    RunExact(s, 7, 1, Space);
    RunExact(s, 11, 1, Space);
    RunExact(s, 13, 0, Space);
  }

  lemma {:induction false} CounterMnemonics(s: string)
    requires IsCounterLine(s)
    ensures !AnyMnemonicAt(s, 0) && !AnyMnemonicAt(s, 12)
    ensures MnemonicAt(s, 8, DatKeyword) && AnyMnemonicAt(s, 8)
  {
    assert Folded3(s, 0) == "COU";
    assert Folded3(s, 8) == "DAT";
  }

  lemma {:induction false} CounterLabel(s: string)
    requires IsCounterLine(s)
    ensures LabelLength(s, 0, DatKeyword) == 7
  {
    CounterRuns(s);
    CounterMnemonics(s);
    assert FollowedBy(s, 7, DatKeyword);
  }

  lemma {:induction false} CounterStep1(s: string)
    requires IsCounterLine(s)
    ensures var r := NextToken(s, 0, NoFlags);
            r.style == Some(Variable) && r.pos == 8 && r.flags == NoFlags
  {
    CounterRuns(s);
    CounterMnemonics(s);
    CounterLabel(s);
    LeadingDatLabel(s, 0, NoFlags);
    FlagsRecordMnemonic(s, 0, NoFlags);
  }

  lemma {:induction false} CounterStep2(s: string)
    requires IsCounterLine(s)
    ensures var r := NextToken(s, 8, NoFlags);
            r.style == Some(Def) && r.pos == 12 && r.flags == Flags(false, false, true)
  {
    CounterRuns(s);
    CounterMnemonics(s);
    MnemonicWins(s, 8, NoFlags);
    FlagsRecordMnemonic(s, 8, NoFlags);
  }

  lemma {:induction false} CounterStep3(s: string)
    requires IsCounterLine(s)
    ensures var r := NextToken(s, 12, Flags(false, false, true));
            r.style == Some(Number) && r.pos == 13 && r.flags == NoFlags
  {
    CounterRuns(s);
    CounterMnemonics(s);
    RunExact(s, 13, 0, Space);
    NumberOnlyAfterDat(s, 12, Flags(false, false, true));
    FlagsRecordMnemonic(s, 12, Flags(false, false, true));
  }

  lemma {:induction false} CounterSteps(s: string)
    requires IsCounterLine(s)
    ensures Tokenize(s, 0, NoFlags).spans
            == [Span(Some(Variable), 0, 8), Span(Some(Def), 8, 12), Span(Some(Number), 12, 13)]
  {
    CounterStep1(s);
    CounterStep2(s);
    CounterStep3(s);
    TokenizeStep(s, 0, NoFlags);
    TokenizeStep(s, 8, NoFlags);
    TokenizeStep(s, 12, Flags(false, false, true));
  }

  /** `COUNTER DAT 5` from a start state: `variable`, `def`, `number`. */
  lemma {:induction false} CounterDat5()
    ensures Tokenize("COUNTER DAT 5", 0, NoFlags).spans
            == [Span(Some(Variable), 0, 8), Span(Some(Def), 8, 12), Span(Some(Number), 12, 13)]
  {
    CounterSteps("COUNTER DAT 5");
  }
}
