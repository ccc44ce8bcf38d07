/** The LMC tokenizer: the lexer state, the style it reports, and
    `tokenCallback`, given first as a function of the line, the cursor and
    the incoming flags, then as the method that updates a stream and a state
    object in place. */
module Lexer {
  import opened Wrappers
  import opened Text
  import opened Patterns
  import opened Stream

  /** The style strings handed back to the editor. */
  datatype Style = Number | String | Tag | Keyword | Def | Variable | Link | Comment

  /** The CodeMirror token type of a style: a short lower-case word. */
  function StyleName(style: Style): (r: string)
    ensures 3 <= |r| <= 8
    ensures forall k :: 0 <= k < |r| ==> 'a' <= r[k] <= 'z'
  {
    match style
    case Number => "number"
    case String => "string"
    case Tag => "tag"
    case Keyword => "keyword"
    case Def => "def"
    case Variable => "variable"
    case Link => "link"
    case Comment => "comment"
  }

  /** Distinct styles reach the editor as distinct strings. */
  lemma {:induction false} StyleNameInjective(a: Style, b: Style)
    ensures StyleName(a) == StyleName(b) <==> a == b
  {
  }

  /** The three flags of `LMCLexerState`, as a value. */
  datatype Flags = Flags(previousLinkable: bool, previousVariable: bool, previousDat: bool)

  const NoFlags: Flags := Flags(false, false, false)

  predicate AtMostOneFlag(f: Flags) {
    && !(f.previousLinkable && f.previousVariable)
    && !(f.previousLinkable && f.previousDat)
    && !(f.previousVariable && f.previousDat)
  }

  class LexerState {
    var previousLinkable: bool
    var previousVariable: bool
    var previousDat: bool

    constructor ()
      ensures Snapshot() == NoFlags
    {
      previousLinkable := false;
      previousVariable := false;
      previousDat := false;
    }

    /** The three flags as a value, as `tokenCallback` reads them before
        clearing them. */
    function Snapshot(): (f: Flags)
      reads this
      ensures f.previousLinkable == previousLinkable
      ensures f.previousVariable == previousVariable
      ensures f.previousDat == previousDat
    {
      Flags(previousLinkable, previousVariable, previousDat)
    }
  }

  /** `startState`: a fresh state with every flag clear. */
  method StartState() returns (state: LexerState)
    ensures fresh(state) && state.Snapshot() == NoFlags
  {
    state := new LexerState();
  }

  /** What one call produces: the style (`None` for `null`), the new cursor
      and the new flags. */
  datatype Outcome = Outcome(style: Option<Style>, pos: nat, flags: Flags)

  /** A rule that matched: its style, where its match ends (before
      `eatSpace()`), and the flags it sets. */
  datatype Rule = Rule(style: Style, end: nat, flags: Flags)

  /** The mnemonic rules, in the order `tokenCallback` tries them. */
  function MnemonicRule(s: string, i: nat): (r: Option<Rule>)
    requires i <= |s|
    ensures r.Some? ==> i < r.value.end <= |s|
  {
    if MnemonicAt(s, i, IoKeywords) then Some(Rule(String, i + 3, NoFlags))
    else if MnemonicAt(s, i, MathsKeywords) then Some(Rule(Tag, i + 3, NoFlags.(previousVariable := true)))
    else if MnemonicAt(s, i, BranchKeywords) then Some(Rule(Keyword, i + 3, NoFlags.(previousLinkable := true)))
    else if MnemonicAt(s, i, VariabledKeywords) then Some(Rule(Keyword, i + 3, NoFlags.(previousVariable := true)))
    else if MnemonicAt(s, i, OtherKeywords) then Some(Rule(Keyword, i + 3, NoFlags))
    else if MnemonicAt(s, i, DatKeyword) then Some(Rule(Def, i + 3, NoFlags.(previousDat := true)))
    else None
  }

  /** Length consumed by `(indentation() == column() && match(lead)) ||
      (flag && match(WordRegex))`, where `lead` is the look-ahead pattern
      over `table`: it is tried only at the indentation column, the bare
      word only when the flag was set. */
  function ContextWordLength(s: string, i: nat, table: set<string>, flag: bool): (n: nat)
    requires i <= |s|
    ensures i + n <= |s|
  {
    if FirstNonSpace(s) == i && LabelLength(s, i, table) > 0 then LabelLength(s, i, table)
    else if flag then Run(s, i, Word)
    else 0
  }

  /** The rules after the mnemonics: a leading label or an operand word as
      `variable`, then as `link`, else the rest of the line as a comment. */
  function WordRule(s: string, i: nat, f: Flags): (r: Option<Rule>)
    requires i <= |s|
    ensures r.Some? ==> i < r.value.end <= |s|
  {
    var variable := ContextWordLength(s, i, DatKeyword, f.previousVariable);
    var link := ContextWordLength(s, i, LabelableKeywords, f.previousLinkable);
    if variable > 0 then
      Some(Rule(Variable, i + variable, NoFlags))
    else if link > 0 then
      Some(Rule(Link, i + link, NoFlags))
    else if Run(s, i, NonSpace) > 0 then
      Some(Rule(Comment, |s|, NoFlags))
    else
      None
  }

  /** The first rule that matches at `i` after the newline test: a number
      right after DAT, a mnemonic, or a word rule. */
  function FirstRule(s: string, i: nat, f: Flags): (r: Option<Rule>)
    requires i <= |s|
    ensures r.Some? ==> i < r.value.end <= |s|
  {
    if f.previousDat && Run(s, i, Digit) > 0 then
      Some(Rule(Number, i + Run(s, i, Digit), NoFlags))
    else if MnemonicRule(s, i).Some? then
      MnemonicRule(s, i)
    else
      WordRule(s, i, f)
  }

  /** `tokenCallback` on line `s` with the cursor at `i` and incoming flags
      `f`: a newline gives `null`; otherwise the first matching rule gives
      its style and flags and the whitespace after it is eaten; when no rule
      matches, one character is skipped and the result is `null`. */
  function NextToken(s: string, i: nat, f: Flags): (r: Outcome)
    requires i <= |s|
    ensures r.pos <= |s|
    ensures i < |s| ==> i < r.pos
    ensures AtMostOneFlag(r.flags)
  {
    if i < |s| && s[i] == '\n' then
      Outcome(None, i + 1, NoFlags)
    else
      match FirstRule(s, i, f)
      case Some(t) => Outcome(Some(t.style), t.end + Run(s, t.end, Space), t.flags)
      case None => Outcome(None, if i < |s| then i + 1 else i, NoFlags)
  }

  /** Off a newline, a call reports the first rule that matches and eats
      the whitespace after it, or skips one character when none matches. */
  lemma {:induction false} NextTokenOfRule(s: string, i: nat, f: Flags)
    requires i <= |s| && !(i < |s| && s[i] == '\n')
    ensures var r := NextToken(s, i, f);
            match FirstRule(s, i, f)
            case Some(t) => r.style == Some(t.style) && r.pos == t.end + Run(s, t.end, Space) && r.flags == t.flags
            case None => r.style == None && r.pos == (if i < |s| then i + 1 else i) && r.flags == NoFlags
  {
  }

  /** The mnemonic branches of `tokenCallback` on the stream. */
  method MatchMnemonic(stream: StringStream, state: LexerState) returns (style: Option<Style>)
    requires stream.Valid() && state.Snapshot() == NoFlags
    modifies stream, state
    ensures stream.Valid()
    ensures var r := MnemonicRule(stream.line, old(stream.pos));
            match r
            case Some(t) => style == Some(t.style) && stream.pos == t.end && state.Snapshot() == t.flags
            case None => style == None && stream.pos == old(stream.pos) && state.Snapshot() == NoFlags
  {
    var matched := stream.Match(IoRegex);
    if matched {
      return Some(String);
    }
    matched := stream.Match(MathsRegex);
    if matched {
      state.previousVariable := true;
      return Some(Tag);
    }
    matched := stream.Match(BranchKeywordRegex);
    if matched {
      state.previousLinkable := true;
      return Some(Keyword);
    }
    matched := stream.Match(VariableKeywordRegex);
    if matched {
      state.previousVariable := true;
      return Some(Keyword);
    }
    matched := stream.Match(OtherKeywordRegex);
    if matched {
      return Some(Keyword);
    }
    matched := stream.Match(DatRegex);
    if matched {
      state.previousDat := true;
      return Some(Def);
    }
    return None;
  }

  /** One of the two compound conditions of `tokenCallback`, on the stream. */
  method MatchContextWord(stream: StringStream, lead: Pattern, flag: bool) returns (matched: bool)
    requires stream.Valid() && lead.LabelWord?
    modifies stream
    ensures stream.Valid()
    ensures var n := ContextWordLength(stream.line, old(stream.pos), lead.table, flag);
            matched == (n > 0) && stream.pos == old(stream.pos) + n
  {
    matched := false;
    if stream.Indentation() == stream.Column() {
      matched := stream.Match(lead);
    }
    if !matched && flag {
      matched := stream.Match(WordRegex);
    }
  }

  /** Which branch of `WordRule` is taken, in terms of the lengths it tests. */
  lemma {:induction false} WordRuleBranches(s: string, i: nat, f: Flags)
    requires i <= |s|
    ensures var v := ContextWordLength(s, i, DatKeyword, f.previousVariable);
            var l := ContextWordLength(s, i, LabelableKeywords, f.previousLinkable);
            match WordRule(s, i, f)
            case Some(t) =>
              || (v > 0 && t.style == Variable && t.end == i + v)
              || (v == 0 && l > 0 && t.style == Link && t.end == i + l)
              || (v == 0 && l == 0 && Run(s, i, NonSpace) > 0 && t.style == Comment && t.end == |s|)
            case None => v == 0 && l == 0 && Run(s, i, NonSpace) == 0
  {
  }

  /** The word and comment branches of `tokenCallback` on the stream, given
      the flags the call started with. */
  method MatchWord(stream: StringStream, previous: Flags) returns (style: Option<Style>)
    requires stream.Valid()
    modifies stream
    ensures stream.Valid()
    ensures var r := WordRule(stream.line, old(stream.pos), previous);
            match r
            case Some(t) => style == Some(t.style) && stream.pos == t.end
            case None => style == None && stream.pos == old(stream.pos)
  {
    WordRuleBranches(stream.line, stream.pos, previous);
    var matched := MatchContextWord(stream, VariableRegex, previous.previousVariable);
    if matched {
      return Some(Variable);
    }
    matched := MatchContextWord(stream, LabelKeywordRegex, previous.previousLinkable);
    if matched {
      return Some(Link);
    }
    matched := stream.Match(CommentRegex);
    if matched {
      stream.SkipToEnd();
      return Some(Comment);
    }
    return None;
  }

  /** The rules of `tokenCallback` after the newline test, tried in order
      on the stream: digits after DAT, the mnemonics, the word rules. */
  method MatchRule(stream: StringStream, state: LexerState, previous: Flags) returns (style: Option<Style>)
    requires stream.Valid() && state.Snapshot() == NoFlags
    modifies stream, state
    ensures stream.Valid()
    ensures var r := FirstRule(stream.line, old(stream.pos), previous);
            match r
            case Some(t) => style == Some(t.style) && stream.pos == t.end && state.Snapshot() == t.flags
            case None => style == None && stream.pos == old(stream.pos) && state.Snapshot() == NoFlags
  {
    var matched := false;
    if previous.previousDat {
      matched := stream.Match(DigitRegex);
    }
    if matched {
      return Some(Number);
    }
    style := MatchMnemonic(stream, state);
    if style.None? {
      style := MatchWord(stream, previous);
    }
  }

  /** `tokenCallback(stream, state)`: snapshot and clear the flags, try the
      rules in order on the stream, and eat the whitespace after any token. */
  method TokenCallback(stream: StringStream, state: LexerState) returns (style: Option<Style>)
    requires stream.Valid()
    modifies stream, state
    ensures stream.Valid()
    ensures var r := NextToken(stream.line, old(stream.pos), old(state.Snapshot()));
            style == r.style && stream.pos == r.pos && state.Snapshot() == r.flags
  {
    var previous := state.Snapshot();
    ghost var s, i := stream.line, stream.pos;

    // Cleared first: only the branch of a flag-setting mnemonic sets one again.
    state.previousLinkable := false;
    state.previousVariable := false;
    state.previousDat := false;

    var matched := stream.Match(NewlineRegex);
    if matched {
      return None;
    }
    style := MatchRule(stream, state, previous);
    NextTokenOfRule(s, i, previous);
    if style.None? {
      var _ := stream.Next();
      return None;
    }
    var _ := stream.EatSpace();
  }
}
