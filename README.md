# LMC syntax highlighting: the tokenizer, in Dafny

obsidian-lmc adds a CodeMirror mode for Little Man Computer (LMC) assembly to
Obsidian. The mode's logic is one function, `tokenCallback` (main.ts:56-113).
CodeMirror calls it again and again on a `StringStream` over one line. CodeMirror
also passes it an `LMCLexerState` object holding three flags, and the same object
goes on to the next line. Each call does four things:

- It snapshots the flags and clears them.
- It tries an ordered list of regular expressions at the cursor. The first one
  that matches wins.
- It moves the cursor.
- It returns a style name (`number`, `string`, `tag`, `keyword`, `def`,
  `variable`, `link`, `comment`) or `null`.

The model has these parts:

- `text.dfy` (module `Text`):
  - the character classes `\s`, `\d` and `\w`;
  - the case folding of the `i` flag;
  - `Run`, the maximal run that a greedy `\s*`, `\S+`, `\d+` or `\w+` takes.
- `patterns.dfy` (module `Patterns`):
  - the six mnemonic tables and `LABELABLE_KEYWORDS`;
  - every regular expression of `tokenCallback`, written as the length it
    matches at the cursor;
  - the two look-ahead expressions `^\w+(?=\s*DAT)` and
    `^\w+(?=\s*(?:LABELABLE))`, written as the longest word prefix after which
    the look-ahead succeeds.
- `stream.dfy` (module `Stream`): the part of CodeMirror's `StringStream` that
  the tokenizer uses. It is a class with the line and a cursor `pos`. It has
  `match`, `eatSpace`, `skipToEnd`, `next`, `eol`, `column` and `indentation`.
- `lexer.dfy` (module `Lexer`):
  - `LMCLexerState` as a class with its three fields;
  - `startState`;
  - `tokenCallback` as a method that updates the stream and the state in place.
    It is proved equal to the pure function `NextToken` of the line, the cursor
    and the incoming flags.
- `properties.dfy` (module `LexerProperties`): what a call promises, proved about
  `NextToken`. This covers:
  - flags;
  - priority of the mnemonic rules;
  - numbers only after DAT;
  - operands;
  - leading labels;
  - whitespace and comments;
  - case-insensitivity.
- `driver.dfy` (module `LineDriver`): the host's loop, which calls the token
  function until the end of the line and then hands the state to the next line.
  It comes as a function `Tokenize` and as a method `TokenizeLine` proved equal
  to it.
- `worked.dfy` (module `WorkedExamples`): two lines tokenised from a start state.

Three points of reading the code:

- ADD and SUB give `tag` (main.ts:77-79), not `keyword`. IO mnemonics give
  `string`, and DAT gives `def`.
- `LABELABLE_KEYWORDS` is the concatenation of the five instruction tables
  (main.ts:22-25). It has twelve entries, and DAT is not one of them. The model
  writes it as the twelve entries and proves it equal to the union of the five
  tables.
- Each table is a set of strings. The tables only feed alternations
  `(?:A|B|C)` of distinct three-letter words. In such an alternation at most
  one word can match at a position, and it always takes three characters, so
  the order of the words does not change what matches.

CodeMirror's `StringStream.match(regexp)` refuses a match that starts after the
cursor. Because of that, the unanchored expressions (`/DAT/i`, `/\d+/`, `/\S+/`,
`/\w+/`, and the HLT expression) act as if anchored at the cursor, and the model
writes them that way. `\s` is the ECMAScript set of white space and line
terminators. `\w` is `[A-Za-z0-9_]`. Without the `u` flag, the `i` flag
folds only `a`-`z` onto `A`-`Z` for these patterns.

## Model

| member | source | states |
|---|---|---|
| Text.IsSpace | main.ts:42-52 | `\s` holds of the newline and of no character that `\w` matches |
| Text.IsDigit | main.ts:50 | `\d` matches only the ten ASCII digits, and none of them is whitespace |
| Text.IsWordChar | main.ts:42-53 | `\w` matches every digit and no whitespace |
| Text.Run | main.ts:50-53 | a greedy run of a class stays within the line |
| Text.RunStops | main.ts:50-53 | the run stops at the end of the line or at a character outside the class |
| Text.RunChars | main.ts:50-53 | every character inside the run is of the class |
| Text.RunExact | main.ts:50-53 | n characters of the class followed by the end of the line or by a character outside it make a run of exactly n, so the run is determined |
| Text.FirstNonSpace | main.ts:92-93 | `indentation()` is at most the line length and points at a non-space character unless the line is blank |
| Text.FirstNonSpaceIsFirst | main.ts:92-93 | every character before `indentation()` is whitespace, so it is the first non-space column |
| Text.ToUpper | main.ts:34-49 | the `i` flag maps exactly the lower-case and upper-case letters onto upper-case letters, changes only lower-case letters, and never yields a lower-case letter |
| Text.UpperAll | main.ts:34-49 | the folded line has the same length, each character is the folded original, no lower-case letter is left and only lower-case letters changed |
| Text.UpperKeepsClass | main.ts:34-49 | folding a character does not change whether it is a space, a digit, a word character or a newline, and folding twice is folding once |
| Text.RunUpper | main.ts:34-49 | every run has the same length in a line and in its upper-cased copy |
| Patterns.MnemonicAt | main.ts:34-47 | the alternation needs three characters at the cursor and a non-empty table; `Patterns.MnemonicAtIsAlternation` shows it holds exactly when a table entry occurs there ignoring case |
| Patterns.FollowedBy | main.ts:41-49 | the look-ahead `\s*(?:table)` needs at least three characters ahead; `Patterns.FollowedByIsBacktracking` shows it is the backtracking match of that look-ahead |
| Patterns.LookaheadEnd | main.ts:41-49 | the end found lies between the start and the end of the word run |
| Patterns.LookaheadEndFollowed | main.ts:41-49 | if the end found is beyond the start, the look-ahead `\s*(?:table)` succeeds there |
| Patterns.LookaheadEndIsLargest | main.ts:41-49 | no end beyond the one found, up to the end of the word run, makes the look-ahead succeed (greedy `\w+` backs off as little as possible) |
| Patterns.LabelLength | main.ts:41-49 | `^\w+(?=\s*X)` takes at most the word run |
| Patterns.LabelLengthFollowed | main.ts:41-49 | when the label pattern matches, the look-ahead succeeds right after what it takes |
| Patterns.LabelLengthIsLongest | main.ts:41-49 | what the label pattern takes is all word characters, and no longer prefix of the word run is followed by the mnemonic |
| Patterns.FollowedByIsBacktracking | main.ts:41-49 | the look-ahead tried right after the whitespace run succeeds exactly when some split of the whitespace run is followed by the mnemonic, so backtracking into `\s*` changes nothing |
| Patterns.MatchLength | main.ts:34-54 | no pattern matches past the end of the line |
| Patterns.MnemonicAtIsAlternation | main.ts:27-47 | the mnemonic test holds exactly when some table entry occurs at the cursor, ignoring case, which is the `i`-flag alternation `(?:A\|B\|C)` |
| Patterns.TablesAreMnemonicTables | main.ts:16-25 | every table entry, and so every labelable one, is three characters that start with an upper-case letter |
| Patterns.MnemonicStartsWithLetter | main.ts:16-25 | a mnemonic at the cursor starts with a word character that is not a digit, a space or a newline |
| Patterns.TablesDisjoint | main.ts:16-25 | the five instruction tables are pairwise disjoint and none of them, nor their union, holds DAT |
| Patterns.LabelableIsUnion | main.ts:22-25 | the twelve labelable mnemonics are exactly the union of the five instruction tables |
| Patterns.LabelableMember | main.ts:22-25 | a word is labelable exactly when it is in one of the five instruction tables |
| Stream.StringStream.constructor | main.ts:56-58 | a stream starts at column 0 of its line |
| Stream.StringStream.Eol | main.ts:115-118 | the host's `eol()` holds exactly when the cursor is at the end of the line |
| Stream.StringStream.Column | main.ts:92-98 | `column()` lies within the line and reaches its end exactly at `eol()` |
| Stream.StringStream.Indentation | main.ts:92-98 | `indentation()` is within the line, every character before it is whitespace and the character at it is not |
| Stream.StringStream.Match | main.ts:71-103 | `match(regexp)` succeeds exactly when the pattern matches at the cursor, and it moves the cursor by exactly the matched length, by nothing on failure |
| Stream.StringStream.EatSpace | main.ts:111 | `eatSpace()` moves the cursor over the whole whitespace run and reports whether it moved |
| Stream.StringStream.SkipToEnd | main.ts:105 | `skipToEnd()` puts the cursor at the end of the line |
| Stream.StringStream.Next | main.ts:107 | `next()` returns the character at the cursor and steps over it, or returns nothing at the end of the line without moving |
| Lexer.StyleName | main.ts:74-104 | every style string is a lower-case word of three to eight letters; `Lexer.StyleNameInjective` shows distinct styles give distinct strings |
| Lexer.StyleNameInjective | main.ts:74-104 | the eight styles are eight distinct strings |
| Lexer.LexerState.constructor | main.ts:9-13 | a new state has all three flags false |
| Lexer.LexerState.Snapshot | main.ts:62-64 | the snapshot taken at the start of a call holds exactly the three flags of the state |
| Lexer.StartState | main.ts:117 | `startState()` returns a fresh state with all three flags false |
| Lexer.MnemonicRule | main.ts:75-90 | a mnemonic rule that matches ends after the cursor and within the line |
| Lexer.ContextWordLength | main.ts:91-101 | the compound condition consumes nothing past the end of the line |
| Lexer.WordRule | main.ts:91-105 | a word or comment rule that matches ends after the cursor and within the line |
| Lexer.FirstRule | main.ts:73-105 | the first matching rule ends after the cursor and within the line |
| Lexer.NextToken | main.ts:56-113 | a call stays within the line, moves at least one character when not at the end of the line, and returns at most one flag set |
| Lexer.MatchMnemonic | main.ts:75-90 | the mnemonic branches on the stream give the style, cursor and flags of the first mnemonic rule that matches, and change nothing when none matches |
| Lexer.MatchContextWord | main.ts:91-101 | `(indentation() == column() && match(lead)) \|\| (flag && match(WORD_REGEX))` on the stream succeeds and consumes as the pure compound condition says |
| Lexer.MatchWord | main.ts:91-105 | the variable, link and comment branches on the stream give the style and cursor of the word rule |
| Lexer.MatchRule | main.ts:73-105 | the number, mnemonic and word branches on the stream give the style, cursor and flags of the first rule that matches, and change nothing when none matches |
| Lexer.TokenCallback | main.ts:56-113 | `tokenCallback` returns the style of `NextToken`, leaves the cursor where `NextToken` puts it, and leaves the state's flags equal to `NextToken`'s |
| LexerProperties.StartStateFlags | main.ts:9-13 | the start flags are all false and so satisfy the at-most-one-flag invariant |
| LexerProperties.FlagsRecordMnemonic | main.ts:62-90 | on return `previousVariable` is set exactly when ADD/SUB or STA/STO/LDA is at the cursor, `previousLinkable` exactly when BRA/BRZ/BRP is, and `previousDat` exactly when DAT is; `tag` is returned exactly on ADD/SUB, `def` exactly on DAT, and a set `previousLinkable` comes with `keyword` |
| LexerProperties.AnyMnemonicIsSomeTable | main.ts:22-25 | a labelable mnemonic or DAT is at the cursor exactly when one of the six tables holds the word there |
| LexerProperties.MnemonicRuleMatches | main.ts:75-90 | the mnemonic rules match exactly when a mnemonic is at the cursor, which then starts with a letter, and they consume exactly its three characters |
| LexerProperties.MnemonicWins | main.ts:71-90 | a mnemonic at the cursor wins over every later rule whatever the incoming flags: INP/OUT/OTC give `string`, ADD/SUB `tag`, branch, store/load and HLT `keyword`, DAT `def`, and the call consumes the three letters and the whitespace after them |
| LexerProperties.NumberOnlyAfterDat | main.ts:73-74 | `number` is returned exactly when `previousDat` was set and the cursor is on a digit, and then the whole digit run and the whitespace after it are consumed |
| LexerProperties.NumberFollowsDat | main.ts:73-89 | a call gives `number` exactly when the call before it, on the same line or an earlier one, gave `def` and the cursor is on a digit |
| LexerProperties.OperandAfterVariableMnemonic | main.ts:91-96 | after a variable-taking mnemonic, a word that is not a mnemonic is `variable`, and away from the indentation column or with no DAT after it the whole word is consumed |
| LexerProperties.OperandAfterBranch | main.ts:97-102 | after a branch, a word that is neither a mnemonic nor a leading DAT label is `link`, and away from the indentation column or with no mnemonic after it the whole word is consumed |
| LexerProperties.LeadingDatLabel | main.ts:91-96 | at the indentation column, a word followed by optional whitespace and DAT is `variable`; only the word and its trailing whitespace are consumed, so the next call starts on DAT |
| LexerProperties.LeadingMnemonicLabel | main.ts:97-102 | failing that, and with no operand expected, a word at the indentation column followed by a labelable mnemonic is `link`, and the next call starts on that mnemonic |
| LexerProperties.LabelThenMnemonic | main.ts:91-102 | after a leading label the next call starts on a mnemonic, and after a DAT label it returns `def` |
| LexerProperties.NullExactlyOnSpace | main.ts:71-109 | `null` is returned exactly at the end of the line or on whitespace, and then exactly one character is skipped (none at the end of the line) |
| LexerProperties.TokenEatsFollowingSpace | main.ts:111 | after every call that returns a style, the cursor is at the end of the line or on a non-space character |
| LexerProperties.CommentRunsToEnd | main.ts:103-105 | `comment` starts on non-space text that is not a mnemonic and runs to the end of the line, and text that starts with neither a word character nor a space is always a comment |
| LexerProperties.MnemonicAtUpper | main.ts:34-49 | the mnemonic test gives the same answer on a line and on its upper-cased copy |
| LexerProperties.FollowedByUpper | main.ts:41-49 | the look-ahead gives the same answer on a line and on its upper-cased copy |
| LexerProperties.LookaheadEndUpper | main.ts:41-49 | the look-ahead end is the same on a line and on its upper-cased copy |
| LexerProperties.LabelLengthUpper | main.ts:41-49 | the label patterns take the same length on a line and on its upper-cased copy |
| LexerProperties.MatchLengthUpper | main.ts:34-54 | every pattern matches the same length on a line and on its upper-cased copy |
| LexerProperties.MnemonicRuleUpper | main.ts:75-90 | the mnemonic rules choose the same on a line and on its upper-cased copy |
| LexerProperties.ContextWordUpper | main.ts:91-101 | the compound conditions consume the same on a line and on its upper-cased copy |
| LexerProperties.WordRuleUpper | main.ts:91-105 | the word and comment rules choose the same on a line and on its upper-cased copy |
| LexerProperties.FirstRuleUpper | main.ts:73-105 | the first matching rule is the same on a line and on its upper-cased copy |
| LexerProperties.CaseInsensitive | main.ts:34-113 | a call gives the same style, cursor and flags on a line and on its upper-cased copy |
| LineDriver.Tokenize | main.ts:115-118 | the spans of one line are non-empty and cover the rest of the line in order; an empty rest makes no call and keeps the flags; otherwise at most one flag is left for the next line |
| LineDriver.TokenizeLine | main.ts:115-118 | the host loop over a fresh stream and the shared state object records exactly the spans of `Tokenize` and leaves the state with its final flags |
| WorkedExamples.LoopStaCounter | main.ts:73-101 | `LOOP STA COUNTER` from a start state gives `link` [0,5), `keyword` [5,9), `variable` [9,16) |
| WorkedExamples.CounterDat5 | main.ts:73-101 | `COUNTER DAT 5` from a start state gives `variable` [0,8), `def` [8,12), `number` [12,13) |

## Left out

- `LMCPlugin` (main.ts:127-160) is left out. It is Obsidian lifecycle glue: asynchronous callbacks, workspace events, and editor options set again on every leaf. Its `onunload` removes every mode whose name it lists, whoever installed it. The model states nothing about that.
- The `defineMode`/`defineMIME` calls (main.ts:120-125) are left out. They write CodeMirror's process-wide registry, which is foreign state.
- The `EditorConfiguration` argument of `LMCFormatter` (main.ts:3) is left out. The mode never reads it.
- The way the editor draws each style name is left out, because that is the host's job.
- Stream.StringStream.Column: this is the cursor index, not CodeMirror's tab-expanded column. The host sets the token start to the cursor before every call, and `countColumn` grows strictly with the index. So comparing `indentation()` with `column()` gives the same answer either way, but the model does not compute tab widths.
- Stream.StringStream.Indentation: this counts characters from the start of the line, with `lineStart` taken as 0 (the case for a whole editor line). It does not expand tabs.
- Text.IsSpace: JavaScript strings are UTF-16 code units, but the model's strings are Dafny characters. Code points outside the Basic Multilingual Plane are not split into surrogates, so none of them is whitespace, a digit or a word character.
- CodeMirror's `readToken` can call the token function up to ten times and throw when the stream does not advance. That is not modelled, because `NextToken` is proved to advance on every call that is not at the end of the line.
- rollup.config.js is build configuration and is not part of this model.
