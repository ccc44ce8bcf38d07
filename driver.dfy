/** The host's side of a mode: CodeMirror calls the token function until
    the stream reaches the end of the line, recording one span per call, and
    hands the same state object to the next line. */
module LineDriver {
  import opened Wrappers
  import opened Stream
  import opened Lexer

  /** One call's result as the host records it: the style and the text
      `[start, end)` it covers. */
  datatype Span = Span(style: Option<Style>, start: nat, end: nat)

  /** The spans of a line and the flags left for the next line. */
  datatype LineResult = LineResult(spans: seq<Span>, flags: Flags)

  /** `spans` cover `[i, n)` in order, each one non-empty. */
  predicate Tiles(spans: seq<Span>, i: nat, n: nat)
    decreases |spans|
  {
    if spans == [] then i == n
    else spans[0].start == i && i < spans[0].end && Tiles(spans[1..], spans[0].end, n)
  }

  /** The rest of line `s` from `i` on, tokenised from flags `f`. The spans
      cover the rest of the line exactly; an empty rest makes no call and
      leaves the flags alone; otherwise at most one flag survives. */
  function Tokenize(s: string, i: nat, f: Flags): (r: LineResult)
    requires i <= |s|
    ensures Tiles(r.spans, i, |s|)
    ensures i == |s| ==> r.flags == f
    ensures i < |s| ==> AtMostOneFlag(r.flags)
    decreases |s| - i
  {
    if i == |s| then LineResult([], f)
    else
      var t := NextToken(s, i, f);
      var rest := Tokenize(s, t.pos, t.flags);
      assert ([Span(t.style, i, t.pos)] + rest.spans)[1..] == rest.spans;
      LineResult([Span(t.style, i, t.pos)] + rest.spans, rest.flags)
  }

  /** Regrouping a concatenation of three sequences. */
  lemma {:induction false} AppendAssoc<T>(a: seq<T>, b: seq<T>, c: seq<T>)
    ensures (a + b) + c == a + (b + c)
  {
  }

  /** Highlighting one line: a fresh stream over `line`, and `state` as the
      previous line left it; `tokenCallback` is called until end of line. */
  method TokenizeLine(line: string, state: LexerState) returns (spans: seq<Span>)
    modifies state
    ensures spans == Tokenize(line, 0, old(state.Snapshot())).spans
    ensures state.Snapshot() == Tokenize(line, 0, old(state.Snapshot())).flags
  {
    ghost var whole := Tokenize(line, 0, state.Snapshot());
    var stream := new StringStream(line);
    spans := [];
    while !stream.Eol()
      invariant stream.Valid() && stream.line == line
      invariant whole.spans == spans + Tokenize(line, stream.pos, state.Snapshot()).spans
      invariant whole.flags == Tokenize(line, stream.pos, state.Snapshot()).flags
      decreases |line| - stream.pos
    {
      var start := stream.pos;
      ghost var before := state.Snapshot();
      var style := TokenCallback(stream, state);
      var span := Span(style, start, stream.pos);
      ghost var rest := Tokenize(line, stream.pos, state.Snapshot());
      assert Tokenize(line, start, before).spans == [span] + rest.spans;
      assert Tokenize(line, start, before).flags == rest.flags;
      AppendAssoc(spans, [span], rest.spans);
      spans := spans + [span];
    }
    assert spans + [] == spans;
  }
}
