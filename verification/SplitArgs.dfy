/** The word splitter of the admin shell.  Characters stand for the bytes of the input.

    The reference is a grammar: an input is a list of pieces, possibly followed by an
    unfinished one, and a word is a maximal run of pieces without a blank. */
module SplitArgs {
  import opened Seqs

  datatype Error = Unterminated(quote: char) | TrailingBackslash
  datatype Result = Words(args: seq<string>) | Failed(error: Error)

  // ----- the splitter, one character at a time -----------------------------

  /** `quote` is None outside quotes. */
  datatype State = State(out: seq<string>, cur: string, inWord: bool, quote: Option<char>, escape: bool)

  const START := State([], "", false, None, false)

  function Flush(s: State): State {
    if s.inWord then s.(out := s.out + [s.cur], cur := "", inWord := false) else s
  }

  function Step(s: State, c: char): State {
    if s.escape then s.(cur := s.cur + [c], escape := false, inWord := true)
    else if s.quote == Some('\'') then
      if c == '\'' then s.(quote := None, inWord := true) else s.(cur := s.cur + [c], inWord := true)
    else if s.quote == Some('"') then
      if c == '"' then s.(quote := None, inWord := true)
      else if c == '\\' then s.(escape := true, inWord := true)
      else s.(cur := s.cur + [c], inWord := true)
    else if c == ' ' || c == '\t' then Flush(s)
    else if c == '\'' || c == '"' then s.(quote := Some(c), inWord := true)
    else if c == '\\' then s.(escape := true)
    else s.(cur := s.cur + [c], inWord := true)
  }

  function Steps(s: State, input: string): State
    decreases |input|
  {
    if input == "" then s else Steps(Step(s, input[0]), input[1..])
  }

  function Finish(s: State): Result {
    if s.quote.Some? then Failed(Unterminated(s.quote.value))
    else if s.escape then Failed(TrailingBackslash)
    else Words(Flush(s).out)
  }

  function SplitSpec(input: string): Result {
    Finish(Steps(START, input))
  }

  lemma {:induction false} StepsConcat(s: State, a: string, b: string)
    ensures Steps(s, a + b) == Steps(Steps(s, a), b)
    decreases |a|
  {
    if a == "" {
      assert a + b == b;
    } else {
      assert (a + b)[1..] == a[1..] + b;
      StepsConcat(Step(s, a[0]), a[1..], b);
    }
  }

  lemma TwoSteps(s: State, a: char, b: char)
    ensures Steps(s, [a, b]) == Step(Step(s, a), b)
  {
    assert [a, b][1..] == [b];
    assert Steps(Step(s, a), [b]) == Step(Step(s, a), b);
  }

  /** The loop over the input with its mutable locals. */
  method SplitArgs(input: string) returns (r: Result)
    ensures r == SplitSpec(input)
  {
    var out: seq<string>, cur: string := [], "";
    var inWord, escape := false, false;
    var quote: Option<char> := None;
    for i := 0 to |input|
      invariant State(out, cur, inWord, quote, escape) == Steps(START, input[..i])
    {
      var c := input[i];
      StepsConcat(START, input[..i], [c]);
      assert input[..i + 1] == input[..i] + [c];
      assert Steps(Steps(START, input[..i]), [c]) == Step(Steps(START, input[..i]), c);
      if escape {
        cur, escape, inWord := cur + [c], false, true;
      } else if quote == Some('\'') {
        if c == '\'' { quote := None; } else { cur := cur + [c]; }
        inWord := true;
      } else if quote == Some('"') {
        if c == '"' { quote := None; } else if c == '\\' { escape := true; } else { cur := cur + [c]; }
        inWord := true;
      } else if c == ' ' || c == '\t' {
        if inWord { out, cur, inWord := out + [cur], "", false; }
      } else if c == '\'' || c == '"' {
        quote, inWord := Some(c), true;
      } else if c == '\\' {
        escape := true;
      } else {
        cur, inWord := cur + [c], true;
      }
    }
    assert input[..|input|] == input;
    if quote.Some? { return Failed(Unterminated(quote.value)); }
    if escape { return Failed(TrailingBackslash); }
    if inWord { out := out + [cur]; }
    return Words(out);
  }

  // ----- the grammar -------------------------------------------------------

  datatype Inner = Lit(c: char) | Esc(c: char)

  datatype Piece =
    | Blank(c: char)
    | Plain(c: char)
    | Escaped(c: char)
    | Single(body: string)
    | Double(inner: seq<Inner>)

  /** How an input can break off. */
  datatype Ending = Complete | OpenSingle(body: string) | OpenDouble(inner: seq<Inner>, dangling: bool) | Dangling

  predicate GoodInner(inner: seq<Inner>) {
    forall i :: 0 <= i < |inner| ==> (inner[i].Lit? ==> inner[i].c != '"' && inner[i].c != '\\')
  }

  predicate GoodPiece(p: Piece) {
    match p
    case Blank(c) => c == ' ' || c == '\t'
    case Plain(c) => c != ' ' && c != '\t' && c != '\'' && c != '"' && c != '\\'
    case Escaped(_) => true
    case Single(body) => '\'' !in body
    case Double(inner) => GoodInner(inner)
  }

  predicate Good(ps: seq<Piece>) {
    forall i :: 0 <= i < |ps| ==> GoodPiece(ps[i])
  }

  predicate GoodEnding(e: Ending) {
    match e
    case OpenSingle(body) => '\'' !in body
    case OpenDouble(inner, _) => GoodInner(inner)
    case _ => true
  }

  function RenderOne(x: Inner): string {
    if x.Lit? then [x.c] else ['\\', x.c]
  }

  function RenderInner(inner: seq<Inner>): string {
    if inner == [] then "" else RenderOne(inner[0]) + RenderInner(inner[1..])
  }

  function InnerText(inner: seq<Inner>): string {
    if inner == [] then "" else [inner[0].c] + InnerText(inner[1..])
  }

  function RenderPiece(p: Piece): string {
    match p
    case Blank(c) => [c]
    case Plain(c) => [c]
    case Escaped(c) => ['\\', c]
    case Single(body) => "'" + body + "'"
    case Double(inner) => "\"" + RenderInner(inner) + "\""
  }

  function Render(ps: seq<Piece>): string {
    if ps == [] then "" else RenderPiece(ps[0]) + Render(ps[1..])
  }

  function RenderEnding(e: Ending): string {
    match e
    case Complete => ""
    case OpenSingle(body) => "'" + body
    case OpenDouble(inner, dangling) => "\"" + RenderInner(inner) + (if dangling then "\\" else "")
    case Dangling => "\\"
  }

  /** The text that a piece contributes to its word. */
  function Text(p: Piece): string
    requires !p.Blank?
  {
    match p
    case Plain(c) => [c]
    case Escaped(c) => [c]
    case Single(body) => body
    case Double(inner) => InnerText(inner)
  }

  /** Length of the run of non-blank pieces at the front, and the word it spells. */
  function RunLength(ps: seq<Piece>): (n: nat)
    ensures n <= |ps|
  {
    if ps == [] || ps[0].Blank? then 0 else 1 + RunLength(ps[1..])
  }

  function RunText(ps: seq<Piece>): string {
    if ps == [] || ps[0].Blank? then "" else Text(ps[0]) + RunText(ps[1..])
  }

  /** The words of a list of pieces: one per maximal run of non-blank pieces. */
  function Meaning(ps: seq<Piece>): seq<string>
    decreases |ps|
  {
    if ps == [] then []
    else if ps[0].Blank? then Meaning(ps[1..])
    else [RunText(ps)] + Meaning(ps[RunLength(ps)..])
  }

  function EndResult(ps: seq<Piece>, e: Ending): Result {
    match e
    case Complete => Words(Meaning(ps))
    case OpenSingle(_) => Failed(Unterminated('\''))
    case OpenDouble(_, _) => Failed(Unterminated('"'))
    case Dangling => Failed(TrailingBackslash)
  }

  // ----- every grammatical input is split as the grammar says --------------

  predicate Outside(s: State) {
    s.quote.None? && !s.escape
  }

  lemma {:induction false} SingleBody(s: State, body: string)
    requires s.quote == Some('\'') && !s.escape && s.inWord && '\'' !in body
    ensures Steps(s, body) == s.(cur := s.cur + body)
    decreases |body|
  {
    if body == "" {
      assert s.cur + body == s.cur;
    } else {
      SingleBody(Step(s, body[0]), body[1..]);
      assert s.cur + body == s.cur + [body[0]] + body[1..];
    }
  }

  lemma InnerStep(s: State, x: Inner)
    requires s.quote == Some('"') && !s.escape && s.inWord && GoodInner([x])
    ensures Steps(s, RenderOne(x)) == s.(cur := s.cur + [x.c])
  {
    assert [x][0] == x;
    if x.Esc? { TwoSteps(s, '\\', x.c); } else { assert Steps(s, [x.c]) == Step(s, x.c); }
  }

  lemma InnerThen(s: State, x: Inner, rest: string)
    requires s.quote == Some('"') && !s.escape && s.inWord && GoodInner([x])
    ensures Steps(s, RenderOne(x) + rest) == Steps(s.(cur := s.cur + [x.c]), rest)
  {
    StepsConcat(s, RenderOne(x), rest);
    InnerStep(s, x);
  }

  lemma {:induction false} DoubleBody(s: State, inner: seq<Inner>)
    requires s.quote == Some('"') && !s.escape && s.inWord && GoodInner(inner)
    ensures Steps(s, RenderInner(inner)) == s.(cur := s.cur + InnerText(inner))
    decreases |inner|
  {
    if inner == [] {
      assert s.cur + "" == s.cur;
    } else {
      InnerThen(s, inner[0], RenderInner(inner[1..]));
      DoubleBody(s.(cur := s.cur + [inner[0].c]), inner[1..]);
      Regroup(s.cur, inner[0].c, InnerText(inner[1..]));
    }
  }

  lemma Regroup(a: string, c: char, b: string)
    ensures a + [c] + b == a + ([c] + b)
  {
  }

  /** One piece: a blank ends the current word, any other adds its text to it. */
  lemma PieceStep(s: State, p: Piece)
    requires Outside(s) && GoodPiece(p)
    ensures Steps(s, RenderPiece(p)) == if p.Blank? then Flush(s) else s.(cur := s.cur + Text(p), inWord := true)
  {
    match p
    case Blank(c) =>
    case Plain(c) =>
    case Escaped(c) =>
      TwoSteps(s, '\\', c);
    case Single(body) =>
      var q := s.(quote := Some('\''), inWord := true);
      StepsConcat(s, "'" + body, "'");
      StepsConcat(s, "'", body);
      assert Steps(s, "'") == q;
      SingleBody(q, body);
    case Double(inner) =>
      var q := s.(quote := Some('"'), inWord := true);
      StepsConcat(s, "\"" + RenderInner(inner), "\"");
      StepsConcat(s, "\"", RenderInner(inner));
      assert Steps(s, "\"") == q;
      DoubleBody(q, inner);
  }

  /** The splitter state after a list of pieces. */
  function AfterPieces(s: State, ps: seq<Piece>): State
    decreases |ps|
  {
    if ps == [] then s
    else if ps[0].Blank? then AfterPieces(Flush(s), ps[1..])
    else AfterPieces(s.(cur := s.cur + Text(ps[0]), inWord := true), ps[1..])
  }

  lemma {:induction false} PiecesStep(s: State, ps: seq<Piece>)
    requires Outside(s) && Good(ps)
    ensures Steps(s, Render(ps)) == AfterPieces(s, ps) && Outside(AfterPieces(s, ps))
    decreases |ps|
  {
    if ps != [] {
      PieceStep(s, ps[0]);
      StepsConcat(s, RenderPiece(ps[0]), Render(ps[1..]));
      PiecesStep(Steps(s, RenderPiece(ps[0])), ps[1..]);
    }
  }

  /** With an unfinished word the run at the front completes it; without one the words
      are those of the grammar. */
  function Completed(s: State, ps: seq<Piece>): seq<string> {
    if s.inWord then s.out + [s.cur + RunText(ps)] + Meaning(ps[RunLength(ps)..]) else s.out + Meaning(ps)
  }

  lemma CompletedBlank(s: State, ps: seq<Piece>)
    requires ps != [] && ps[0].Blank?
    ensures Completed(Flush(s), ps[1..]) == Completed(s, ps)
  {
    assert s.cur + "" == s.cur;
    assert ps[0..] == ps;
  }

  lemma CompletedText(s: State, ps: seq<Piece>)
    requires ps != [] && !ps[0].Blank? && (!s.inWord ==> s.cur == "")
    ensures Completed(s.(cur := s.cur + Text(ps[0]), inWord := true), ps[1..]) == Completed(s, ps)
  {
    assert s.cur + Text(ps[0]) + RunText(ps[1..]) == s.cur + RunText(ps);
    assert ps[1..][RunLength(ps[1..])..] == ps[RunLength(ps)..];
    if !s.inWord { assert "" + RunText(ps) == RunText(ps); }
    var rest := Meaning(ps[RunLength(ps)..]);
    assert s.out + [RunText(ps)] + rest == s.out + ([RunText(ps)] + rest);
  }

  lemma {:induction false} PiecesMeaning(s: State, ps: seq<Piece>)
    requires Outside(s) && (!s.inWord ==> s.cur == "")
    ensures Flush(AfterPieces(s, ps)).out == Completed(s, ps)
    decreases |ps|
  {
    if ps == [] {
      assert s.cur + "" == s.cur;
      assert s.out + [] == s.out;
    } else if ps[0].Blank? {
      CompletedBlank(s, ps);
      PiecesMeaning(Flush(s), ps[1..]);
    } else {
      CompletedText(s, ps);
      PiecesMeaning(s.(cur := s.cur + Text(ps[0]), inWord := true), ps[1..]);
    }
  }

  lemma EndingStep(s: State, e: Ending)
    requires Outside(s) && GoodEnding(e)
    ensures var t := Steps(s, RenderEnding(e));
            match e
            case Complete => t == s
            case OpenSingle(_) => t.quote == Some('\'')
            case OpenDouble(_, _) => t.quote == Some('"')
            case Dangling => t.quote.None? && t.escape
  {
    match e
    case Complete =>
    case Dangling =>
    case OpenSingle(body) =>
      StepsConcat(s, "'", body);
      SingleBody(Steps(s, "'"), body);
    case OpenDouble(inner, dangling) =>
      var tail := if dangling then "\\" else "";
      StepsConcat(s, "\"" + RenderInner(inner), tail);
      StepsConcat(s, "\"", RenderInner(inner));
      DoubleBody(Steps(s, "\""), inner);
  }

  /** However an input is read as pieces and an ending, the splitter returns the words of
      the pieces if it is complete, and otherwise the error that names what is open. */
  lemma SplitFollowsGrammar(ps: seq<Piece>, e: Ending)
    requires Good(ps) && GoodEnding(e)
    ensures SplitSpec(Render(ps) + RenderEnding(e)) == EndResult(ps, e)
  {
    StepsConcat(START, Render(ps), RenderEnding(e));
    PiecesStep(START, ps);
    EndingStep(AfterPieces(START, ps), e);
    PiecesMeaning(START, ps);
    assert START.out + Meaning(ps) == Meaning(ps);
  }

  // ----- every input is grammatical ----------------------------------------

  /** Reading one more character. */
  function Extend(ps: seq<Piece>, e: Ending, c: char): (seq<Piece>, Ending) {
    match e
    case Complete =>
      if c == ' ' || c == '\t' then (ps + [Blank(c)], Complete)
      else if c == '\'' then (ps, OpenSingle(""))
      else if c == '"' then (ps, OpenDouble([], false))
      else if c == '\\' then (ps, Dangling)
      else (ps + [Plain(c)], Complete)
    case OpenSingle(body) => if c == '\'' then (ps + [Single(body)], Complete) else (ps, OpenSingle(body + [c]))
    case OpenDouble(inner, dangling) =>
      if dangling then (ps, OpenDouble(inner + [Esc(c)], false))
      else if c == '"' then (ps + [Double(inner)], Complete)
      else if c == '\\' then (ps, OpenDouble(inner, true))
      else (ps, OpenDouble(inner + [Lit(c)], false))
    case Dangling => (ps + [Escaped(c)], Complete)
  }

  lemma {:induction false} RenderAppend(ps: seq<Piece>, p: Piece)
    ensures Render(ps + [p]) == Render(ps) + RenderPiece(p)
  {
    if ps == [] {
      assert [p][1..] == [] && ps + [p] == [p];
    } else {
      assert (ps + [p])[1..] == ps[1..] + [p];
      RenderAppend(ps[1..], p);
    }
  }

  lemma {:induction false} RenderInnerAppend(inner: seq<Inner>, x: Inner)
    ensures RenderInner(inner + [x]) == RenderInner(inner) + RenderOne(x)
  {
    if inner == [] {
      assert [x][1..] == [] && inner + [x] == [x];
    } else {
      assert (inner + [x])[1..] == inner[1..] + [x];
      RenderInnerAppend(inner[1..], x);
    }
  }

  lemma ExtendIsGood(ps: seq<Piece>, e: Ending, c: char)
    requires Good(ps) && GoodEnding(e)
    ensures Good(Extend(ps, e, c).0) && GoodEnding(Extend(ps, e, c).1)
  {
  }

  lemma ExtendDouble(ps: seq<Piece>, inner: seq<Inner>, c: char)
    requires c != '"' && c != '\\'
    ensures var (ps', e') := Extend(ps, OpenDouble(inner, false), c);
            Render(ps') + RenderEnding(e') == Render(ps) + RenderEnding(OpenDouble(inner, false)) + [c]
  {
    RenderInnerAppend(inner, Lit(c));
    var body := "\"" + RenderInner(inner);
    assert "\"" + (RenderInner(inner) + [c]) + "" == body + [c];
    assert Render(ps) + (body + [c]) == Render(ps) + (body + "") + [c];
  }

  lemma ExtendDangling(ps: seq<Piece>, inner: seq<Inner>, c: char)
    ensures var (ps', e') := Extend(ps, OpenDouble(inner, true), c);
            Render(ps') + RenderEnding(e') == Render(ps) + RenderEnding(OpenDouble(inner, true)) + [c]
  {
    RenderInnerAppend(inner, Esc(c));
    var body := "\"" + RenderInner(inner);
    assert "\"" + (RenderInner(inner) + ['\\', c]) + "" == body + ['\\', c];
    assert Render(ps) + (body + ['\\', c]) == Render(ps) + (body + "\\") + [c];
  }

  lemma CloseDouble(ps: seq<Piece>, inner: seq<Inner>)
    ensures var (ps', e') := Extend(ps, OpenDouble(inner, false), '"');
            Render(ps') + RenderEnding(e') == Render(ps) + RenderEnding(OpenDouble(inner, false)) + ['"']
  {
    RenderAppend(ps, Double(inner));
    var body := "\"" + RenderInner(inner);
    assert Render(ps) + (body + "\"") + "" == Render(ps) + (body + "") + ['"'];
  }

  lemma ExtendRenders(ps: seq<Piece>, e: Ending, c: char)
    ensures var (ps', e') := Extend(ps, e, c); Render(ps') + RenderEnding(e') == Render(ps) + RenderEnding(e) + [c]
  {
    match e
    case Complete =>
      if c == ' ' || c == '\t' { RenderAppend(ps, Blank(c)); }
      else if c != '\'' && c != '"' && c != '\\' { RenderAppend(ps, Plain(c)); }
    case OpenSingle(body) => RenderAppend(ps, Single(body));
    case OpenDouble(inner, dangling) =>
      if dangling { ExtendDangling(ps, inner, c); }
      else if c == '"' { CloseDouble(ps, inner); }
      else if c != '\\' { ExtendDouble(ps, inner, c); }
    case Dangling => RenderAppend(ps, Escaped(c));
  }

  /** Every input is a list of pieces with one of the four endings; together with
      `SplitFollowsGrammar`, the splitter fails exactly when the input ends inside a
      quote or after an unconsumed backslash. */
  lemma {:induction false} EveryInputParses(input: string) returns (ps: seq<Piece>, e: Ending)
    ensures Good(ps) && GoodEnding(e) && Render(ps) + RenderEnding(e) == input
    ensures SplitSpec(input) == EndResult(ps, e)
    decreases |input|
  {
    if input == "" {
      ps, e := [], Complete;
    } else {
      var n := |input| - 1;
      var ps0, e0 := EveryInputParses(input[..n]);
      ExtendRenders(ps0, e0, input[n]);
      ExtendIsGood(ps0, e0, input[n]);
      var next := Extend(ps0, e0, input[n]);
      ps, e := next.0, next.1;
      assert input == input[..n] + [input[n]];
    }
    SplitFollowsGrammar(ps, e);
  }

  // ----- quoting round trip ------------------------------------------------

  function Escapes(word: string): (inner: seq<Inner>)
    ensures GoodInner(inner)
  {
    if word == "" then []
    else [if word[0] == '"' || word[0] == '\\' then Esc(word[0]) else Lit(word[0])] + Escapes(word[1..])
  }

  /** A word in double quotes, its quotes and backslashes escaped. */
  function Quote(word: string): string {
    "\"" + QuoteBody(word) + "\""
  }

  function QuoteBody(word: string): string {
    if word == "" then ""
    else (if word[0] == '"' || word[0] == '\\' then ['\\', word[0]] else [word[0]]) + QuoteBody(word[1..])
  }

  function Join(words: seq<string>): string {
    if words == [] then "" else if |words| == 1 then Quote(words[0]) else Quote(words[0]) + " " + Join(words[1..])
  }

  function Pieces(words: seq<string>): seq<Piece> {
    if words == [] then []
    else if |words| == 1 then [Double(Escapes(words[0]))]
    else [Double(Escapes(words[0])), Blank(' ')] + Pieces(words[1..])
  }

  lemma {:induction false} QuoteIsPiece(word: string)
    ensures RenderInner(Escapes(word)) == QuoteBody(word) && InnerText(Escapes(word)) == word
  {
    if word != "" {
      QuoteIsPiece(word[1..]);
      assert Escapes(word)[1..] == Escapes(word[1..]);
      assert word == [word[0]] + word[1..];
    }
  }

  lemma {:induction false} JoinIsRendered(words: seq<string>)
    ensures Good(Pieces(words)) && Render(Pieces(words)) == Join(words)
    decreases |words|
  {
    if words != [] {
      var p := Double(Escapes(words[0]));
      QuoteIsPiece(words[0]);
      assert RenderPiece(p) == Quote(words[0]);
      if |words| == 1 {
        assert [p][1..] == [] && Render([p]) == RenderPiece(p) + "";
      } else {
        var rest := Pieces(words[1..]);
        JoinIsRendered(words[1..]);
        var ps := [p, Blank(' ')] + rest;
        assert ps[1..] == [Blank(' ')] + rest && ps[1..][1..] == rest;
        assert Render(ps) == RenderPiece(p) + (" " + Render(rest));
      }
    }
  }

  lemma MeaningOfTwo(p: Piece, rest: seq<Piece>)
    requires !p.Blank?
    ensures Meaning([p, Blank(' ')] + rest) == [Text(p)] + Meaning(rest)
  {
    var ps := [p, Blank(' ')] + rest;
    assert ps[1..] == [Blank(' ')] + rest && ps[1..][1..] == rest;
    assert RunLength(ps[1..]) == 0 && RunLength(ps) == 1;
    assert RunText(ps) == Text(p) + "" == Text(p);
  }

  lemma QuoteText(word: string)
    ensures Text(Double(Escapes(word))) == word
  {
    QuoteIsPiece(word);
  }

  lemma MeaningOfOne(p: Piece)
    requires !p.Blank?
    ensures Meaning([p]) == [Text(p)]
  {
    assert [p][1..] == [];
    assert RunText([p]) == Text(p) + "" == Text(p);
  }

  lemma {:induction false} JoinMeansWords(words: seq<string>)
    ensures Meaning(Pieces(words)) == words
    decreases |words|
  {
    if words != [] {
      var p := Double(Escapes(words[0]));
      QuoteText(words[0]);
      if |words| == 1 {
        MeaningOfOne(p);
        assert words == [words[0]];
      } else {
        JoinMeansWords(words[1..]);
        MeaningOfTwo(p, Pieces(words[1..]));
        assert words == [words[0]] + words[1..];
      }
    }
  }

  /** Quoting each word of any list, empty words included, and joining with spaces is
      undone by the splitter. */
  lemma QuotingRoundTrip(words: seq<string>)
    ensures SplitSpec(Join(words)) == Words(words)
  {
    JoinIsRendered(words);
    JoinMeansWords(words);
    SplitFollowsGrammar(Pieces(words), Complete);
    assert Render(Pieces(words)) + "" == Join(words);
  }
}
