/** What a script is made of: quoted text, comments, bracketed names, words,
    semicolons and the rest. Splitting a script cuts it exactly at the
    semicolons between them that no trigger's body holds. */
module SqlTokens {
  import opened SqlSplitter

  // `closed` unless the script ends first.
  datatype Token =
    | Quoted(quote: char, content: string, closed: bool)
    | LineComment(content: string, closed: bool)
    | BlockComment(content: string, closed: bool)
    | Bracketed(content: string, closed: bool)
    | Word(text: string)
    | Semicolon
    | Other(c: char)

  // Text with each of its quotes doubled.
  function Doubled(content: string, quote: char): string {
    if content == "" then ""
    else (if content[0] == quote then [quote, quote] else [content[0]]) + Doubled(content[1..], quote)
  }

  function Written(token: Token): string {
    match token
    case Quoted(quote, content, closed) => [quote] + Doubled(content, quote) + if closed then [quote] else ""
    case LineComment(content, closed) => "--" + content + if closed then "\n" else ""
    case BlockComment(content, closed) => "/*" + content + if closed then "*/" else ""
    case Bracketed(content, closed) => "[" + content + if closed then "]" else ""
    case Word(text) => text
    case Semicolon => ";"
    case Other(c) => [c]
  }

  function Text(tokens: seq<Token>): string {
    if tokens == [] then "" else Written(tokens[0]) + Text(tokens[1..])
  }

  predicate IsOpen(token: Token) {
    match token
    case Quoted(_, _, closed) => !closed
    case LineComment(_, closed) => !closed
    case BlockComment(_, closed) => !closed
    case Bracketed(_, closed) => !closed
    case _ => false
  }

  // Letters, digits, `_` and `$`.
  predicate OfWords(c: char) {
    || 'a' <= c <= 'z' || 'A' <= c <= 'Z' || '0' <= c <= '9' || c == '_' || c == '$'
  }

  predicate Proper(token: Token) {
    match token
    case Quoted(quote, _, _) => quote == '\'' || quote == '"' || quote == '`'
    case LineComment(content, _) => '\n' !in content
    case BlockComment(content, _) => forall i | 0 <= i < |content| - 1 :: !(content[i] == '*' && content[i + 1] == '/')
    case Bracketed(content, _) => ']' !in content
    case Word(text) => text != "" && forall i | 0 <= i < |text| :: OfWords(text[i])
    case Semicolon => true
    case Other(c) => !OfWords(c) && c != ';' && c != '\'' && c != '"' && c != '`' && c != '['
  }

  // Whether `next` can come after `token` as one of its own. Words run
  // together, a quote after quoted text would double its own, and two hyphens,
  // or a slash and a star, begin a comment.
  predicate CanFollow(token: Token, next: Token) {
    match token
    case Word(_) => !next.Word?
    case Quoted(quote, _, closed) => closed && !(next.Quoted? && next.quote == quote)
    case Other(c) => !(c == '-' && (next == Other('-') || next.LineComment?)) && !(c == '/' && next == Other('*'))
    case _ => !IsOpen(token)
  }

  predicate WellFormed(tokens: seq<Token>) {
    && (forall i | 0 <= i < |tokens| :: Proper(tokens[i]))
    && (forall i | 0 <= i < |tokens| - 1 :: CanFollow(tokens[i], tokens[i + 1]))
  }

  // The words among them.
  function Words(tokens: seq<Token>): seq<string> {
    if tokens == [] then []
    else
      var last := |tokens| - 1;
      Words(tokens[..last]) + if tokens[last].Word? then [tokens[last].text] else []
  }

  // A word that is this keyword, in capitals or not.
  predicate Says(word: string, keyword: string) {
    |word| == |keyword|
    && forall i | 0 <= i < |word| ::
         word[i] == keyword[i] || ('a' <= word[i] <= 'z' && word[i] as int - 32 == keyword[i] as int)
  }

  function Tally(words: seq<string>, keyword: string): nat {
    if words == [] then 0
    else Tally(words[..|words| - 1], keyword) + if Says(words[|words| - 1], keyword) then 1 else 0
  }

  // Whether a statement that has begun so is a trigger whose body is still
  // open: CREATE first, TRIGGER among the next three words, and no END yet that
  // closes no CASE.
  ghost predicate HoldsOpen(tokens: seq<Token>) {
    var words := Words(tokens);
    && words != [] && Says(words[0], "CREATE")
    && (exists i | 1 <= i <= 3 :: i < |words| && Says(words[i], "TRIGGER"))
    && forall k | 0 <= k <= |words| :: Tally(words[..k], "END") <= Tally(words[..k], "CASE")
  }

  // The tokens from one cut to the next, after `before`: each semicolon cuts
  // but those that a trigger's body holds.
  ghost function Pieces(before: seq<Token>, tokens: seq<Token>): (pieces: seq<seq<Token>>)
    ensures pieces != []
    decreases |tokens|
  {
    if tokens == [] then [before]
    else if tokens[0] == Semicolon && !HoldsOpen(before) then [before] + Pieces([], tokens[1..])
    else Pieces(before + [tokens[0]], tokens[1..])
  }

  // Those that say anything.
  ghost function Saying(pieces: seq<seq<Token>>): seq<seq<Token>> {
    if pieces == [] then []
    else (if Words(pieces[0]) != [] then [pieces[0]] else []) + Saying(pieces[1..])
  }

  // White space and line ends, as ECMAScript has them.
  predicate WhiteSpace(c: char) {
    || c as int in {0x09, 0x0A, 0x0B, 0x0C, 0x0D, 0x20, 0xA0, 0x1680, 0x2028, 0x2029, 0x202F, 0x205F, 0x3000, 0xFEFF}
    || 0x2000 <= c as int <= 0x200A
  }

  // `statement` is `text` less the white space at its ends.
  ghost predicate Trimmed(text: string, statement: string) {
    exists from, until | 0 <= from <= until <= |text| ::
      && statement == text[from..until]
      && (forall i | 0 <= i < from :: WhiteSpace(text[i])) && (forall i | until <= i < |text| :: WhiteSpace(text[i]))
      && (from < until ==> !WhiteSpace(text[from]) && !WhiteSpace(text[until - 1]))
  }

  // ---- A script is such tokens.

  lemma {:induction false} TextAdds(left: seq<Token>, right: seq<Token>)
    ensures Text(left + right) == Text(left) + Text(right)
  {
    if left == [] {
      assert left + right == right;
    } else {
      assert (left + right)[1..] == left[1..] + right;
      TextAdds(left[1..], right);
    }
  }

  lemma WellFormedAfter(tokens: seq<Token>, k: nat)
    requires WellFormed(tokens) && k <= |tokens|
    ensures WellFormed(tokens[k..])
  {
    hide Proper, CanFollow;
    var rest := tokens[k..];
    forall i | 0 <= i < |rest| ensures Proper(rest[i]) && (i < |rest| - 1 ==> CanFollow(rest[i], rest[i + 1])) {
      assert rest[i] == tokens[k + i];
      if i < |rest| - 1 { assert rest[i + 1] == tokens[k + (i + 1)]; }
    }
  }

  // ---- What each token is read as.

  lemma {:induction false} QuoteReads(content: string, quote: char, rest: string)
    requires rest == "" || rest[0] != quote
    ensures QuoteEnd(Doubled(content, quote) + ([quote] + rest), quote) == |Doubled(content, quote)| + 1
    ensures QuoteEnd(Doubled(content, quote), quote) == |Doubled(content, quote)|
  {
    var doubled := Doubled(content, quote);
    if content == "" {
      assert doubled + ([quote] + rest) == [quote] + rest;
    } else {
      var n := if content[0] == quote then 2 else 1;
      var less := Doubled(content[1..], quote);
      assert doubled[n..] == less && (doubled + ([quote] + rest))[n..] == less + ([quote] + rest);
      QuoteReads(content[1..], quote, rest);
    }
  }

  lemma {:induction false} BlockReads(content: string, rest: string)
    requires forall i | 0 <= i < |content| - 1 :: !(content[i] == '*' && content[i + 1] == '/')
    ensures BlockEnd(content + ("*/" + rest)) == |content| + 2
    ensures BlockEnd(content) == |content|
  {
    if content == "" {
      assert content + ("*/" + rest) == "*/" + rest;
    } else {
      var less := content[1..];
      assert (content + ("*/" + rest))[1..] == less + ("*/" + rest);
      assert forall i | 0 <= i < |less| - 1 :: less[i] == content[i + 1];
      BlockReads(less, rest);
    }
  }

  lemma {:induction false} ThroughReads(content: string, c: char, rest: string)
    requires c !in content
    ensures Through(content + ([c] + rest), c) == |content| + 1 && Through(content, c) == |content|
  {
    ThroughAdds(content, [c] + rest, c);
    ThroughAdds(content, "", c);
  }

  // Where the text after a token begins.
  lemma {:induction false} FirstOf(tokens: seq<Token>)
    requires WellFormed(tokens) && tokens != []
    ensures Text(tokens) != "" && Written(tokens[0]) != "" && Text(tokens)[0] == Written(tokens[0])[0]
    ensures Text(tokens)[|Written(tokens[0])|..] == Text(tokens[1..])
  {
    assert Proper(tokens[0]);
  }

  predicate Passes(token: Token) {
    token.Quoted? || token.LineComment? || token.BlockComment? || token.Bracketed?
  }

  // Quoted text, a comment and a bracketed name are each passed over whole.
  lemma {:induction false} PassesWhole(tokens: seq<Token>)
    requires WellFormed(tokens) && tokens != [] && Passes(tokens[0])
    ensures Skips(Text(tokens)) && SkipLength(Text(tokens)) == |Written(tokens[0])|
  {
    var token, rest := tokens[0], Text(tokens[1..]);
    assert Proper(token);
    FirstOf(tokens);
    if |tokens| > 1 {
      WellFormedAfter(tokens, 1);
      FirstOf(tokens[1..]);
      assert CanFollow(tokens[0], tokens[1]) && Proper(tokens[1]);
    }
    assert IsOpen(token) ==> rest == "";
    PassReads(token, rest);
  }

  lemma PassReads(token: Token, rest: string)
    requires Passes(token) && Proper(token) && (IsOpen(token) ==> rest == "")
    requires token.Quoted? && rest != "" ==> rest[0] != token.quote
    ensures Skips(Written(token) + rest) && SkipLength(Written(token) + rest) == |Written(token)|
  {
    hide Through, BlockEnd, QuoteEnd, Doubled, Skips, SkipLength;
    match token
    case Quoted(quote, content, closed) => QuotedPasses(quote, content, closed, rest);
    case LineComment(content, closed) => LinePasses(content, closed, rest);
    case BlockComment(content, closed) => BlockPasses(content, closed, rest);
    case Bracketed(content, closed) => BracketPasses(content, closed, rest);
  }

  lemma QuotedPasses(quote: char, content: string, closed: bool, rest: string)
    requires Proper(Quoted(quote, content, closed))
    requires if closed then rest == "" || rest[0] != quote else rest == ""
    ensures var text := Written(Quoted(quote, content, closed)) + rest;
            Skips(text) && SkipLength(text) == |Written(Quoted(quote, content, closed))|
  {
    hide Through, BlockEnd, QuoteEnd, Doubled;
    var text, doubled := Written(Quoted(quote, content, closed)) + rest, Doubled(content, quote);
    QuoteReads(content, quote, rest);
    assert text[1..] == doubled + if closed then [quote] + rest else "";
    assert doubled + "" == doubled;
  }

  lemma LinePasses(content: string, closed: bool, rest: string)
    requires Proper(LineComment(content, closed)) && (!closed ==> rest == "")
    ensures var text := Written(LineComment(content, closed)) + rest;
            Skips(text) && SkipLength(text) == |Written(LineComment(content, closed))|
  {
    hide Through, BlockEnd, QuoteEnd;
    var text := Written(LineComment(content, closed)) + rest;
    ThroughReads("--" + content, '\n', rest);
    assert text == ("--" + content) + if closed then "\n" + rest else "";
    assert ("--" + content) + "" == "--" + content;
  }

  lemma BlockPasses(content: string, closed: bool, rest: string)
    requires Proper(BlockComment(content, closed)) && (!closed ==> rest == "")
    ensures var text := Written(BlockComment(content, closed)) + rest;
            Skips(text) && SkipLength(text) == |Written(BlockComment(content, closed))|
  {
    hide Through, BlockEnd, QuoteEnd;
    var text := Written(BlockComment(content, closed)) + rest;
    BlockReads(content, rest);
    assert text[2..] == content + if closed then "*/" + rest else "";
    assert content + "" == content;
  }

  lemma BracketPasses(content: string, closed: bool, rest: string)
    requires Proper(Bracketed(content, closed)) && (!closed ==> rest == "")
    ensures var text := Written(Bracketed(content, closed)) + rest;
            Skips(text) && SkipLength(text) == |Written(Bracketed(content, closed))|
  {
    hide Through, BlockEnd, QuoteEnd;
    var text := Written(Bracketed(content, closed)) + rest;
    ThroughReads(content, ']', rest);
    assert text[1..] == content + if closed then "]" + rest else "";
    assert content + "" == content;
  }

  // No other token is.
  lemma {:induction false} PassesNot(tokens: seq<Token>)
    requires WellFormed(tokens) && tokens != [] && !Passes(tokens[0])
    ensures !Skips(Text(tokens))
  {
    var token := tokens[0];
    assert Proper(token);
    FirstOf(tokens);
    if |tokens| > 1 {
      WellFormedAfter(tokens, 1);
      FirstOf(tokens[1..]);
      assert CanFollow(tokens[0], tokens[1]) && Proper(tokens[1]);
    }
    if token.Word? { assert OfWords(token.text[0]); }
  }

  // ---- Words as they are counted.

  function Uppers(words: seq<string>): seq<string> {
    seq(|words|, i requires 0 <= i < |words| => Upper(words[i]))
  }

  predicate Capitals(keyword: string) {
    forall i | 0 <= i < |keyword| :: 'A' <= keyword[i] <= 'Z'
  }

  lemma SaysMeans(word: string, keyword: string)
    requires Capitals(keyword)
    ensures Upper(word) == keyword <==> Says(word, keyword)
  {
    var upper := Upper(word);
    if |word| == |keyword| {
      assert forall i | 0 <= i < |word| ::
          upper[i] == keyword[i] <==>
          (word[i] == keyword[i] || ('a' <= word[i] <= 'z' && word[i] as int - 32 == keyword[i] as int));
    }
  }

  lemma {:induction false} TallyMeans(words: seq<string>, keyword: string)
    requires Capitals(keyword)
    ensures Count(Uppers(words), keyword) == Tally(words, keyword)
  {
    if words != [] {
      var last := |words| - 1;
      assert Uppers(words)[..last] == Uppers(words[..last]);
      TallyMeans(words[..last], keyword);
      SaysMeans(words[last], keyword);
    }
  }

  lemma {:induction false} EndsMeans(tokens: seq<Token>)
    ensures Ends(Uppers(Words(tokens))) <==> !HoldsOpen(tokens)
  {
    var words := Words(tokens);
    var uppers := Uppers(words);
    hide Upper, Says, Words, Count, Tally;
    forall i | 0 <= i < |words|
      ensures uppers[i] == "CREATE" <==> Says(words[i], "CREATE")
      ensures uppers[i] == "TRIGGER" <==> Says(words[i], "TRIGGER")
    {
      SaysMeans(words[i], "CREATE");
      SaysMeans(words[i], "TRIGGER");
    }
    forall k | 0 <= k <= |words|
      ensures Count(uppers[..k], "END") == Tally(words[..k], "END")
      ensures Count(uppers[..k], "CASE") == Tally(words[..k], "CASE")
    {
      assert uppers[..k] == Uppers(words[..k]);
      TallyMeans(words[..k], "END");
      TallyMeans(words[..k], "CASE");
    }
    assert MakesTrigger(uppers) <==>
           words != [] && Says(words[0], "CREATE")
           && exists i | 1 <= i <= 3 :: i < |words| && Says(words[i], "TRIGGER");
  }

  // The words behind the splitter, and the one it is in.
  function Behind(tokens: seq<Token>): seq<string> {
    if tokens != [] && tokens[|tokens| - 1].Word? then Uppers(Words(tokens[..|tokens| - 1]))
    else Uppers(Words(tokens))
  }

  function Within(tokens: seq<Token>): string {
    if tokens != [] && tokens[|tokens| - 1].Word? then tokens[|tokens| - 1].text else ""
  }

  lemma {:induction false} BehindAll(tokens: seq<Token>)
    requires tokens != [] ==> Proper(tokens[|tokens| - 1])
    ensures Flushed(Behind(tokens), Within(tokens)) == Uppers(Words(tokens))
  {
    hide Upper;
    if tokens != [] && tokens[|tokens| - 1].Word? {
      var less, word := Words(tokens[..|tokens| - 1]), tokens[|tokens| - 1].text;
      assert Words(tokens) == less + [word];
      assert Uppers(less + [word]) == Uppers(less) + [Upper(word)];
    }
  }

  lemma {:induction false} BehindMore(tokens: seq<Token>, token: Token)
    ensures !token.Word? ==> Behind(tokens + [token]) == Uppers(Words(tokens)) && Within(tokens + [token]) == ""
    ensures token.Word? ==> Behind(tokens + [token]) == Uppers(Words(tokens)) && Within(tokens + [token]) == token.text
  {
    assert (tokens + [token])[..|tokens|] == tokens;
  }

  lemma {:induction false} WordRuns(text: string, rest: string, words: seq<string>, word: string)
    requires forall i | 0 <= i < |text| :: WordCharacter(text[i])
    ensures var segment := SegmentOf(rest, words, word + text);
            SegmentOf(text + rest, words, word) == Segment(|text| + segment.length, segment.words)
    decreases |text|
  {
    if text == "" {
      assert text + rest == rest && word + text == word;
    } else {
      assert (text + rest)[1..] == text[1..] + rest && word + [text[0]] + text[1..] == word + text;
      WordRuns(text[1..], rest, words, word + [text[0]]);
    }
  }

  ghost predicate Joins(before: seq<Token>, tokens: seq<Token>) {
    && WellFormed(tokens) && (before != [] ==> Proper(before[|before| - 1]))
    && (before != [] && tokens != [] ==> CanFollow(before[|before| - 1], tokens[0]))
  }

  lemma JoinsOn(before: seq<Token>, tokens: seq<Token>)
    requires Joins(before, tokens) && tokens != []
    ensures Joins(before + [tokens[0]], tokens[1..])
  {
    hide Proper, CanFollow;
    WellFormedAfter(tokens, 1);
    assert Proper(tokens[0]);
    if |tokens| > 1 { assert CanFollow(tokens[0], tokens[0 + 1]); }
  }

  // One step of the splitter that isn't part of a word.
  lemma {:induction false} SegmentStep(text: string, words: seq<string>, word: string)
    requires text != ""
    ensures var segment, flushed := SegmentOf(text, words, word), Flushed(words, word);
            if Skips(text) then
              var rest := SegmentOf(text[SkipLength(text)..], flushed, "");
              segment == Segment(SkipLength(text) + rest.length, rest.words)
            else if text[0] == ';' && Ends(flushed) then segment == Segment(0, flushed)
            else if WordCharacter(text[0]) then true
            else
              var rest := SegmentOf(text[1..], flushed, "");
              segment == Segment(1 + rest.length, rest.words)
  {
    hide Skips, SkipLength, Ends, Flushed;
  }

  // One token's part of the statement it is in.
  lemma {:induction false} SegmentToken(before: seq<Token>, tokens: seq<Token>)
    requires Joins(before, tokens) && tokens != []
    ensures var segment, more := SegmentOf(Text(tokens), Behind(before), Within(before)), before + [tokens[0]];
            if tokens[0] == Semicolon && !HoldsOpen(before) then segment == Segment(0, Uppers(Words(before)))
            else
              var rest := SegmentOf(Text(tokens[1..]), Behind(more), Within(more));
              segment == Segment(|Written(tokens[0])| + rest.length, rest.words)
  {
    hide SegmentOf, Uppers, Words, Behind, Within, HoldsOpen, Ends, Skips, SkipLength, WellFormed, Text, Written,
      Flushed, Proper, CanFollow, WordCharacter;
    var token, text := tokens[0], Text(tokens);
    BehindAll(before);
    BehindMore(before, token);
    EndsMeans(before);
    FirstOf(tokens);
    OneCharacter(tokens);
    if Passes(token) { PassesWhole(tokens); } else { PassesNot(tokens); }
    if token.Word? {
      WordBegins(before, tokens);
      WordRuns(token.text, Text(tokens[1..]), Behind(before), "");
      assert "" + token.text == token.text;
    } else {
      SegmentStep(text, Behind(before), Within(before));
    }
  }

  // What a token that isn't passed over is written as.
  lemma {:induction false} OneCharacter(tokens: seq<Token>)
    requires WellFormed(tokens) && tokens != []
    ensures var token := tokens[0];
            && (token.Word? ==> forall i | 0 <= i < |token.text| :: WordCharacter(token.text[i]))
            && (token.Word? ==> Written(token) == token.text && Text(tokens) == token.text + Text(tokens[1..]))
            && (token == Semicolon <==> !Passes(token) && !token.Word? && Text(tokens)[0] == ';')
            && (!Passes(token) && !token.Word? ==> |Written(token)| == 1 && !WordCharacter(Text(tokens)[0]))
  {
    assert Proper(tokens[0]);
    FirstOf(tokens);
  }

  lemma {:induction false} WordBegins(before: seq<Token>, tokens: seq<Token>)
    requires Joins(before, tokens) && tokens != [] && tokens[0].Word?
    ensures Within(before) == "" && Behind(before) == Uppers(Words(before))
  {
  }

  // ---- Where a script is cut.

  ghost function FirstCut(before: seq<Token>, tokens: seq<Token>): (k: nat)
    ensures k <= |tokens|
    decreases |tokens|
  {
    if tokens == [] || (tokens[0] == Semicolon && !HoldsOpen(before)) then 0
    else 1 + FirstCut(before + [tokens[0]], tokens[1..])
  }

  lemma {:induction false} NothingLeft(before: seq<Token>)
    requires Joins(before, [])
    ensures SegmentOf(Text([]), Behind(before), Within(before)) == Segment(0, Uppers(Words(before)))
  {
    BehindAll(before);
  }

  lemma {:induction false} SegmentTokens(before: seq<Token>, tokens: seq<Token>)
    requires Joins(before, tokens)
    ensures var k := FirstCut(before, tokens);
            SegmentOf(Text(tokens), Behind(before), Within(before)) ==
            Segment(|Text(tokens[..k])|, Uppers(Words(before + tokens[..k])))
    decreases |tokens|
  {
    hide SegmentOf, Behind, Within, Uppers, Words, HoldsOpen, Joins, Written;
    var k := FirstCut(before, tokens);
    if tokens == [] {
      NothingLeft(before);
      assert before + tokens[..0] == before;
    } else {
      SegmentToken(before, tokens);
      if tokens[0] == Semicolon && !HoldsOpen(before) {
        assert before + tokens[..0] == before;
      } else {
        JoinsOn(before, tokens);
        SegmentTokens(before + [tokens[0]], tokens[1..]);
        assert tokens[..k][1..] == tokens[1..][..k - 1] && tokens[..k][0] == tokens[0];
        assert |Text(tokens[..k])| == |Written(tokens[0])| + |Text(tokens[1..][..k - 1])|;
        assert before + [tokens[0]] + tokens[1..][..k - 1] == before + tokens[..k];
      }
    }
  }

  lemma {:induction false} PiecesAt(before: seq<Token>, tokens: seq<Token>)
    ensures var k := FirstCut(before, tokens);
            && (k < |tokens| ==> tokens[k] == Semicolon)
            && Pieces(before, tokens) ==
               [before + tokens[..k]] + if k < |tokens| then Pieces([], tokens[k + 1..]) else []
    decreases |tokens|
  {
    hide FirstCut, Pieces;
    CutStep(before, tokens);
    if FirstCut(before, tokens) > 0 {
      var rest, more := tokens[1..], before + [tokens[0]];
      PiecesAt(more, rest);
      ShiftedCut(before, tokens, FirstCut(more, rest));
    } else {
      assert before + tokens[..0] == before;
    }
  }

  lemma {:induction false} CutStep(before: seq<Token>, tokens: seq<Token>)
    ensures var k := FirstCut(before, tokens);
            && (k == 0 ==> Pieces(before, tokens) == [before] + if tokens != [] then Pieces([], tokens[1..]) else [])
            && (k == 0 && tokens != [] ==> tokens[0] == Semicolon)
            && (k > 0 ==>
                  && k == 1 + FirstCut(before + [tokens[0]], tokens[1..])
                  && Pieces(before, tokens) == Pieces(before + [tokens[0]], tokens[1..]))
  {
    hide HoldsOpen;
  }

  lemma ShiftedCut(before: seq<Token>, tokens: seq<Token>, k: nat)
    requires tokens != [] && k < |tokens|
    ensures before + [tokens[0]] + tokens[1..][..k] == before + tokens[..k + 1]
    ensures k + 1 < |tokens| ==> tokens[1..][k] == tokens[k + 1] && tokens[1..][k + 1..] == tokens[k + 2..]
  {
  }

  lemma {:induction false} TextBegins(tokens: seq<Token>)
    ensures Text(tokens) == if tokens == [] then "" else Written(tokens[0]) + Text(tokens[1..])
  {
  }

  lemma SemicolonWritten()
    ensures Written(Semicolon) == ";"
  {
  }

  lemma {:induction false} CutText(tokens: seq<Token>, k: nat)
    requires k <= |tokens| && (k < |tokens| ==> tokens[k] == Semicolon)
    ensures var text, n := Text(tokens), |Text(tokens[..k])|;
            && n <= |text| && text[..n] == Text(tokens[..k]) && (n < |text| <==> k < |tokens|)
            && (k < |tokens| ==> text[n + 1..] == Text(tokens[k + 1..]))
  {
    hide Text, Written;
    assert tokens == tokens[..k] + tokens[k..];
    TextAdds(tokens[..k], tokens[k..]);
    TextBegins(tokens[k..]);
    if k < |tokens| {
      assert tokens[k..][1..] == tokens[k + 1..];
      SemicolonWritten();
    }
  }

  lemma BlankMeans(c: char)
    ensures Blank(c) <==> WhiteSpace(c)
  {
  }

  lemma TrimTrims(text: string)
    ensures Trimmed(text, Trim(text))
  {
    hide Blank, WhiteSpace;
    var from := Leading(text);
    var rest := text[from..];
    var until := |text| - Trailing(rest);
    forall i | 0 <= i < |text| ensures Blank(text[i]) <==> WhiteSpace(text[i]) { BlankMeans(text[i]); }
    assert forall i | until <= i < |text| :: text[i] == rest[i - from];
    assert Trim(text) == text[from..until];
  }

  // A word isn't trimmed away.
  lemma {:induction false} WordsStay(tokens: seq<Token>)
    requires WellFormed(tokens) && Words(tokens) != []
    ensures exists i :: 0 <= i < |Text(tokens)| && OfWords(Text(tokens)[i])
  {
    var last := |tokens| - 1;
    assert tokens == tokens[..last] + [tokens[last]];
    TextAdds(tokens[..last], [tokens[last]]);
    var before := Text(tokens[..last]);
    assert Text([tokens[last]]) == Written(tokens[last]);
    if tokens[last].Word? {
      assert Proper(tokens[last]);
      assert OfWords(Text(tokens)[|before|]);
    } else {
      assert WellFormed(tokens[..last]) by { WellFormedBefore(tokens, last); }
      WordsStay(tokens[..last]);
      var i :| 0 <= i < |before| && OfWords(before[i]);
      assert Text(tokens)[i] == before[i];
    }
  }

  lemma WellFormedBefore(tokens: seq<Token>, k: nat)
    requires WellFormed(tokens) && k <= |tokens|
    ensures WellFormed(tokens[..k])
  {
    hide Proper, CanFollow;
  }

  lemma TrimKeeps(text: string, i: nat)
    requires i < |text| && OfWords(text[i])
    ensures Trim(text) != ""
  {
    var from := Leading(text);
    var rest := text[from..];
    assert !Blank(text[i]);
    assert rest[i - from] == text[i];
  }

  lemma {:induction false} WordsTrimmed(tokens: seq<Token>)
    requires WellFormed(tokens) && Words(tokens) != []
    ensures Trim(Text(tokens)) != ""
  {
    WordsStay(tokens);
    var i :| 0 <= i < |Text(tokens)| && OfWords(Text(tokens)[i]);
    TrimKeeps(Text(tokens), i);
  }

  // The first piece, and what follows it.
  lemma {:induction false} SplitFirst(tokens: seq<Token>)
    requires WellFormed(tokens)
    ensures var k := FirstCut([], tokens);
            Split(Text(tokens)) ==
            (if Words(tokens[..k]) != [] then [Trim(Text(tokens[..k]))] else []) +
            if k < |tokens| then Split(Text(tokens[k + 1..])) else []
  {
    hide SegmentOf, Trim, WellFormed, Words, FirstCut, Text, HoldsOpen;
    var k := FirstCut([], tokens);
    BeginsNowhere(tokens);
    SegmentTokens([], tokens);
    PiecesAt([], tokens);
    CutText(tokens, k);
    assert [] + tokens[..k] == tokens[..k];
    WellFormedBefore(tokens, k);
    if Words(tokens[..k]) != [] { WordsTrimmed(tokens[..k]); }
  }

  lemma BeginsNowhere(tokens: seq<Token>)
    requires WellFormed(tokens)
    ensures Joins([], tokens) && Behind([]) == [] && Within([]) == ""
  {
  }

  // A script is cut exactly at the semicolons that are tokens of their own and
  // no trigger's body holds. What is between two of them is a statement, less
  // the white space at its ends, exactly if it has a word.
  lemma {:induction false} SplitCutsAtTokens(tokens: seq<Token>)
    requires WellFormed(tokens)
    ensures var pieces, statements := Saying(Pieces([], tokens)), Split(Text(tokens));
            && |statements| == |pieces|
            && forall i | 0 <= i < |pieces| :: Trimmed(Text(pieces[i]), statements[i])
    decreases |tokens|
  {
    hide SegmentOf, Trim, WellFormed, Words, FirstCut, Text, HoldsOpen, Split, Trimmed, Saying, Pieces;
    var k := FirstCut([], tokens);
    SplitFirst(tokens);
    PiecesAt([], tokens);
    assert [] + tokens[..k] == tokens[..k];
    TrimTrims(Text(tokens[..k]));
    if k < |tokens| {
      WellFormedAfter(tokens, k + 1);
      SplitCutsAtTokens(tokens[k + 1..]);
      assert Pieces([], tokens)[1..] == Pieces([], tokens[k + 1..]);
    } else {
      assert Pieces([], tokens)[1..] == [];
      NoneSaying();
    }
    FirstPiece(Pieces([], tokens));
  }

  lemma NoneSaying()
    ensures Saying([]) == []
  {
  }

  lemma {:induction false} FirstPiece(pieces: seq<seq<Token>>)
    requires pieces != []
    ensures Saying(pieces) == (if Words(pieces[0]) != [] then [pieces[0]] else []) + Saying(pieces[1..])
  {
  }

  // ---- Every script is made of such tokens.

  // What is quoted in the first `QuoteEnd` characters.
  lemma {:induction false} QuoteHolds(text: string, quote: char) returns (content: string, closed: bool)
    ensures var n := QuoteEnd(text, quote);
            && text[..n] == Doubled(content, quote) + (if closed then [quote] else "")
            && (!closed ==> n == |text|) && (closed && n < |text| ==> text[n] != quote)
    decreases |text|
  {
    hide Doubled, QuoteEnd;
    var n := QuoteEnd(text, quote);
    QuoteEnds(text, quote);
    DoubledNone(quote);
    if text == "" {
      content, closed := "", false;
    } else if text[0] != quote || (|text| > 1 && text[1] == quote) {
      var k := if text[0] != quote then 1 else 2;
      var more;
      more, closed := QuoteHolds(text[k..], quote);
      content := [text[0]] + more;
      DoubledMore(text[0], more, quote);
      SliceParts(text, k, n);
    } else {
      content, closed := "", true;
    }
  }

  lemma {:induction false} QuoteEnds(text: string, quote: char)
    ensures text == "" ==> QuoteEnd(text, quote) == 0
    ensures text != "" ==>
              QuoteEnd(text, quote) ==
              if text[0] != quote then 1 + QuoteEnd(text[1..], quote)
              else if |text| > 1 && text[1] == quote then 2 + QuoteEnd(text[2..], quote)
              else 1
  {
  }

  lemma SliceParts(text: string, k: nat, n: nat)
    requires k <= n <= |text|
    ensures text[..n] == text[..k] + text[k..][..n - k]
    ensures n < |text| ==> text[n] == text[k..][n - k]
    ensures k == 1 ==> text[..k] == [text[0]]
    ensures k == 2 ==> text[..k] == [text[0], text[1]]
  {
  }

  lemma {:induction false} DoubledNone(quote: char)
    ensures Doubled("", quote) == ""
  {
  }

  lemma {:induction false} DoubledMore(c: char, content: string, quote: char)
    ensures Doubled([c] + content, quote) == (if c == quote then [quote, quote] else [c]) + Doubled(content, quote)
  {
    assert ([c] + content)[1..] == content;
  }

  lemma {:induction false} BlockHolds(text: string) returns (content: string, closed: bool)
    ensures Proper(BlockComment(content, closed)) && (!closed ==> BlockEnd(text) == |text|)
    ensures text[..BlockEnd(text)] == content + if closed then "*/" else ""
  {
    var n := BlockEnd(text);
    if |text| < 2 {
      content, closed := text, false;
      assert text[..n] == text && text + "" == text;
    } else if text[0] == '*' && text[1] == '/' {
      content, closed := "", true;
    } else {
      var more;
      more, closed := BlockHolds(text[1..]);
      content := [text[0]] + more;
      assert text[..n] == [text[0]] + text[1..][..n - 1];
      BlockBegins(text, more, closed);
      assert forall i | 1 <= i < |content| :: content[i] == more[i - 1];
    }
  }

  // No end is made of the first character and what follows.
  lemma BlockBegins(text: string, more: string, closed: bool)
    requires |text| >= 2 && !(text[0] == '*' && text[1] == '/')
    requires text[1..][..BlockEnd(text[1..])] == more + if closed then "*/" else ""
    ensures more != "" ==> more[0] == text[1]
  {
    var rest := text[1..][..BlockEnd(text[1..])];
    assert more != "" ==> rest[0] == more[0] && rest[0] == text[1..][0];
  }

  lemma {:induction false} ThroughHolds(text: string, c: char) returns (content: string, closed: bool)
    ensures c !in content && (!closed ==> Through(text, c) == |text|)
    ensures text[..Through(text, c)] == content + if closed then [c] else ""
  {
    var n := Through(text, c);
    if text == "" {
      content, closed := "", false;
    } else if text[0] == c {
      content, closed := "", true;
    } else {
      var more;
      more, closed := ThroughHolds(text[1..], c);
      content := [text[0]] + more;
      assert text[..n] == [text[0]] + text[1..][..n - 1];
    }
  }

  // The token that text which is passed over begins with.
  lemma PassedToken(text: string) returns (token: Token)
    requires Skips(text)
    ensures Passes(token) && Proper(token) && Written(token) == text[..SkipLength(text)]
    ensures IsOpen(token) ==> SkipLength(text) == |text|
    ensures token.Quoted? && SkipLength(text) < |text| ==> text[SkipLength(text)] != token.quote
  {
    hide Through, BlockEnd, QuoteEnd, Doubled;
    var n := SkipLength(text);
    if |text| > 1 && text[0] == '-' && text[1] == '-' {
      token := LineToken(text);
    } else if |text| > 1 && text[0] == '/' && text[1] == '*' {
      token := BlockToken(text);
    } else if Quote(text[0]) {
      var content, closed := QuoteHolds(text[1..], text[0]);
      SliceParts(text, 1, n);
      token := Quoted(text[0], content, closed);
    } else {
      var content, closed := ThroughHolds(text[1..], ']');
      SliceParts(text, 1, n);
      token := Bracketed(content, closed);
    }
  }

  lemma LineToken(text: string) returns (token: Token)
    requires |text| > 1 && text[0] == '-' && text[1] == '-'
    ensures token.LineComment? && Proper(token) && Written(token) == text[..Through(text, '\n')]
    ensures IsOpen(token) ==> Through(text, '\n') == |text|
  {
    hide Through;
    var content, closed := ThroughHolds(text[2..], '\n');
    ThroughAdds("--", text[2..], '\n');
    assert text == "--" + text[2..];
    SliceParts(text, 2, Through(text, '\n'));
    token := LineComment(content, closed);
  }

  lemma BlockToken(text: string) returns (token: Token)
    requires |text| > 1 && text[0] == '/' && text[1] == '*'
    ensures token.BlockComment? && Proper(token) && Written(token) == text[..2 + BlockEnd(text[2..])]
    ensures IsOpen(token) ==> 2 + BlockEnd(text[2..]) == |text|
  {
    hide BlockEnd;
    var content, closed := BlockHolds(text[2..]);
    SliceParts(text, 2, 2 + BlockEnd(text[2..]));
    token := BlockComment(content, closed);
  }

  lemma {:induction false} ConsWellFormed(token: Token, tokens: seq<Token>)
    requires Proper(token) && WellFormed(tokens) && (tokens != [] ==> CanFollow(token, tokens[0]))
    ensures WellFormed([token] + tokens) && Text([token] + tokens) == Written(token) + Text(tokens)
  {
    hide Proper, CanFollow;
    var all := [token] + tokens;
    assert all[1..] == tokens;
    forall i | 0 <= i < |all| ensures Proper(all[i]) && (i < |all| - 1 ==> CanFollow(all[i], all[i + 1])) {
      if i > 0 {
        assert all[i] == tokens[i - 1];
        if i < |all| - 1 { assert all[i + 1] == tokens[i - 1 + 1]; }
      }
    }
  }

  // What a token begins with tells its kind.
  lemma {:induction false} BeginsWith(tokens: seq<Token>)
    requires WellFormed(tokens)
    ensures tokens == [] <==> Text(tokens) == ""
    ensures tokens != [] ==>
              var c := Text(tokens)[0];
              && (tokens[0].Word? <==> OfWords(c)) && (tokens[0].Quoted? ==> tokens[0].quote == c)
              && (tokens[0] == Other('-') || tokens[0].LineComment? <==> c == '-')
              && (tokens[0] == Other('*') <==> c == '*')
  {
    if tokens != [] {
      assert Proper(tokens[0]);
      FirstOf(tokens);
    }
  }

  lemma {:induction false} EveryScript(text: string) returns (tokens: seq<Token>)
    ensures WellFormed(tokens) && Text(tokens) == text
    decreases |text|
  {
    hide WellFormed, Text, Proper, CanFollow;
    if text == "" {
      tokens := [];
      NoTokens();
    } else if Skips(text) {
      var n := SkipLength(text);
      tokens := EveryScript(text[n..]);
      var token := PassedToken(text);
      BeginsWith(tokens);
      AfterPassed(token, text, tokens);
      ConsWellFormed(token, tokens);
      assert text == text[..n] + text[n..];
      tokens := [token] + tokens;
    } else {
      tokens := EveryScript(text[1..]);
      BeginsWith(tokens);
      assert text == [text[0]] + text[1..];
      if OfWords(text[0]) && tokens != [] && tokens[0].Word? {
        tokens := LongerWord(text[0], tokens);
      } else {
        var token :=
          if text[0] == ';' then Semicolon else if OfWords(text[0]) then Word([text[0]]) else Other(text[0]);
        AfterOne(token, text, tokens);
        ConsWellFormed(token, tokens);
        tokens := [token] + tokens;
      }
    }
  }

  lemma NoTokens()
    ensures WellFormed([]) && Text([]) == ""
  {
  }

  lemma {:induction false} AfterPassed(token: Token, text: string, tokens: seq<Token>)
    requires Skips(text) && Passes(token) && (IsOpen(token) ==> SkipLength(text) == |text|)
    requires token.Quoted? && SkipLength(text) < |text| ==> text[SkipLength(text)] != token.quote
    requires WellFormed(tokens) && Text(tokens) == text[SkipLength(text)..]
    ensures tokens != [] ==> CanFollow(token, tokens[0])
  {
    BeginsWith(tokens);
  }

  lemma {:induction false} AfterOne(token: Token, text: string, tokens: seq<Token>)
    requires text != "" && !Skips(text) && WellFormed(tokens) && Text(tokens) == text[1..]
    requires token == if text[0] == ';' then Semicolon else if OfWords(text[0]) then Word([text[0]]) else Other(text[0])
    requires !(OfWords(text[0]) && tokens != [] && tokens[0].Word?)
    ensures Proper(token) && Written(token) == [text[0]] && (tokens != [] ==> CanFollow(token, tokens[0]))
  {
    BeginsWith(tokens);
  }

  lemma LongerWord(c: char, tokens: seq<Token>) returns (longer: seq<Token>)
    requires OfWords(c) && tokens != [] && tokens[0].Word? && WellFormed(tokens)
    ensures WellFormed(longer) && Text(longer) == [c] + Text(tokens)
  {
    hide OfWords, WellFormed, Text, Proper, CanFollow, Written;
    var word := Word([c] + tokens[0].text);
    ProperLonger(c, tokens, word);
    WellFormedAfter(tokens, 1);
    ConsWellFormed(word, tokens[1..]);
    longer := [word] + tokens[1..];
  }

  lemma {:induction false} ProperLonger(c: char, tokens: seq<Token>, word: Token)
    requires OfWords(c) && tokens != [] && tokens[0].Word? && WellFormed(tokens) && word == Word([c] + tokens[0].text)
    ensures Proper(word) && (|tokens| > 1 ==> CanFollow(word, tokens[1..][0]))
    ensures Written(word) + Text(tokens[1..]) == [c] + Text(tokens)
  {
    hide OfWords;
    assert Proper(tokens[0]);
    assert forall i | 1 <= i < |word.text| :: word.text[i] == tokens[0].text[i - 1];
    if |tokens| > 1 { assert CanFollow(tokens[0], tokens[0 + 1]); }
  }

  // So whatever a script, it is split so.
  lemma ScriptsCutAtTokens(text: string) returns (tokens: seq<Token>)
    ensures WellFormed(tokens) && Text(tokens) == text
    ensures var pieces := Saying(Pieces([], tokens));
            && |Split(text)| == |pieces|
            && forall i | 0 <= i < |pieces| :: Trimmed(Text(pieces[i]), Split(text)[i])
  {
    tokens := EveryScript(text);
    SplitCutsAtTokens(tokens);
  }
}
