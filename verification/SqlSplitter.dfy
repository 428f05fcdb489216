/** Splitting a script into its statements (`splitSqlStatements` in
    `database-browser-sqlite.ts`). A semicolon in a quote, a comment or a
    trigger's body ends nothing. */
module SqlSplitter {
  // White space as JavaScript trims it.
  predicate Blank(c: char) {
    || '\t' <= c <= '\r' || c == ' ' || c == '\U{A0}' || c == '\U{1680}' || '\U{2000}' <= c <= '\U{200A}'
    || c in {'\U{2028}', '\U{2029}', '\U{202F}', '\U{205F}', '\U{3000}', '\U{FEFF}'}
  }

  predicate WordCharacter(c: char) {
    'a' <= c <= 'z' || 'A' <= c <= 'Z' || '0' <= c <= '9' || c == '_' || c == '$'
  }

  predicate Quote(c: char) {
    c == '\'' || c == '"' || c == '`'
  }

  function Upper(word: string): string {
    seq(|word|, i requires 0 <= i < |word| =>
      if 'a' <= word[i] <= 'z' then word[i] - 'a' + 'A' else word[i])
  }

  function Flushed(words: seq<string>, word: string): seq<string> {
    if word == "" then words else words + [Upper(word)]
  }

  // How much of `text` there is up to and with the first `c`; all, if none.
  function Through(text: string, c: char): (n: nat)
    ensures n <= |text| && (text != "" ==> n > 0)
  {
    if text == "" then 0 else if text[0] == c then 1 else 1 + Through(text[1..], c)
  }

  // And up to and with the end of a block comment.
  function BlockEnd(text: string): (n: nat)
    ensures n <= |text| && (text != "" ==> n > 0)
  {
    if |text| < 2 then |text|
    else if text[0] == '*' && text[1] == '/' then 2
    else 1 + BlockEnd(text[1..])
  }

  // And up to and with the quote that closes, not one doubled.
  function QuoteEnd(text: string, quote: char): (n: nat)
    ensures n <= |text| && (text != "" ==> n > 0)
  {
    if text == "" then 0
    else if text[0] != quote then 1 + QuoteEnd(text[1..], quote)
    else if |text| > 1 && text[1] == quote then 2 + QuoteEnd(text[2..], quote)
    else 1
  }

  // Whether `text` begins with a comment or something quoted.
  predicate Skips(text: string) {
    && text != ""
    && (Quote(text[0]) || text[0] == '['
        || (|text| > 1 && ((text[0] == '-' && text[1] == '-') || (text[0] == '/' && text[1] == '*'))))
  }

  function SkipLength(text: string): (n: nat)
    requires Skips(text)
    ensures 0 < n <= |text|
  {
    if |text| > 1 && text[0] == '-' && text[1] == '-' then Through(text, '\n')
    else if |text| > 1 && text[0] == '/' && text[1] == '*' then 2 + BlockEnd(text[2..])
    else if Quote(text[0]) then 1 + QuoteEnd(text[1..], text[0])
    else 1 + Through(text[1..], ']')
  }

  function Count(words: seq<string>, word: string): nat {
    if words == [] then 0 else Count(words[..|words| - 1], word) + if words[|words| - 1] == word then 1 else 0
  }

  // A trigger body is closed once an END closes no CASE.
  ghost predicate ClosesBody(words: seq<string>) {
    exists k | 0 <= k <= |words| :: Count(words[..k], "END") > Count(words[..k], "CASE")
  }

  predicate MakesTrigger(words: seq<string>) {
    words != [] && words[0] == "CREATE" && exists i | 1 <= i < 4 && i < |words| :: words[i] == "TRIGGER"
  }

  ghost predicate Ends(words: seq<string>) {
    !MakesTrigger(words) || ClosesBody(words)
  }

  datatype Segment = Segment(length: nat, words: seq<string>)

  // How much of `text` the statement it begins in goes on for, and its words,
  // after the words and part of a word before it.
  ghost function SegmentOf(text: string, words: seq<string>, word: string): (segment: Segment)
    ensures segment.length <= |text|
    decreases |text|
  {
    if text == "" then Segment(0, Flushed(words, word))
    else if Skips(text) then
      var n := SkipLength(text);
      var rest := SegmentOf(text[n..], Flushed(words, word), "");
      Segment(n + rest.length, rest.words)
    else if text[0] == ';' && Ends(Flushed(words, word)) then Segment(0, Flushed(words, word))
    else
      var rest :=
        if WordCharacter(text[0]) then SegmentOf(text[1..], words, word + [text[0]])
        else SegmentOf(text[1..], Flushed(words, word), "");
      Segment(1 + rest.length, rest.words)
  }

  function Leading(text: string): (n: nat)
    ensures n <= |text| && (n < |text| ==> !Blank(text[n])) && forall i | 0 <= i < n :: Blank(text[i])
  {
    if text == "" || !Blank(text[0]) then 0 else 1 + Leading(text[1..])
  }

  function Trailing(text: string): (n: nat)
    ensures n <= |text| && (n < |text| ==> !Blank(text[|text| - n - 1]))
    ensures forall i | |text| - n <= i < |text| :: Blank(text[i])
  {
    if text == "" || !Blank(text[|text| - 1]) then 0 else 1 + Trailing(text[..|text| - 1])
  }

  function Trim(text: string): string {
    var rest := text[Leading(text)..];
    rest[..|rest| - Trailing(rest)]
  }

  ghost function Split(text: string): seq<string>
    decreases |text|
  {
    var segment := SegmentOf(text, [], "");
    var statement := Trim(text[..segment.length]);
    (if statement != "" && segment.words != [] then [statement] else []) +
    if segment.length < |text| then Split(text[segment.length + 1..]) else []
  }

  predicate Blanks(text: string) {
    forall i | 0 <= i < |text| :: Blank(text[i])
  }

  // Text that ends here, or has white space or a semicolon next.
  predicate Pauses(text: string) {
    text == "" || text[0] == ';' || Blank(text[0])
  }

  lemma {:induction false} ThroughAdds(p: string, u: string, c: char)
    ensures Through(p + u, c) == if c in p then Through(p, c) else |p| + Through(u, c)
    ensures c !in p ==> Through(p, c) == |p|
  {
    if p == "" {
      assert p + u == u;
    } else {
      assert (p + u)[1..] == p[1..] + u;
      ThroughAdds(p[1..], u, c);
    }
  }

  // What comes after a comment or quote that has ended doesn't change it; and
  // one cut short goes on to where it's cut.
  lemma {:induction false} BlockStable(p: string, u: string, v: string)
    requires u != ""
    ensures if BlockEnd(p + u) <= |p| then BlockEnd(p + v) == BlockEnd(p + u) else BlockEnd(p) == |p|
  {
    if p == "" {
      assert p + u == u;
    } else {
      assert (p + u)[1..] == p[1..] + u && (p + v)[1..] == p[1..] + v;
      BlockStable(p[1..], u, v);
    }
  }

  lemma {:induction false} QuoteStable(p: string, u: string, v: string, quote: char)
    requires u != "" && u[0] != quote && (v == "" || v[0] != quote)
    ensures if QuoteEnd(p + u, quote) <= |p| then QuoteEnd(p + v, quote) == QuoteEnd(p + u, quote)
            else QuoteEnd(p, quote) == |p|
    decreases |p|
  {
    if p == "" {
      assert p + u == u;
    } else if p[0] == quote && |p| > 1 && p[1] == quote {
      assert (p + u)[2..] == p[2..] + u && (p + v)[2..] == p[2..] + v;
      QuoteStable(p[2..], u, v, quote);
    } else if p[0] != quote {
      assert (p + u)[1..] == p[1..] + u && (p + v)[1..] == p[1..] + v;
      QuoteStable(p[1..], u, v, quote);
    }
  }

  lemma {:induction false} ThroughStable(p: string, u: string, v: string, c: char)
    requires u != ""
    ensures if Through(p + u, c) <= |p| then Through(p + v, c) == Through(p + u, c) else Through(p, c) == |p|
  {
    ThroughAdds(p, u, c);
    ThroughAdds(p, v, c);
  }

  lemma AddsAfter(p: string, u: string, n: nat)
    requires n <= |p|
    ensures (p + u)[n..] == p[n..] + u
  {
  }

  lemma SameStart(p: string, u: string, v: string)
    requires p != "" && u != "" && Pauses(u) && Pauses(v)
    ensures Skips(p + v) <==> Skips(p + u)
    ensures Skips(p + u) ==> Quote(p[0]) || p[0] == '[' || |p| > 1
  {
  }

  lemma SkipStable(p: string, u: string, v: string)
    requires p != "" && u != "" && Pauses(u) && Pauses(v)
    ensures Skips(p + v) <==> Skips(p + u)
    ensures Skips(p + u) ==>
              if SkipLength(p + u) <= |p| then SkipLength(p + v) == SkipLength(p + u)
              else Skips(p) && SkipLength(p) == |p|
  {
    SameStart(p, u, v);
    if Skips(p + u) {
      hide Through, BlockEnd, QuoteEnd;
      AddsAfter(p, u, 1);
      AddsAfter(p, v, 1);
      if Quote(p[0]) {
        QuoteStable(p[1..], u, v, p[0]);
      } else if p[0] == '[' {
        ThroughStable(p[1..], u, v, ']');
      } else if p[0] == '-' {
        ThroughStable(p, u, v, '\n');
      } else {
        AddsAfter(p, u, 2);
        AddsAfter(p, v, 2);
        BlockStable(p[2..], u, v);
      }
    }
  }

  lemma {:induction false} SegmentOfBlanks(blanks: string, rest: string, words: seq<string>, word: string)
    requires Blanks(blanks) && (rest == "" || rest[0] == ';')
    requires SegmentOf(blanks + rest, words, word).length == |blanks|
    ensures SegmentOf(blanks + rest, words, word).words == Flushed(words, word)
  {
    if blanks == "" {
      assert blanks + rest == rest;
    } else {
      assert (blanks + rest)[1..] == blanks[1..] + rest;
      SegmentOfBlanks(blanks[1..], rest, Flushed(words, word), "");
    }
  }

  // White space before a statement is no part of it.
  lemma {:induction false} SegmentSkipsBlanks(blanks: string, text: string, words: seq<string>)
    requires Blanks(blanks)
    ensures var segment := SegmentOf(text, words, "");
            SegmentOf(blanks + text, words, "") == Segment(|blanks| + segment.length, segment.words)
  {
    if blanks == "" {
      assert blanks + text == text;
    } else {
      assert (blanks + text)[1..] == blanks[1..] + text;
      SegmentSkipsBlanks(blanks[1..], text, words);
    }
  }

  predicate Solid(text: string) {
    text == "" || !Blank(text[|text| - 1])
  }

  // The same cut within a comment or quote that goes past it.
  lemma {:induction false} SegmentCutWithin(
      text: string, blanks: string, rest: string, words: seq<string>, word: string)
    requires text != "" && Blanks(blanks) && (rest == "" || rest[0] == ';') && blanks + rest != ""
    requires var whole := text + (blanks + rest);
             Skips(whole) && SkipLength(whole) > |text| && SegmentOf(whole, words, word).length == |text| + |blanks|
    ensures SegmentOf(text, words, word) == Segment(|text|, SegmentOf(text + (blanks + rest), words, word).words)
  {
    var whole := text + (blanks + rest);
    SkipStable(text, blanks + rest, "");
    var past := SkipLength(whole) - |text|;
    hide SkipLength, Skips, Blank;
    assert whole[SkipLength(whole)..] == blanks[past..] + rest;
    SegmentOfBlanks(blanks[past..], rest, Flushed(words, word), "");
    assert text[|text|..] == "";
  }

  // A statement cut where it ends, and trimmed, is the same statement whole.
  lemma {:induction false} SegmentCut(text: string, blanks: string, rest: string, words: seq<string>, word: string)
    requires Solid(text) && Blanks(blanks) && (rest == "" || rest[0] == ';')
    requires SegmentOf(text + (blanks + rest), words, word).length == |text| + |blanks|
    ensures SegmentOf(text, words, word) == Segment(|text|, SegmentOf(text + (blanks + rest), words, word).words)
    decreases |text|
  {
    hide SkipLength, Blank, WordCharacter;
    var after := blanks + rest;
    var whole := text + after;
    if text == "" {
      assert whole == after;
      SegmentOfBlanks(blanks, rest, words, word);
    } else if after == "" {
      assert whole == text;
    } else if Skips(whole) && SkipLength(whole) > |text| {
      SegmentCutWithin(text, blanks, rest, words, word);
    } else {
      PausesAfter(blanks, rest);
      SkipStable(text, after, "");
      assert text + "" == text;
      var n := if Skips(whole) then SkipLength(whole) else 1;
      AddsAfter(text, after, n);
      var goesOn := !Skips(whole) && WordCharacter(text[0]);
      SegmentCut(text[n..], blanks, rest, if goesOn then words else Flushed(words, word),
                 if goesOn then word + [text[0]] else "");
    }
  }

  lemma PausesAfter(blanks: string, rest: string)
    requires Blanks(blanks) && (rest == "" || rest[0] == ';')
    ensures Pauses(blanks + rest)
  {
  }

  // A statement that ends at a semicolon ends there whatever follows.
  lemma {:induction false} SegmentStands(text: string, u: string, v: string, words: seq<string>, word: string)
    requires u != "" && u[0] == ';' && v != "" && v[0] == ';'
    requires SegmentOf(text + u, words, word).length == |text|
    ensures SegmentOf(text + v, words, word) == SegmentOf(text + u, words, word)
    decreases |text|
  {
    if text == "" {
      assert text + u == u && text + v == v;
    } else {
      SkipStable(text, u, v);
      var n := if Skips(text + u) then SkipLength(text + u) else 1;
      assert n <= |text|;
      AddsAfter(text, u, n);
      AddsAfter(text, v, n);
      var goesOn := !Skips(text + u) && WordCharacter(text[0]);
      SegmentStands(text[n..], u, v, if goesOn then words else Flushed(words, word),
                    if goesOn then word + [text[0]] else "");
    }
  }

  lemma TrimParts(text: string) returns (before: string, after: string)
    ensures text == before + Trim(text) + after && Blanks(before) && Blanks(after)
    ensures Solid(Trim(text)) && (Trim(text) != "" ==> !Blank(Trim(text)[0]))
  {
    var start := Leading(text);
    var rest := text[start..];
    before, after := text[..start], rest[|rest| - Trailing(rest)..];
  }

  lemma TrimsToItself(text: string)
    requires text != "" && !Blank(text[0]) && !Blank(text[|text| - 1])
    ensures Trim(text) == text
  {
    assert text[0..] == text && text[..|text|] == text;
  }

  // Each statement is one on its own.
  lemma {:induction false} StatementsStand(text: string, statement: string)
    requires statement in Split(text)
    ensures Split(statement) == [statement]
    decreases |text|
  {
    var segment := SegmentOf(text, [], "");
    var n := segment.length;
    if Trim(text[..n]) == statement && statement != "" && segment.words != [] {
      FirstStands(text);
    } else {
      assert n < |text| && statement in Split(text[n + 1..]);
      StatementsStand(text[n + 1..], statement);
    }
  }

  lemma {:induction false} OneStatement(text: string)
    requires text != "" && Trim(text) == text
    requires SegmentOf(text, [], "").length == |text| && SegmentOf(text, [], "").words != []
    ensures Split(text) == [text]
  {
    hide SegmentOf, Trim;
    assert text[..|text|] == text;
  }

  lemma Together(text: string, n: nat, before: string, statement: string, after: string)
    requires n <= |text| && text[..n] == before + statement + after
    ensures text == before + (statement + (after + text[n..])) && n == |before| + |statement| + |after|
  {
    assert text == text[..n] + text[n..];
  }

  lemma {:induction false} FirstStands(text: string)
    requires var segment := SegmentOf(text, [], ""); Trim(text[..segment.length]) != "" && segment.words != []
    ensures var statement := Trim(text[..SegmentOf(text, [], "").length]); Split(statement) == [statement]
  {
    hide SegmentOf, Trim, Split, Blank;
    var n := SegmentOf(text, [], "").length;
    var statement := Trim(text[..n]);
    var before, after := TrimParts(text[..n]);
    Together(text, n, before, statement, after);
    SegmentSkipsBlanks(before, statement + (after + text[n..]), []);
    SegmentEnds(text, [], "");
    SegmentCut(statement, after, text[n..], [], "");
    TrimsToItself(statement);
    OneStatement(statement);
  }

  // A statement ends at a semicolon, or with the script.
  lemma {:induction false} SegmentEnds(text: string, words: seq<string>, word: string)
    ensures var n := SegmentOf(text, words, word).length; n < |text| ==> text[n] == ';'
    decreases |text|
  {
    if text != "" {
      if Skips(text) {
        SegmentEnds(text[SkipLength(text)..], Flushed(words, word), "");
      } else if text[0] == ';' && Ends(Flushed(words, word)) {
      } else if WordCharacter(text[0]) {
        SegmentEnds(text[1..], words, word + [text[0]]);
      } else {
        SegmentEnds(text[1..], Flushed(words, word), "");
      }
    }
  }

  // A script, as its statements and what is between them.
  function Weave(gaps: seq<string>, statements: seq<string>): string
    requires |gaps| == |statements| + 1
  {
    if statements == [] then gaps[0] else gaps[0] + statements[0] + Weave(gaps[1..], statements[1..])
  }

  lemma {:induction false} WeaveMore(gap: string, statement: string, gaps: seq<string>, statements: seq<string>)
    requires |gaps| == |statements| + 1
    ensures Weave([gap] + gaps, [statement] + statements) == gap + statement + Weave(gaps, statements)
  {
    assert ([gap] + gaps)[1..] == gaps && ([statement] + statements)[1..] == statements;
  }

  lemma {:induction false} WeaveAfter(text: string, gaps: seq<string>, statements: seq<string>)
    requires |gaps| == |statements| + 1
    ensures Weave([text + gaps[0]] + gaps[1..], statements) == text + Weave(gaps, statements)
  {
    var more := [text + gaps[0]] + gaps[1..];
    assert more[1..] == gaps[1..];
    if statements != [] {
      assert text + gaps[0] + statements[0] + Weave(gaps[1..], statements[1..]) ==
             text + (gaps[0] + statements[0] + Weave(gaps[1..], statements[1..]));
    }
  }

  // Text with no statement, up to its semicolon, leaves what follows as it is.
  lemma {:induction false} SplitAfter(text: string, u: string, v: string)
    requires u != "" && u[0] == ';'
    requires SegmentOf(text + u, [], "").length == |text|
    requires Trim(text) == "" || SegmentOf(text + u, [], "").words == []
    ensures Split(text + (";" + v)) == Split(v)
  {
    hide SegmentOf, Trim;
    SegmentStands(text, u, ";" + v, [], "");
    assert (text + (";" + v))[..|text|] == text && (text + (";" + v))[|text| + 1..] == v;
  }

  lemma {:induction false} BlanksAreNothing(blanks: string)
    requires Blanks(blanks)
    ensures Split(blanks) == [] && SegmentOf(blanks + ";", [], "") == Segment(|blanks|, [])
  {
    SegmentSkipsBlanks(blanks, "", []);
    SegmentSkipsBlanks(blanks, ";", []);
    assert blanks + "" == blanks;
    assert !MakesTrigger([]);
  }

  // `statements` are apart from each other and in order in `text`, and nothing
  // between them is a statement.
  ghost predicate Weaves(text: string, gaps: seq<string>, statements: seq<string>) {
    |gaps| == |statements| + 1 && text == Weave(gaps, statements) && forall gap | gap in gaps :: Split(gap) == []
  }

  lemma LastWeaves(before: string, statement: string, after: string)
    requires Blanks(before) && Blanks(after)
    ensures Weaves(before + statement + after, [before, after], [statement])
  {
    BlanksAreNothing(before);
    BlanksAreNothing(after);
    hide Split;
    WeaveMore(before, statement, [after], []);
    assert [statement] + [] == [statement] && [before] + [after] == [before, after];
  }

  // More text that leaves what follows as it is.
  lemma {:induction false} AfterWeaves(text: string, rest: string, gaps: seq<string>, statements: seq<string>)
    requires Weaves(rest, gaps, statements) && Split(text + gaps[0]) == []
    ensures Weaves(text + rest, [text + gaps[0]] + gaps[1..], statements)
  {
    hide Split, Weave;
    WeaveAfter(text, gaps, statements);
  }

  lemma StatementWeaves(before: string, statement: string, rest: string, gaps: seq<string>, statements: seq<string>)
    requires Blanks(before) && Weaves(rest, gaps, statements)
    ensures Weaves(before + statement + rest, [before] + gaps, [statement] + statements)
  {
    BlanksAreNothing(before);
    hide Split, Weave;
    WeaveMore(before, statement, gaps, statements);
  }

  lemma FirstGap(text: string, gaps: seq<string>, statements: seq<string>)
    requires Weaves(text, gaps, statements)
    ensures gaps != [] && Split(gaps[0]) == []
  {
  }

  lemma {:induction false} NoneWeaves(text: string)
    requires Split(text) == []
    ensures Weaves(text, [text], [])
  {
  }

  lemma Semicolon(text: string, n: nat)
    requires n < |text| && text[n] == ';'
    ensures text[n..] == ";" + text[n + 1..] && text == text[..n] + ";" + text[n + 1..] && text == text[..n] + text[n..]
  {
  }

  lemma Regroup(a: string, b: string, c: string)
    ensures (a + b) + c == a + (b + c)
  {
  }

  lemma {:induction false} StatementsWeave(text: string) returns (gaps: seq<string>)
    ensures Weaves(text, gaps, Split(text))
    decreases |text|
  {
    hide SegmentOf, Trim, Blank, Blanks, Weaves, MakesTrigger;
    var segment := SegmentOf(text, [], "");
    var n := segment.length;
    var before, after := TrimParts(text[..n]);
    var statement := Trim(text[..n]);
    var found := statement != "" && segment.words != [];
    if n == |text| {
      assert text[..n] == text && Split(text) == if found then [statement] else [];
      if found { LastWeaves(before, statement, after); } else { NoneWeaves(text); }
      gaps := if found then [before, after] else [text];
    } else {
      var rest := text[n + 1..];
      var more := StatementsWeave(rest);
      FirstGap(rest, more, Split(rest));
      SegmentEnds(text, [], "");
      Semicolon(text, n);
      var part := if found then after else text[..n];
      if found {
        BlanksAreNothing(after);
        SplitAfter(after, ";", more[0]);
      } else {
        SplitAfter(text[..n], text[n..], more[0]);
      }
      Regroup(part, ";", more[0]);
      AfterWeaves(part + ";", rest, more, Split(rest));
      gaps := [part + ";" + more[0]] + more[1..];
      if found {
        StatementWeaves(before, statement, part + ";" + rest, gaps, Split(rest));
        Regroup(before + statement, part + ";", rest);
        Regroup(before + statement, part, ";");
        gaps := [before] + gaps;
      } else {
        assert [] + Split(rest) == Split(rest);
      }
    }
  }

  // Where the first `c` from `from` on ends, or the script does.
  method EndOf(sql: string, from: nat, c: char) returns (end: nat)
    requires from <= |sql|
    ensures end == from + Through(sql[from..], c)
  {
    end := from;
    while end < |sql|
      invariant from <= end <= |sql|
      invariant Through(sql[from..], c) == end - from + Through(sql[end..], c)
    {
      end := end + 1;
      if sql[end - 1] == c { return; }
    }
  }

  method EndOfBlock(sql: string, from: nat) returns (end: nat)
    requires from <= |sql|
    ensures end == from + BlockEnd(sql[from..])
  {
    end := from;
    while end + 1 < |sql|
      invariant from <= end <= |sql|
      invariant BlockEnd(sql[from..]) == end - from + BlockEnd(sql[end..])
    {
      if sql[end] == '*' && sql[end + 1] == '/' { return end + 2; }
      end := end + 1;
    }
    return |sql|;
  }

  method SkipQuoted(sql: string, index: nat, quote: char) returns (end: nat)
    requires index < |sql|
    ensures end == index + 1 + QuoteEnd(sql[index + 1..], quote)
  {
    end := index + 1;
    while end < |sql|
      invariant index + 1 <= end <= |sql|
      invariant QuoteEnd(sql[index + 1..], quote) == end - (index + 1) + QuoteEnd(sql[end..], quote)
    {
      if sql[end] == quote {
        if end + 1 < |sql| && sql[end + 1] == quote {
          end := end + 2;
          continue;
        }
        return end + 1;
      }
      end := end + 1;
    }
  }

  method ClosesTriggerBody(words: seq<string>) returns (closes: bool)
    ensures closes <==> ClosesBody(words)
  {
    var openCases := 0;
    for i := 0 to |words|
      invariant openCases == Count(words[..i], "CASE") - Count(words[..i], "END")
      invariant openCases >= 0
      invariant forall k | 0 <= k <= i :: Count(words[..k], "END") <= Count(words[..k], "CASE")
    {
      assert words[..i + 1][..i] == words[..i];
      if words[i] == "CASE" {
        openCases := openCases + 1;
      } else if words[i] == "END" && openCases > 0 {
        openCases := openCases - 1;
      } else if words[i] == "END" {
        assert Count(words[..i + 1], "END") > Count(words[..i + 1], "CASE");
        return true;
      }
    }
    closes := false;
  }

  // What the rest of a statement, from `index` on, makes of the whole.
  lemma SegmentFrom(sql: string, index: nat, n: nat)
    requires index + n <= |sql|
    ensures sql[index..][n..] == sql[index + n..]
  {
  }

  method SkipFrom(sql: string, index: nat) returns (end: nat)
    requires index < |sql| && Skips(sql[index..])
    ensures end == index + SkipLength(sql[index..])
  {
    hide Through, BlockEnd, QuoteEnd;
    var c := sql[index];
    SegmentFrom(sql, index, 1);
    if index + 1 < |sql| && c == '-' && sql[index + 1] == '-' {
      end := EndOf(sql, index, '\n');
    } else if index + 1 < |sql| && c == '/' && sql[index + 1] == '*' {
      SegmentFrom(sql, index, 2);
      end := EndOfBlock(sql, index + 2);
    } else if Quote(c) {
      end := SkipQuoted(sql, index, c);
    } else {
      end := EndOf(sql, index + 1, ']');
    }
  }

  // At `index`, with these words behind it, is the statement that begins at
  // `start`.
  ghost predicate Continues(sql: string, start: nat, index: nat, words: seq<string>, word: string)
    requires start <= index <= |sql|
  {
    var segment := SegmentOf(sql[index..], words, word);
    SegmentOf(sql[start..], [], "") == Segment(index - start + segment.length, segment.words)
  }

  lemma ContinuesOn(sql: string, start: nat, index: nat, words: seq<string>, word: string)
    requires start <= index < |sql| && Continues(sql, start, index, words, word)
    ensures var text, flushed := sql[index..], Flushed(words, word);
            if Skips(text) then Continues(sql, start, index + SkipLength(text), flushed, "")
            else if text[0] == ';' && Ends(flushed) then
              SegmentOf(sql[start..], [], "") == Segment(index - start, flushed)
            else if WordCharacter(text[0]) then Continues(sql, start, index + 1, words, word + [text[0]])
            else Continues(sql, start, index + 1, flushed, "")
  {
    hide SkipLength, Skips, Ends, WordCharacter;
    var n := if Skips(sql[index..]) then SkipLength(sql[index..]) else 1;
    SegmentFrom(sql, index, n);
  }

  lemma SplitFrom(sql: string, start: nat, index: nat, words: seq<string>)
    requires start <= index <= |sql| && SegmentOf(sql[start..], [], "") == Segment(index - start, words)
    ensures var statement := Trim(sql[start..index]);
            Split(sql[start..]) == (if statement != "" && words != [] then [statement] else []) +
                                   if index < |sql| then Split(sql[index + 1..]) else []
  {
    hide SegmentOf, Trim;
    assert sql[start..][..index - start] == sql[start..index];
    if index < |sql| { SegmentFrom(sql, start, index - start + 1); }
  }

  lemma Begins(sql: string, start: nat)
    requires start <= |sql|
    ensures Continues(sql, start, start, [], "")
  {
  }

  lemma SplitWith(found: seq<string>, statement: string, keep: bool, rest: seq<string>)
    ensures found + ((if keep then [statement] else []) + rest) == (if keep then found + [statement] else found) + rest
  {
  }

  method SplitStatements(sql: string) returns (statements: seq<string>)
    ensures statements == Split(sql)
  {
    hide Skips, SkipLength, ClosesBody, MakesTrigger, Trim, WordCharacter, Flushed, SegmentOf, Split, Continues;
    statements := [];
    var start, index := 0, 0;
    var words: seq<string> := [];
    var word := "";
    assert sql[0..] == sql;
    Begins(sql, 0);
    while index < |sql|
      invariant start <= index <= |sql|
      invariant Continues(sql, start, index, words, word)
      invariant Split(sql) == statements + Split(sql[start..])
      decreases |sql| - index
    {
      ContinuesOn(sql, start, index, words, word);
      if Skips(sql[index..]) {
        index := SkipFrom(sql, index);
        words, word := Flushed(words, word), "";
      } else if sql[index] == ';' {
        words, word := Flushed(words, word), "";
        var closes := true;
        if MakesTrigger(words) { closes := ClosesTriggerBody(words); }
        if closes {
          var statement := Trim(sql[start..index]);
          SplitFrom(sql, start, index, words);
          SplitWith(statements, statement, statement != "" && words != [], Split(sql[index + 1..]));
          if statement != "" && words != [] { statements := statements + [statement]; }
          start, words := index + 1, [];
          Begins(sql, start);
        } else {
          SemicolonIsNoWord();
        }
        index := index + 1;
      } else if WordCharacter(sql[index]) {
        word, index := word + [sql[index]], index + 1;
      } else {
        words, word, index := Flushed(words, word), "", index + 1;
      }
    }
    words := Flushed(words, word);
    Finishes(sql, start, words);
    var tail := Trim(sql[start..]);
    if tail != "" && words != [] { statements := statements + [tail]; }
  }

  lemma SemicolonIsNoWord()
    ensures !WordCharacter(';')
  {
  }

  lemma Finishes(sql: string, start: nat, words: seq<string>)
    requires start <= |sql|
    requires exists before, word :: Continues(sql, start, |sql|, before, word) && words == Flushed(before, word)
    ensures Split(sql[start..]) == if Trim(sql[start..]) != "" && words != [] then [Trim(sql[start..])] else []
  {
    var before, word :| Continues(sql, start, |sql|, before, word) && words == Flushed(before, word);
    assert sql[|sql|..] == "";
    SplitFrom(sql, start, |sql|, words);
    assert sql[start..|sql|] == sql[start..];
  }
}
