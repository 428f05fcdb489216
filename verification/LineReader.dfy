/** Reading a process's output line by line as it arrives, a chunk at a time
    (`commandLines`), and what that hands out for the whole text. */
module LineReader {
  import opened Sequences

  // What is handed out of a line at most, and held of one still open.
  const MAX_COMMAND_LINE_CHARACTERS: nat := 1024 * 1024

  // The pieces of `text` between its newlines, empty ones included.
  function Split(text: string): (lines: seq<string>)
    ensures lines != []
  {
    if text == "" then
      [""]
    else
      Prepend(text[0], Split(text[1..]))
  }

  function Prepend(c: char, lines: seq<string>): (longer: seq<string>)
    requires lines != []
    ensures longer != []
  {
    if c == '\n' then [""] + lines else [[c] + lines[0]] + lines[1..]
  }

  function Join(lines: seq<string>): string
    requires lines != []
  {
    if |lines| == 1 then lines[0] else lines[0] + "\n" + Join(lines[1..])
  }

  predicate NewlineFree(lines: seq<string>) {
    forall i | 0 <= i < |lines| :: '\n' !in lines[i]
  }

  // `Split` is the only way to cut a text at its newlines.
  lemma {:induction false} SplitIsUnique(text: string, lines: seq<string>)
    requires lines != []
    ensures lines == Split(text) <==> NewlineFree(lines) && Join(lines) == text
    decreases |text|
  {
    SplitJoins(text);
    if NewlineFree(lines) && Join(lines) == text {
      OnlySplit(text, lines);
    }
  }

  lemma {:induction false} SplitJoins(text: string)
    ensures NewlineFree(Split(text)) && Join(Split(text)) == text
  {
    if text != "" {
      var rest := Split(text[1..]);
      SplitJoins(text[1..]);
      assert text == [text[0]] + text[1..];
      if text[0] == '\n' {
        assert Split(text)[1..] == rest;
      } else {
        JoinFirst(text[0], rest);
      }
    }
  }

  lemma {:induction false} OnlySplit(text: string, lines: seq<string>)
    requires lines != [] && NewlineFree(lines) && Join(lines) == text
    ensures lines == Split(text)
    decreases |lines|, |lines[0]|
  {
    if lines[0] == "" {
      if |lines| > 1 {
        assert text == ['\n'] + Join(lines[1..]);
        assert text[1..] == Join(lines[1..]);
        OnlySplit(text[1..], lines[1..]);
        assert lines == [""] + lines[1..];
      }
    } else {
      var shorter := [lines[0][1..]] + lines[1..];
      assert lines[0] == [lines[0][0]] + shorter[0];
      assert lines == [[lines[0][0]] + shorter[0]] + shorter[1..];
      JoinFirst(lines[0][0], shorter);
      assert text[1..] == Join(shorter);
      OnlySplit(text[1..], shorter);
    }
  }

  lemma {:induction false} JoinFirst(c: char, lines: seq<string>)
    requires lines != []
    ensures Join([[c] + lines[0]] + lines[1..]) == [c] + Join(lines)
  {
    var longer := [[c] + lines[0]] + lines[1..];
    assert longer[1..] == lines[1..];
    if |lines| > 1 {
      assert Join(longer) == ([c] + lines[0]) + "\n" + Join(lines[1..]);
    }
  }

  // Text that arrives in two parts: only the last line of the first part is
  // still open when the second comes.
  lemma {:induction false} SplitAppend(first: string, second: string)
    ensures var done := Split(first);
            Split(first + second) == done[..|done| - 1] + Split(done[|done| - 1] + second)
  {
    if first == "" {
      EmptyTail(second);
    } else {
      var c, rest := first[0], Split(first[1..]);
      var open := rest[|rest| - 1];
      assert first + second == [c] + (first[1..] + second);
      assert (first + second)[1..] == first[1..] + second;
      SplitAppend(first[1..], second);
      if c != '\n' && |rest| == 1 {
        assert ([c] + open) + second == [c] + (open + second);
        assert (([c] + open) + second)[1..] == open + second;
      }
      hide Split;
      PrependMore(c, rest, Split(open + second));
    }
  }

  lemma PrependMore(c: char, done: seq<string>, more: seq<string>)
    requires done != [] && more != []
    ensures var longer := Prepend(c, done);
            Prepend(c, done[..|done| - 1] + more) ==
            longer[..|longer| - 1] + if c != '\n' && |done| == 1 then Prepend(c, more) else more
  {
  }

  function Cut(line: string): string {
    if |line| <= MAX_COMMAND_LINE_CHARACTERS then line else line[..MAX_COMMAND_LINE_CHARACTERS]
  }

  function CutAll(lines: seq<string>): (cut: seq<string>)
    ensures |cut| == |lines|
    ensures forall i | 0 <= i < |lines| :: cut[i] == Cut(lines[i])
  {
    seq(|lines|, i requires 0 <= i < |lines| => Cut(lines[i]))
  }

  // Cutting the open line early costs nothing: what the cut dropped is past
  // the limit of the whole line too.
  lemma {:induction false} CutEarly(open: string, more: string)
    ensures CutAll(Split(Cut(open) + more)) == CutAll(Split(open + more))
    requires '\n' !in open
  {
    NoNewline(open, more);
    assert '\n' !in Cut(open);
    NoNewline(Cut(open), more);
    var tail := Split(more);
    assert Cut(Cut(open) + tail[0]) == Cut(open + tail[0]);
  }

  lemma {:induction false} NoNewline(open: string, more: string)
    requires '\n' !in open
    ensures Split(open + more) == [open + Split(more)[0]] + Split(more)[1..]
  {
    if open == "" {
      assert open + more == more;
      assert "" + Split(more)[0] == Split(more)[0];
    } else {
      assert (open + more)[1..] == open[1..] + more;
      NoNewline(open[1..], more);
      assert [open[0]] + (open[1..] + Split(more)[0]) == open + Split(more)[0];
    }
  }

  // The lines `text` has completed, and the line it leaves open, all cut.
  function Completed(text: string): seq<string> {
    var lines := Split(text);
    CutAll(lines[..|lines| - 1])
  }

  function Open(text: string): string {
    var lines := Split(text);
    Cut(lines[|lines| - 1])
  }

  // What one more chunk adds: the open line, cut as it is, and the chunk split
  // into what the whole text splits into.
  lemma {:induction false} NextLines(text: string, chunk: string)
    ensures var more := Split(Open(text) + chunk);
            && Completed(text + chunk) == Completed(text) + CutAll(more[..|more| - 1])
            && Open(text + chunk) == Cut(more[|more| - 1])
  {
    var done := Split(text);
    var open := done[|done| - 1];
    assert '\n' !in open by { SplitJoins(text); }
    SplitAppend(text, chunk);
    CutEarly(open, chunk);
    Assemble(done, Split(open + chunk), Split(Cut(open) + chunk), Split(text + chunk));
  }

  lemma Assemble(done: seq<string>, whole: seq<string>, more: seq<string>, all: seq<string>)
    requires done != [] && whole != [] && more != []
    requires all == done[..|done| - 1] + whole && CutAll(whole) == CutAll(more)
    ensures CutAll(all[..|all| - 1]) == CutAll(done[..|done| - 1]) + CutAll(more[..|more| - 1])
    ensures Cut(all[|all| - 1]) == Cut(more[|more| - 1])
  {
    var last := |whole| - 1;
    assert last == |more| - 1 by { assert |CutAll(whole)| == |CutAll(more)|; }
    assert CutAll(whole[..last]) == CutAll(more[..last]) && Cut(whole[last]) == Cut(more[last]) by {
      SameCuts(whole, more);
    }
    assert all[..|all| - 1] == done[..|done| - 1] + whole[..last];
    CutConcat(done[..|done| - 1], whole[..last]);
  }

  lemma SameCuts(left: seq<string>, right: seq<string>)
    requires left != [] && |left| == |right| && CutAll(left) == CutAll(right)
    ensures CutAll(left[..|left| - 1]) == CutAll(right[..|left| - 1])
    ensures Cut(left[|left| - 1]) == Cut(right[|left| - 1])
  {
    forall i | 0 <= i < |left| ensures Cut(left[i]) == Cut(right[i]) {
      assert CutAll(left)[i] == CutAll(right)[i];
    }
  }

  lemma CutConcat(first: seq<string>, second: seq<string>)
    ensures CutAll(first + second) == CutAll(first) + CutAll(second)
  {
  }

  // What whole-text reading hands out: every line, cut, apart from an empty
  // last one.
  function LinesOf(text: string): seq<string> {
    Completed(text) + if Open(text) == "" then [] else [Open(text)]
  }

  // Each of the lines that make up a text is handed out, cut to the limit, but
  // for a last one that is empty.
  ghost predicate HandsOut(text: string, handed: seq<string>) {
    exists lines: seq<string> ::
      && lines != [] && Join(lines) == text && (forall i | 0 <= i < |lines| :: '\n' !in lines[i])
      && |handed| == |lines| - (if lines[|lines| - 1] == "" then 1 else 0)
      && forall i | 0 <= i < |handed| ::
           && handed[i] <= lines[i]
           && |handed[i]| == if |lines[i]| <= MAX_COMMAND_LINE_CHARACTERS then |lines[i]|
                             else MAX_COMMAND_LINE_CHARACTERS
  }

  lemma LinesHandedOut(text: string)
    ensures HandsOut(text, LinesOf(text))
  {
    hide Split, Join, Cut;
    var lines := Split(text);
    SplitJoins(text);
    var last := |lines| - 1;
    CutMeans(lines[last]);
    forall i | 0 <= i < |LinesOf(text)|
      ensures && LinesOf(text)[i] <= lines[i]
              && |LinesOf(text)[i]| == if |lines[i]| <= MAX_COMMAND_LINE_CHARACTERS then |lines[i]|
                                       else MAX_COMMAND_LINE_CHARACTERS
    {
      CutMeans(lines[i]);
      if i < last { assert lines[..last][i] == lines[i]; }
    }
  }

  lemma CutMeans(line: string)
    ensures Cut(line) <= line && (Cut(line) == "" <==> line == "")
    ensures |Cut(line)| == if |line| <= MAX_COMMAND_LINE_CHARACTERS then |line| else MAX_COMMAND_LINE_CHARACTERS
  {
  }

  class Reader {
    var pending: string
    var handed: seq<string>   // what `onLine` has been given, in order
    ghost var text: string    // everything read so far

    ghost predicate Valid()
      reads this
    {
      handed == Completed(text) && pending == Open(text)
    }

    constructor ()
      ensures Valid() && text == "" && handed == []
    {
      pending, handed, text := "", [], "";
    }

    method OnLine(line: string)
      modifies this`handed
      ensures handed == old(handed) + [line]
    {
      handed := handed + [line];
    }

    method Read(chunk: string)
      requires Valid()
      modifies this
      ensures Valid() && text == old(text) + chunk
      ensures old(handed) <= handed
    {
      NextLines(text, chunk);
      var lines := Split(pending + chunk);
      var last := |lines| - 1;
      pending := Cut(lines[last]);
      HandOut(lines[..last]);
      text := text + chunk;
    }

    method HandOut(lines: seq<string>)
      modifies this`handed
      ensures handed == old(handed) + CutAll(lines)
    {
      for i := 0 to |lines|
        invariant handed == old(handed) + CutAll(lines[..i])
      {
        OnLine(Cut(lines[i]));
        assert lines[..i + 1][..i] == lines[..i];
      }
      assert lines[..|lines|] == lines;
    }

    method Flush()
      requires Valid()
      modifies this
      ensures text == old(text)
      ensures handed == LinesOf(text)
      ensures pending == ""
    {
      if pending != "" { OnLine(pending); }
      pending := "";
    }
  }

  function Concat(chunks: seq<string>): string {
    if chunks == [] then "" else Concat(chunks[..|chunks| - 1]) + chunks[|chunks| - 1]
  }

  // However a process's output is cut into chunks, its reader hands out the
  // same lines as reading the whole text at once.
  method ReadAll(chunks: seq<string>) returns (handed: seq<string>)
    ensures handed == LinesOf(Concat(chunks)) && HandsOut(Concat(chunks), handed)
  {
    var reader := new Reader();
    for i := 0 to |chunks|
      invariant reader.Valid() && reader.text == Concat(chunks[..i])
      invariant fresh(reader)
    {
      assert chunks[..i + 1][..i] == chunks[..i];
      reader.Read(chunks[i]);
    }
    assert chunks[..|chunks|] == chunks;
    reader.Flush();
    handed := reader.handed;
    LinesHandedOut(Concat(chunks));
  }
}
