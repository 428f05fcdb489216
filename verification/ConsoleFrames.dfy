/** Console lines as they go to browsers (`console-frames.ts`): cutting a line
    to fit a frame, and the newest lines that fit in one. */
module ConsoleFrames {
  import opened Options

  // A UTF-16 code unit; texts are measured and cut in these.
  type Unit = u: nat | u < 0x1_0000

  // An encoding's UTF-8 bytes, one character each.
  type Bytes = string

  datatype Line = Line(id: string, timestamp: Option<string>, text: seq<Unit>, segments: Option<seq<seq<Unit>>>)

  const MAX_FRAME_BYTES: nat := 256 * 1024

  // "… [line truncated]"
  const TRUNCATED_LINE_SUFFIX: seq<Unit> :=
    [0x2026, 0x20, 0x5B, 0x6C, 0x69, 0x6E, 0x65, 0x20, 0x74, 0x72, 0x75, 0x6E, 0x63, 0x61, 0x74, 0x65, 0x64, 0x5D]

  // A line without its styling, and its text cut to `count` units.
  function Plain(line: Line): Line {
    line.(segments := None)
  }

  function Cut(line: Line, count: nat): Line
    requires count <= |line.text|
  {
    Plain(line).(text := line.text[..count] + TRUNCATED_LINE_SUFFIX)
  }

  predicate Fits(encode: Line -> Bytes, line: Line) {
    |encode(line)| <= MAX_FRAME_BYTES
  }

  // How much of a line's text a search by halves keeps, with `low` to `high`
  // units left to try.
  function Search(encode: Line -> Bytes, line: Line, low: nat, high: int): (count: nat)
    requires low <= high + 1 <= |line.text| + 1
    ensures count <= |line.text|
    decreases high - low
  {
    if low > high then (if low == 0 then 0 else low - 1)
    else if Fits(encode, Cut(line, (low + high) / 2)) then Search(encode, line, (low + high) / 2 + 1, high)
    else Search(encode, line, low, (low + high) / 2 - 1)
  }

  // The lengths that search tries.
  function Tries(encode: Line -> Bytes, line: Line, low: nat, high: int): (tried: set<nat>)
    requires low <= high + 1 <= |line.text| + 1
    ensures forall count | count in tried :: low <= count <= high
    decreases high - low
  {
    if low > high then {}
    else if Fits(encode, Cut(line, (low + high) / 2)) then
      {(low + high) / 2} + Tries(encode, line, (low + high) / 2 + 1, high)
    else {(low + high) / 2} + Tries(encode, line, low, (low + high) / 2 - 1)
  }

  // A line as it is sent: itself if it fits, or its text alone if that does,
  // or else a start of that.
  function Fitted(encode: Line -> Bytes, line: Line): Line {
    if Fits(encode, line) then line
    else if Fits(encode, Plain(line)) then Plain(line)
    else Cut(line, Search(encode, line, 0, |line.text|))
  }

  lemma NothingKept(line: Line)
    ensures Plain(line).(text := TRUNCATED_LINE_SUFFIX) == Cut(line, 0)
  {
    assert line.text[..0] + TRUNCATED_LINE_SUFFIX == TRUNCATED_LINE_SUFFIX;
  }

  method FitConsoleLine(line: Line, encode: Line -> Bytes) returns (fitted: Line)
    ensures fitted == Fitted(encode, line)
    ensures Fits(encode, Cut(line, 0)) ==> Fits(encode, fitted)
  {
    hide Fits, Cut, Plain;
    if Fits(encode, line) { return line; }
    if Fits(encode, Plain(line)) { return Plain(line); }
    var low, high := 0, |line.text|;
    fitted := Plain(line).(text := TRUNCATED_LINE_SUFFIX);
    NothingKept(line);
    while low <= high
      invariant 0 <= low <= high + 1 <= |line.text| + 1
      invariant Search(encode, line, low, high) == Search(encode, line, 0, |line.text|)
      invariant fitted == Cut(line, if low == 0 then 0 else low - 1) && (low > 0 ==> Fits(encode, fitted))
      decreases high - low
    {
      var middle := (low + high) / 2;
      var candidate := Cut(line, middle);
      if Fits(encode, candidate) {
        fitted := candidate;
        low := middle + 1;
      } else {
        high := middle - 1;
      }
    }
  }

  predicate High(u: Unit) { 0xD800 <= u < 0xDC00 }

  predicate Low(u: Unit) { 0xDC00 <= u < 0xE000 }

  // Bytes a unit on its own takes in JSON. A lone surrogate is escaped.
  function UnitBytes(u: Unit): nat {
    if u in {0x22, 0x5C, 8, 9, 10, 12, 13} then 2
    else if u < 0x20 || High(u) || Low(u) then 6
    else if u < 0x80 then 1
    else if u < 0x800 then 2
    else 3
  }

  function TextBytes(text: seq<Unit>): nat {
    if text == [] then 0
    else if |text| > 1 && High(text[0]) && Low(text[1]) then 4 + TextBytes(text[2..])
    else UnitBytes(text[0]) + TextBytes(text[1..])
  }

  // How a unit is escaped in a JSON string, if it must be, as lone surrogates
  // are too.
  function Escape(code: nat): Option<Bytes> {
    match code
    case 0x22 => Some("\\\"")
    case 0x5C => Some("\\\\")
    case 8 => Some("\\b")
    case 9 => Some("\\t")
    case 10 => Some("\\n")
    case 12 => Some("\\f")
    case 13 => Some("\\r")
    case _ => if code < 0x20 || 0xD800 <= code <= 0xDFFF then Some("\\u" + Hex(code, 4)) else None
  }

  function Hex(code: nat, digits: nat): (written: Bytes)
    ensures |written| == digits
  {
    if digits == 0 then "" else Hex(code / 16, digits - 1) + ["0123456789abcdef"[code % 16]]
  }

  // `count` bytes that each go on with six bits of a character.
  function Tail(code: nat, count: nat): (bytes: Bytes)
    ensures |bytes| == count
  {
    if count == 0 then "" else Tail(code / 64, count - 1) + [(0x80 + code % 64) as char]
  }

  function Utf8(code: nat): Bytes
    requires code < 0x11_0000
  {
    if code <= 0x7F then [code as char]
    else if code <= 0x7FF then [(0xC0 + code / 0x40) as char] + Tail(code, 1)
    else if code <= 0xFFFF then [(0xE0 + code / 0x1000) as char] + Tail(code, 2)
    else [(0xF0 + code / 0x4_0000) as char] + Tail(code, 3)
  }

  // The character a surrogate pair stands for.
  function CodePoint(high: nat, low: nat): (code: nat)
    requires 0xD800 <= high <= 0xDBFF && 0xDC00 <= low <= 0xDFFF
    ensures 0x1_0000 <= code < 0x11_0000
  {
    0x1_0000 + (high - 0xD800) * 0x400 + (low - 0xDC00)
  }

  // A text as a JSON string writes it, quotes left out, in UTF-8.
  function Json(text: seq<Unit>): Bytes {
    if text == [] then ""
    else if |text| > 1 && 0xD800 <= text[0] <= 0xDBFF && 0xDC00 <= text[1] <= 0xDFFF then
      Utf8(CodePoint(text[0], text[1])) + Json(text[2..])
    else
      var escaped := Escape(text[0]);
      (if escaped.Some? then escaped.value else Utf8(text[0])) + Json(text[1..])
  }

  lemma {:induction false} TextWritten(text: seq<Unit>)
    ensures |Json(text)| == TextBytes(text)
  {
    hide Utf8;
    if text != [] {
      UnitWritten(text[0]);
      if |text| > 1 && High(text[0]) && Low(text[1]) {
        PairWritten(text[0], text[1]);
        TextWritten(text[2..]);
      } else {
        TextWritten(text[1..]);
      }
    }
  }

  lemma UnitWritten(u: Unit)
    ensures var escaped := Escape(u); |if escaped.Some? then escaped.value else Utf8(u)| == UnitBytes(u)
  {
  }

  lemma PairWritten(high: Unit, low: Unit)
    requires High(high) && Low(low)
    ensures |Utf8(CodePoint(high, low))| == 4
  {
  }

  // Whether cutting at `count` takes a surrogate pair apart.
  predicate Splits(text: seq<Unit>, count: nat) {
    0 < count < |text| && High(text[count - 1]) && Low(text[count])
  }

  lemma {:induction false} BytesAdd(left: seq<Unit>, right: seq<Unit>)
    requires !Splits(left + right, |left|)
    ensures TextBytes(left + right) == TextBytes(left) + TextBytes(right)
  {
    if left == [] {
      assert left + right == right;
    } else {
      var whole := left + right;
      var taken := if |whole| > 1 && High(whole[0]) && Low(whole[1]) then 2 else 1;
      assert |left| == 1 ==> (taken == 2 <==> Splits(whole, 1));
      assert whole[taken..] == left[taken..] + right;
      BytesAdd(left[taken..], right);
    }
  }

  lemma {:induction false} BytesAtLeast(text: seq<Unit>)
    ensures TextBytes(text) >= |text|
  {
    if |text| > 1 && High(text[0]) && Low(text[1]) {
      BytesAtLeast(text[2..]);
    } else if text != [] {
      BytesAtLeast(text[1..]);
    }
  }

  // A line's encoding: `base` bytes around its text.
  ghost predicate Measures(encode: Line -> Bytes, line: Line, base: nat) {
    forall text: seq<Unit> :: |encode(Plain(line).(text := text))| == base + TextBytes(text)
  }

  lemma CutBytes(encode: Line -> Bytes, line: Line, base: nat, count: nat)
    requires Measures(encode, line, base) && count <= |line.text|
    ensures |encode(Cut(line, count))| == base + TextBytes(line.text[..count]) + TextBytes(TRUNCATED_LINE_SUFFIX)
  {
    BytesAdd(line.text[..count], TRUNCATED_LINE_SUFFIX);
  }

  // Text that ends between characters takes a byte or more less for each unit
  // it is shorter by.
  lemma Shorter(text: seq<Unit>, count: nat, longer: nat)
    requires count <= longer <= |text| && !Splits(text, count)
    ensures TextBytes(text[..count]) + (longer - count) <= TextBytes(text[..longer])
  {
    assert text[..longer] == text[..count] + text[count..longer];
    BytesAdd(text[..count], text[count..longer]);
    BytesAtLeast(text[count..longer]);
  }

  // A split pair takes two bytes more than the whole one.
  lemma SplitBytes(text: seq<Unit>, count: nat)
    requires Splits(text, count)
    ensures TextBytes(text[..count]) == TextBytes(text[..count + 1]) + 2
  {
    var before := text[..count - 1];
    assert text[..count] == before + [text[count - 1]];
    assert text[..count + 1] == before + [text[count - 1], text[count]];
    BytesAdd(before, [text[count - 1]]);
    BytesAdd(before, [text[count - 1], text[count]]);
  }

  lemma SplitsOnce(text: seq<Unit>, count: nat)
    requires Splits(text, count)
    ensures count + 1 <= |text| && !Splits(text, count + 1)
  {
  }

  // The longest start of a line's text that fits.
  ghost predicate Longest(encode: Line -> Bytes, line: Line, count: nat) {
    && count <= |line.text| && Fits(encode, Cut(line, count))
    && forall longer | count < longer <= |line.text| :: !Fits(encode, Cut(line, longer))
  }

  // A cut that takes apart a pair and doesn't fit, though the pair whole does.
  ghost predicate Gap(encode: Line -> Bytes, line: Line, count: nat) {
    Splits(line.text, count) && !Fits(encode, Cut(line, count)) && Fits(encode, Cut(line, count + 1))
  }

  // Below a cut that fits, only at a gap is there one that doesn't.
  lemma FitsBelow(encode: Line -> Bytes, line: Line, base: nat, count: nat, longer: nat)
    requires Measures(encode, line, base) && count <= longer <= |line.text|
    requires Fits(encode, Cut(line, longer)) && !Gap(encode, line, count)
    ensures Fits(encode, Cut(line, count))
  {
    hide TextBytes, Measures, Cut, Splits;
    CutBytes(encode, line, base, count);
    CutBytes(encode, line, base, longer);
    if Splits(line.text, count) {
      SplitsOnce(line.text, count);
      if count < longer {
        CutBytes(encode, line, base, count + 1);
        Shorter(line.text, count + 1, longer);
      }
    } else {
      Shorter(line.text, count, longer);
    }
  }

  // No cut fits that is more than two units past a gap.
  lemma GapIsNear(encode: Line -> Bytes, line: Line, base: nat, count: nat, longer: nat)
    requires Measures(encode, line, base) && Gap(encode, line, count)
    requires count < longer <= |line.text| && Fits(encode, Cut(line, longer))
    ensures longer <= count + 2
  {
    hide TextBytes, Measures, Cut, Splits;
    SplitsOnce(line.text, count);
    SplitBytes(line.text, count);
    CutBytes(encode, line, base, count);
    CutBytes(encode, line, base, longer);
    Shorter(line.text, count + 1, longer);
  }

  lemma OneGap(encode: Line -> Bytes, line: Line, base: nat, count: nat, other: nat)
    requires Measures(encode, line, base) && Gap(encode, line, count) && Gap(encode, line, other)
    ensures count == other
  {
    hide TextBytes, Measures, Cut, Fits;
    if count < other {
      GapIsNear(encode, line, base, count, other + 1);
    } else if other < count {
      GapIsNear(encode, line, base, other, count + 1);
    }
  }

  lemma {:induction false} SearchFindsLongest(
      encode: Line -> Bytes, line: Line, base: nat, longest: nat, low: nat, high: int)
    requires Measures(encode, line, base) && Longest(encode, line, longest)
    requires low <= longest + 1 && longest <= high <= |line.text|
    requires forall count | count in Tries(encode, line, low, high) :: !Gap(encode, line, count)
    ensures Search(encode, line, low, high) == longest
    decreases high - low
  {
    hide Measures, Cut, Fits, Gap;
    if low <= high {
      var middle := (low + high) / 2;
      assert middle in Tries(encode, line, low, high);
      if Fits(encode, Cut(line, middle)) {
        SearchFindsLongest(encode, line, base, longest, middle + 1, high);
      } else {
        if middle <= longest { FitsBelow(encode, line, base, middle, longest); }
        SearchFindsLongest(encode, line, base, longest, low, middle - 1);
      }
    }
  }

  lemma {:induction false} SearchKeepsAll(encode: Line -> Bytes, line: Line, low: nat, high: nat)
    requires low <= high + 1 <= |line.text| + 1
    requires forall count | low <= count <= high :: Fits(encode, Cut(line, count))
    ensures Search(encode, line, low, high) == high
    decreases high + 1 - low
  {
    hide Cut, Fits;
    if low <= high { SearchKeepsAll(encode, line, (low + high) / 2 + 1, high); }
  }

  lemma {:induction false} SearchStopsAtGap(
      encode: Line -> Bytes, line: Line, base: nat, gap: nat, low: nat, high: int)
    requires Measures(encode, line, base) && Gap(encode, line, gap)
    requires low <= high + 1 <= |line.text| + 1 && gap in Tries(encode, line, low, high)
    ensures Search(encode, line, low, high) == gap - 1
    decreases high - low
  {
    hide Measures, Cut, Fits;
    var middle := (low + high) / 2;
    if middle == gap {
      forall count | low <= count <= gap - 1 ensures Fits(encode, Cut(line, count)) {
        if Gap(encode, line, count) { OneGap(encode, line, base, count, gap); }
        FitsBelow(encode, line, base, count, gap + 1);
      }
      SearchKeepsAll(encode, line, low, gap - 1);
    } else if Fits(encode, Cut(line, middle)) {
      SearchStopsAtGap(encode, line, base, gap, middle + 1, high);
    } else {
      SearchStopsAtGap(encode, line, base, gap, low, middle - 1);
    }
  }

  lemma {:induction false} SomeLongest(encode: Line -> Bytes, line: Line, high: nat) returns (longest: nat)
    requires high <= |line.text| && Fits(encode, Cut(line, 0))
    requires forall longer | high < longer <= |line.text| :: !Fits(encode, Cut(line, longer))
    ensures Longest(encode, line, longest)
    decreases high
  {
    hide Cut, Fits;
    if Fits(encode, Cut(line, high)) {
      longest := high;
    } else {
      longest := SomeLongest(encode, line, high - 1);
    }
  }

  // Where halving `low` to `high` first comes on a number in `from` to `to`.
  function Landing(low: nat, high: int, from: nat, to: nat): (landing: nat)
    requires low <= from <= to <= high
    ensures from <= landing <= to
    decreases high - low
  {
    var middle := (low + high) / 2;
    if middle < from then Landing(middle + 1, high, from, to)
    else if middle > to then Landing(low, middle - 1, from, to)
    else middle
  }

  // The longest cut that fits past a gap: one past it, or two.
  ghost function PastGap(encode: Line -> Bytes, line: Line, gap: nat): (longest: nat)
    requires Splits(line.text, gap)
    ensures gap < longest <= |line.text|
  {
    if gap + 2 <= |line.text| && Fits(encode, Cut(line, gap + 2)) then gap + 2 else gap + 1
  }

  // Of the cuts about a gap just those below it and from one past it on fit.
  lemma FitsAround(encode: Line -> Bytes, line: Line, base: nat, gap: nat, count: nat)
    requires Measures(encode, line, base) && Gap(encode, line, gap) && count <= |line.text|
    ensures Fits(encode, Cut(line, count)) <==> count <= PastGap(encode, line, gap) && count != gap
  {
    hide Measures, Cut, Fits;
    if count < gap {
      if Gap(encode, line, count) { OneGap(encode, line, base, count, gap); }
      FitsBelow(encode, line, base, count, gap + 1);
    } else if count > gap && Fits(encode, Cut(line, count)) {
      GapIsNear(encode, line, base, gap, count);
    }
  }

  // A gap is tried exactly if halving lands on it before the cuts past it that
  // fit: what else a line holds has no part in it.
  lemma {:induction false} GapTried(encode: Line -> Bytes, line: Line, base: nat, gap: nat, low: nat, high: int)
    requires Measures(encode, line, base) && Gap(encode, line, gap)
    requires low <= gap && PastGap(encode, line, gap) <= high <= |line.text|
    ensures gap in Tries(encode, line, low, high) <==>
              Landing(low, high, gap, PastGap(encode, line, gap)) == gap
    decreases high - low
  {
    hide Measures, Cut, Fits, PastGap;
    var middle := (low + high) / 2;
    FitsAround(encode, line, base, gap, middle);
    if middle < gap {
      GapTried(encode, line, base, gap, middle + 1, high);
    } else if middle > PastGap(encode, line, gap) {
      GapTried(encode, line, base, gap, low, middle - 1);
    }
  }

  // A cut line keeps the longest start of its text that fits, unless it has a
  // gap, of which it has one at most, that halving its length lands on before
  // the cuts past it that fit; and then it keeps what is before that gap's
  // pair, up to three units less.
  lemma {:induction false} KeepsLongest(encode: Line -> Bytes, line: Line, base: nat)
    requires Measures(encode, line, base) && Fits(encode, Cut(line, 0))
    ensures var count := Search(encode, line, 0, |line.text|);
            && ((forall gap: nat :: !Gap(encode, line, gap)) ==> Longest(encode, line, count))
            && (forall gap: nat | Gap(encode, line, gap) ::
                  var landing := Landing(0, |line.text|, gap, PastGap(encode, line, gap));
                  && (Longest(encode, line, count) <==> landing != gap)
                  && count == if landing == gap then gap - 1 else PastGap(encode, line, gap))
            && (forall gap: nat, other: nat | Gap(encode, line, gap) && Gap(encode, line, other) :: gap == other)
            && (forall longer | count + 3 < longer <= |line.text| :: !Fits(encode, Cut(line, longer)))
  {
    hide Measures, Cut, Fits, Tries, Search, Gap, Landing, PastGap, Longest, Splits;
    if gap: nat :| Gap(encode, line, gap) {
      GapDecides(encode, line, base, gap);
      forall other: nat | Gap(encode, line, other) ensures other == gap {
        OneGap(encode, line, base, gap, other);
      }
    } else {
      var longest := SomeLongest(encode, line, |line.text|);
      NoneLonger(encode, line, longest);
      SearchFindsLongest(encode, line, base, longest, 0, |line.text|);
    }
  }

  lemma NoneLonger(encode: Line -> Bytes, line: Line, longest: nat)
    requires Longest(encode, line, longest)
    ensures longest <= |line.text|
    ensures forall longer | longest < longer <= |line.text| :: !Fits(encode, Cut(line, longer))
  {
    hide Fits, Cut;
  }

  // Of a line with a gap.
  lemma {:induction false} GapDecides(encode: Line -> Bytes, line: Line, base: nat, gap: nat)
    requires Measures(encode, line, base) && Gap(encode, line, gap)
    ensures var count, past := Search(encode, line, 0, |line.text|), PastGap(encode, line, gap);
            && past <= |line.text| && Longest(encode, line, past)
            && (Longest(encode, line, count) <==> Landing(0, |line.text|, gap, past) != gap)
            && count == (if Landing(0, |line.text|, gap, past) == gap then gap - 1 else past)
            && forall longer | count + 3 < longer <= |line.text| :: !Fits(encode, Cut(line, longer))
  {
    hide Measures, Cut, Fits, Tries, Search, Landing;
    var past := PastGap(encode, line, gap);
    forall longer | gap < longer <= |line.text|
      ensures Fits(encode, Cut(line, longer)) <==> longer <= past
    {
      FitsAround(encode, line, base, gap, longer);
    }
    GapTried(encode, line, base, gap, 0, |line.text|);
    if gap in Tries(encode, line, 0, |line.text|) {
      SearchStopsAtGap(encode, line, base, gap, 0, |line.text|);
    } else {
      forall other | other in Tries(encode, line, 0, |line.text|) ensures !Gap(encode, line, other) {
        if Gap(encode, line, other) { OneGap(encode, line, base, gap, other); }
      }
      SearchFindsLongest(encode, line, base, past, 0, |line.text|);
    }
  }

  lemma GapFits(encode: Line -> Bytes, line: Line, gap: nat)
    requires Gap(encode, line, gap)
    ensures 0 < gap < |line.text| && Fits(encode, Cut(line, gap + 1))
  {
  }

  // A line whose middle takes a pair apart: the first length tried is a gap,
  // so that the pair is left out though it fits.
  lemma PairLost(encode: Line -> Bytes, line: Line, base: nat, before: nat)
    requires Measures(encode, line, base) && |line.text| == 2 * before + 2
    requires !Fits(encode, line) && !Fits(encode, Plain(line)) && Gap(encode, line, before + 1)
    ensures Fitted(encode, line) == Cut(line, before) && Fits(encode, Cut(line, before + 2))
  {
    hide Measures, Cut, Fits, Plain;
    assert before + 1 in Tries(encode, line, 0, |line.text|);
    hide Tries, Search, Gap;
    SearchStopsAtGap(encode, line, base, before + 1, 0, |line.text|);
    GapFits(encode, line, before + 1);
  }

  function Letters(count: nat): (text: seq<Unit>)
    ensures |text| == count && forall i | 0 <= i < count :: text[i] == 0x61
  {
    if count == 0 then [] else Letters(count - 1) + [0x61]
  }

  lemma {:induction false} LettersBytes(count: nat)
    ensures TextBytes(Letters(count)) == count
  {
    if count > 0 {
      LettersBytes(count - 1);
      assert !Splits(Letters(count - 1) + [0x61], count - 1);
      BytesAdd(Letters(count - 1), [0x61]);
      assert [0x61][1..] == [];
    }
  }

  // Such a line: an emoji between letters, where there is room for those
  // before it, the emoji and the suffix.
  lemma EmojiLost(encode: Line -> Bytes, line: Line, base: nat, before: nat)
    requires Measures(encode, line, base) && line.segments == None && before > TextBytes(TRUNCATED_LINE_SUFFIX)
    requires line.text == Letters(before) + [0xD83D, 0xDE00] + Letters(before)
    requires base + before + 4 + TextBytes(TRUNCATED_LINE_SUFFIX) == MAX_FRAME_BYTES
    ensures Fitted(encode, line) == Cut(line, before) && Fits(encode, Cut(line, before + 2))
  {
    hide TextBytes, Cut, Measures, Letters, Plain;
    EmojiBytes(line.text, before);
    WholeLine(encode, line, base);
    CutBytes(encode, line, base, before + 1);
    CutBytes(encode, line, base, before + 2);
    PairLost(encode, line, base, before);
  }

  lemma {:induction false} EmojiBytes(text: seq<Unit>, before: nat)
    requires text == Letters(before) + [0xD83D, 0xDE00] + Letters(before)
    ensures |text| == 2 * before + 2 && Splits(text, before + 1)
    ensures TextBytes(text[..before + 1]) == before + 6 && TextBytes(text[..before + 2]) == before + 4
    ensures TextBytes(text) == 2 * before + 4
  {
    var letters := Letters(before);
    LettersBytes(before);
    PairBytes(letters);
    hide Letters;
    assert text[..before + 1] == letters + [0xD83D];
    assert text[..before + 2] == letters + [0xD83D, 0xDE00];
    BytesAdd(letters + [0xD83D, 0xDE00], letters);
  }

  lemma WholeLine(encode: Line -> Bytes, line: Line, base: nat)
    requires Measures(encode, line, base) && line.segments == None
    ensures Plain(line) == line && |encode(line)| == base + TextBytes(line.text)
  {
    assert Plain(line).(text := line.text) == line;
  }

  lemma {:induction false} PairBytes(letters: seq<Unit>)
    requires forall i | 0 <= i < |letters| :: !High(letters[i])
    ensures TextBytes(letters + [0xD83D]) == TextBytes(letters) + 6
    ensures TextBytes(letters + [0xD83D, 0xDE00]) == TextBytes(letters) + 4
  {
    BytesAdd(letters, [0xD83D]);
    BytesAdd(letters, [0xD83D, 0xDE00]);
    assert [0xD83D][1..] == [] && [0xD83D, 0xDE00][2..] == [];
  }

  function Join(parts: seq<Bytes>): Bytes {
    if parts == [] then ""
    else if |parts| == 1 then parts[0]
    else parts[0] + "," + Join(parts[1..])
  }

  function Encoded(json: Line -> Bytes, lines: seq<Line>): (parts: seq<Bytes>)
    ensures |parts| == |lines| && forall i | 0 <= i < |lines| :: parts[i] == json(lines[i])
  {
    if lines == [] then [] else [json(lines[0])] + Encoded(json, lines[1..])
  }

  // What a batch holds around its lines.
  datatype Envelope = Envelope(prefix: Bytes, truncated: bool) {
    function Suffix(start: nat): Bytes {
      if truncated || start > 0 then "],\"truncated\":true}" else "],\"truncated\":false}"
    }

    function Encode(parts: seq<Bytes>, start: nat): Bytes {
      prefix + Join(parts) + Suffix(start)
    }

    function Batch(json: Line -> Bytes, lines: seq<Line>, start: nat): Bytes {
      Encode(Encoded(json, lines), start)
    }
  }

  function TotalBytes(parts: seq<Bytes>): nat {
    if parts == [] then 0 else |parts[0]| + TotalBytes(parts[1..])
  }

  lemma {:induction false} JoinBytes(parts: seq<Bytes>)
    ensures |Join(parts)| == TotalBytes(parts) + (if parts == [] then 0 else |parts| - 1)
  {
    if |parts| > 1 { JoinBytes(parts[1..]); }
  }

  // How far into a list written as JSON the `i`th of its parts begins, with a
  // comma after each before it.
  function Offset(parts: seq<Bytes>, i: nat): nat
    requires i <= |parts|
  {
    if i == 0 then 0 else |parts[0]| + 1 + Offset(parts[1..], i - 1)
  }

  // A part stands there whole, with a comma before it unless it is the first,
  // and the list ends with the last.
  lemma {:induction false} PartStands(parts: seq<Bytes>, i: nat)
    requires i < |parts|
    ensures var at := Offset(parts, i);
            && at + |parts[i]| <= |Join(parts)| && Join(parts)[at..at + |parts[i]|] == parts[i]
            && (i > 0 ==> at > 0 && Join(parts)[at - 1] == ',')
            && (i == |parts| - 1 ==> at + |parts[i]| == |Join(parts)|)
  {
    if i > 0 {
      var rest := Join(parts[1..]);
      PartStands(parts[1..], i - 1);
      var skipped := |parts[0]| + 1;
      assert Join(parts) == parts[0] + "," + rest;
      assert Join(parts)[skipped..] == rest;
      Shifted(Join(parts), skipped, Offset(parts[1..], i - 1), |parts[i]|);
    } else if |parts| > 1 {
      assert Join(parts) == parts[0] + ("," + Join(parts[1..]));
    }
  }

  lemma Shifted(text: Bytes, skipped: nat, at: nat, count: nat)
    requires skipped + at + count <= |text|
    ensures text[skipped..][at..at + count] == text[skipped + at..skipped + at + count]
    ensures at > 0 ==> text[skipped..][at - 1] == text[skipped + at - 1]
    ensures at == 0 && skipped > 0 ==> text[..skipped][skipped - 1] == text[skipped - 1]
  {
  }

  // What a batch is: what begins it, each line's JSON in its order with a comma
  // between, and that it is all there is or isn't.
  lemma {:induction false} BatchReads(envelope: Envelope, json: Line -> Bytes, lines: seq<Line>, start: nat, i: nat)
    requires i < |lines|
    ensures var encoded, parts := envelope.Batch(json, lines, start), Encoded(json, lines);
            var from := |envelope.prefix| + Offset(parts, i);
            var until := from + |json(lines[i])|;
            var end := if envelope.truncated || start > 0 then "],\"truncated\":true}" else "],\"truncated\":false}";
            && until + |end| <= |encoded|
            && encoded[..|envelope.prefix|] == envelope.prefix && encoded[from..until] == json(lines[i])
            && (i > 0 ==> encoded[from - 1] == ',')
            && (i == |lines| - 1 ==> encoded[until..] == end)
  {
    var parts := Encoded(json, lines);
    hide Encoded, Join;
    PartStands(parts, i);
    var joined := Join(parts);
    var encoded := envelope.Batch(json, lines, start);
    assert encoded == envelope.prefix + (joined + envelope.Suffix(start));
    var from := Offset(parts, i);
    assert encoded[|envelope.prefix| + from..|envelope.prefix| + from + |parts[i]|] == joined[from..from + |parts[i]|];
    if i == |lines| - 1 { assert encoded[|envelope.prefix| + |joined|..] == envelope.Suffix(start); }
  }

  // A line alone in a batch that says whether there are older ones.
  function Alone(prefix: Bytes, json: Line -> Bytes, older: bool): Line -> Bytes {
    line => Envelope(prefix, older).Encode([json(line)], 0)
  }

  // A line as a batch holds it.
  function Shown(prefix: Bytes, json: Line -> Bytes, line: Line, older: bool): Line {
    Fitted(Alone(prefix, json, older), line)
  }

  lemma {:induction false} OneMore(envelope: Envelope, parts: seq<Bytes>, part: Bytes, start: nat)
    ensures |envelope.Encode([part] + parts, start)| ==
            |envelope.prefix| + TotalBytes(parts) + |part| + |parts| + |envelope.Suffix(start)|
    ensures TotalBytes([part] + parts) == |part| + TotalBytes(parts)
  {
    assert ([part] + parts)[1..] == parts;
    JoinBytes([part] + parts);
  }

  lemma {:induction false} WholeBytes(envelope: Envelope, parts: seq<Bytes>, start: nat)
    requires parts != []
    ensures |envelope.Encode(parts, start)| == |envelope.prefix| + TotalBytes(parts) + |parts| - 1
            + |envelope.Suffix(start)|
  {
    JoinBytes(parts);
  }

  lemma {:induction false} EncodedMore(json: Line -> Bytes, line: Line, lines: seq<Line>)
    ensures Encoded(json, [line] + lines) == [json(line)] + Encoded(json, lines)
  {
    assert ([line] + lines)[1..] == lines;
  }

  lemma BatchMore(envelope: Envelope, json: Line -> Bytes, line: Line, rest: seq<Line>, start: nat)
    requires rest != []
    ensures |envelope.Batch(json, [line] + rest, start)| >= |envelope.Batch(json, rest, start + 1)| + 1
  {
    hide TotalBytes, Join, Envelope.Encode;
    EncodedMore(json, line, rest);
    hide Encoded;
    OneMore(envelope, Encoded(json, rest), json(line), start);
    WholeBytes(envelope, Encoded(json, rest), start + 1);
  }

  // A batch only grows as older lines join it.
  lemma {:induction false} BatchGrows(
      envelope: Envelope, json: Line -> Bytes, older: seq<Line>, held: seq<Line>, start: nat)
    requires held != []
    ensures |envelope.Batch(json, older + held, start)| >=
            |envelope.Batch(json, held, start + |older|)| + |older|
  {
    hide Envelope.Batch;
    if older == [] {
      assert older + held == held;
    } else {
      BatchGrows(envelope, json, older[1..], held, start + 1);
      BatchMore(envelope, json, older[0], older[1..] + held, start);
      assert older + held == [older[0]] + (older[1..] + held);
    }
  }

  // Whether `held` is what a batch of the lines from `start` to `end` holds:
  // each as it fits a frame.
  ghost predicate Holds(
      envelope: Envelope, json: Line -> Bytes, lines: seq<Line>, start: nat, end: nat, held: seq<Line>)
    requires start <= end <= |lines|
  {
    && |held| == end - start
    && forall i | 0 <= i < |held| :: HeldAt(envelope, json, lines[start + i], start + i, held[i])
  }

  predicate HeldAt(envelope: Envelope, json: Line -> Bytes, line: Line, index: nat, held: Line) {
    held == Shown(envelope.prefix, json, line, envelope.truncated || index > 0)
  }

  // No older line fits in too.
  ghost predicate Newest(
      envelope: Envelope, json: Line -> Bytes, lines: seq<Line>, start: nat, held: seq<Line>, maxBytes: nat)
    requires start <= |lines|
  {
    forall older: nat | older < start :: |envelope.Batch(json, lines[older..start] + held, older)| > maxBytes
  }

  lemma OlderAndMore(lines: seq<Line>, older: nat, start: nat, held: seq<Line>)
    requires older < start <= |lines|
    ensures lines[older..start] + held == lines[older..start - 1] + ([lines[start - 1]] + held)
  {
  }

  lemma NoneOlder(envelope: Envelope, json: Line -> Bytes, lines: seq<Line>, start: nat, held: seq<Line>, maxBytes: nat)
    requires 0 < start <= |lines|
    requires |envelope.Batch(json, [lines[start - 1]] + held, start - 1)| > maxBytes
    ensures Newest(envelope, json, lines, start, held, maxBytes)
  {
    hide Envelope.Batch;
    var more := [lines[start - 1]] + held;
    forall older: nat | older < start
      ensures |envelope.Batch(json, lines[older..start] + held, older)| > maxBytes
    {
      OlderAndMore(lines, older, start, held);
      BatchGrows(envelope, json, lines[older..start - 1], more, older);
    }
  }

  lemma AllHeld(envelope: Envelope, json: Line -> Bytes, lines: seq<Line>, held: seq<Line>, maxBytes: nat)
    ensures Newest(envelope, json, lines, 0, held, maxBytes)
  {
  }

  lemma NothingHeld(envelope: Envelope, json: Line -> Bytes, lines: seq<Line>, end: nat)
    requires end <= |lines|
    ensures Holds(envelope, json, lines, end, end, []) && Encoded(json, []) == [] && TotalBytes([]) == 0
  {
  }

  lemma OneEncoded(envelope: Envelope, json: Line -> Bytes, line: Line, start: nat)
    ensures envelope.Batch(json, [line], start) == Alone(envelope.prefix, json, envelope.truncated || start > 0)(line)
  {
    EncodedMore(json, line, []);
    assert [line] + [] == [line];
  }

  // A line that fits beside others fits alone.
  lemma FitsAlone(envelope: Envelope, json: Line -> Bytes, line: Line, held: seq<Line>, start: nat)
    requires |envelope.Batch(json, [line] + held, start)| <= MAX_FRAME_BYTES
    ensures HeldAt(envelope, json, line, start, line)
  {
    hide Join, Envelope.Encode, Encoded;
    assert Encoded(json, []) == [] by { NothingHeld(envelope, json, [], 0); }
    assert TotalBytes([]) == 0;
    EncodedMore(json, line, held);
    EncodedMore(json, line, []);
    assert [line] + [] == [line] && [json(line)] + [] == [json(line)];
    OneMore(envelope, Encoded(json, held), json(line), start);
    OneMore(envelope, [], json(line), start);
    OneEncoded(envelope, json, line, start);
  }

  lemma HoldsMore(
      envelope: Envelope, json: Line -> Bytes, lines: seq<Line>, start: nat, end: nat, held: seq<Line>, line: Line)
    requires start < end <= |lines| && Holds(envelope, json, lines, start + 1, end, held)
    requires HeldAt(envelope, json, lines[start], start, line)
    ensures Holds(envelope, json, lines, start, end, [line] + held)
  {
    hide HeldAt;
    forall i | 0 < i <= |held|
      ensures HeldAt(envelope, json, lines[start + i], start + i, ([line] + held)[i])
    {
      assert HeldAt(envelope, json, lines[start + 1 + (i - 1)], start + 1 + (i - 1), held[i - 1]);
    }
  }

  // A batch's size: within its budget, or that of a line cut to fit a frame.
  predicate Bounded(envelope: Envelope, json: Line -> Bytes, newest: Line, held: seq<Line>, start: nat, maxBytes: nat) {
    && (maxBytes <= MAX_FRAME_BYTES && |held| > 1 ==> |envelope.Batch(json, held, start)| <= maxBytes)
    && (|held| == 1 && |envelope.Batch(json, [Cut(newest, 0)], start)| <= MAX_FRAME_BYTES ==>
          |envelope.Batch(json, held, start)| <= MAX_FRAME_BYTES)
  }

  // The next older line as it joins a batch, which takes `candidateBytes`
  // with all of it.
  method Select(envelope: Envelope, json: Line -> Bytes, original: Line, originalJson: Bytes, held: seq<Line>,
                start: nat, candidateBytes: nat, maxBytes: nat) returns (line: Line, lineJson: Bytes)
    requires originalJson == json(original)
    requires candidateBytes == |envelope.Batch(json, [original] + held, start)|
    requires held != [] ==> candidateBytes <= maxBytes
    ensures HeldAt(envelope, json, original, start, line) && lineJson == json(line)
    ensures maxBytes <= MAX_FRAME_BYTES && held != [] ==> line == original
    ensures Bounded(envelope, json, original, [line] + held, start, maxBytes)
  {
    hide Envelope.Batch, Fitted;
    line, lineJson := original, originalJson;
    if candidateBytes > MAX_FRAME_BYTES {
      line := FitConsoleLine(original, Alone(envelope.prefix, json, envelope.truncated || start > 0));
      lineJson := json(line);
      OneEncoded(envelope, json, Cut(original, 0), start);
      OneEncoded(envelope, json, line, start);
      assert held == [] ==> [line] + held == [line];
    } else {
      FitsAlone(envelope, json, original, held, start);
    }
  }

  // A batch that ends just before `end` and, unless it is one line, takes no
  // more than `maxBytes`; no longer one would fit. `held` is its lines as cut.
  method EncodeNewestBatch(envelope: Envelope, json: Line -> Bytes, lines: seq<Line>, end: nat, maxBytes: nat)
    returns (encoded: Bytes, start: nat, held: seq<Line>)
    requires end <= |lines|
    ensures start <= end && (end > 0 ==> start < end)
    ensures Holds(envelope, json, lines, start, end, held) && encoded == envelope.Batch(json, held, start)
    ensures maxBytes <= MAX_FRAME_BYTES ==> forall i | 0 <= i < |held| - 1 :: held[i] == lines[start + i]
    ensures end > 0 ==> Bounded(envelope, json, lines[end - 1], held, start, maxBytes)
    ensures Newest(envelope, json, lines, start, held, maxBytes)
  {
    hide Join, TotalBytes, Encoded, HeldAt, Holds, Bounded, Envelope.Encode, Envelope.Suffix, Newest;
    NothingHeld(envelope, json, lines, end);
    start := end;
    held := [];
    var selected: seq<Bytes> := [];
    var selectedBytes := 0;
    while start > 0
      invariant start <= end && |selected| == |held| == end - start && selectedBytes == TotalBytes(selected)
      invariant selected == Encoded(json, held) && Holds(envelope, json, lines, start, end, held)
      invariant maxBytes <= MAX_FRAME_BYTES ==> forall i | 0 <= i < |held| - 1 :: held[i] == lines[start + i]
      invariant start < end ==> Bounded(envelope, json, lines[end - 1], held, start, maxBytes)
      decreases start
    {
      var original := lines[start - 1];
      var originalJson := json(original);
      var candidateBytes :=
        |envelope.prefix| + selectedBytes + |originalJson| + |selected| + |envelope.Suffix(start - 1)|;
      OneMore(envelope, selected, originalJson, start - 1);
      EncodedMore(json, original, held);
      if candidateBytes > maxBytes && |selected| > 0 {
        NoneOlder(envelope, json, lines, start, held, maxBytes);
        break;
      }
      start := start - 1;
      var line, lineJson := Select(envelope, json, original, originalJson, held, start, candidateBytes, maxBytes);
      if held != [] { BoundedMore(envelope, json, original, lines[end - 1], [line] + held, start, maxBytes); }
      EncodedMore(json, line, held);
      OneMore(envelope, selected, lineJson, start);
      HoldsMore(envelope, json, lines, start, end, held, line);
      selected := [lineJson] + selected;
      held := [line] + held;
      selectedBytes := selectedBytes + |lineJson|;
    }
    AllHeld(envelope, json, lines, held, maxBytes);
    encoded := envelope.Encode(selected, start);
  }

  lemma BoundedMore(envelope: Envelope, json: Line -> Bytes, line: Line, newest: Line, held: seq<Line>, start: nat,
                    maxBytes: nat)
    requires Bounded(envelope, json, line, held, start, maxBytes) && |held| > 1
    ensures Bounded(envelope, json, newest, held, start, maxBytes)
  {
  }
}
