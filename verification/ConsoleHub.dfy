/** A console's hub (`ConsoleHub` in `browser-socket.ts`): a sliding log of the
    session's output whose lines keep their positions, and the browsers it is
    sent to, newest first. */
module ConsoleHub {
  import opened Options
  import opened ConsoleFrames

  type Socket = nat

  const MAX_CONSOLE_HISTORY_LINES: nat := 5000
  const MAX_CONSOLE_HISTORY_CHARACTERS: nat := 16 * 1024 * 1024
  const RESET_LINES: nat := 200
  const RESET_FRAME_BYTES: nat := 10 * 1024
  const MAX_HISTORY_FRAME_CHARACTERS: nat := 32 * MAX_FRAME_BYTES

  function SegmentCharacters(segments: seq<seq<Unit>>): nat {
    if segments == [] then 0 else |segments[0]| + SegmentCharacters(segments[1..])
  }

  // A line's units, its styled copy counted too.
  function Characters(line: Line): nat {
    |line.text| + if line.segments.Some? then SegmentCharacters(line.segments.value) else 0
  }

  // All its segments' units, one after another.
  function Joined(segments: seq<seq<Unit>>): seq<Unit> {
    if segments == [] then [] else segments[0] + Joined(segments[1..])
  }

  lemma {:induction false} CharactersMean(line: Line)
    ensures Characters(line) == |line.text + if line.segments.Some? then Joined(line.segments.value) else []|
  {
    if line.segments.Some? { JoinedCounts(line.segments.value); }
  }

  lemma {:induction false} JoinedCounts(segments: seq<seq<Unit>>)
    ensures |Joined(segments)| == SegmentCharacters(segments)
  {
    if segments != [] { JoinedCounts(segments[1..]); }
  }

  function TotalCharacters(lines: seq<Line>): nat {
    if lines == [] then 0 else Characters(lines[0]) + TotalCharacters(lines[1..])
  }

  lemma {:induction false} TotalAdds(left: seq<Line>, right: seq<Line>)
    ensures TotalCharacters(left + right) == TotalCharacters(left) + TotalCharacters(right)
  {
    if left == [] {
      assert left + right == right;
    } else {
      assert (left + right)[1..] == left[1..] + right;
      TotalAdds(left[1..], right);
    }
  }

  function Ids(lines: seq<Line>): set<string> {
    set line | line in lines :: line.id
  }

  ghost predicate DistinctIds(lines: seq<Line>) {
    forall i, j | 0 <= i < j < |lines| :: lines[i].id != lines[j].id
  }

  // Past what a session's newest output may hold. One line is always kept.
  predicate Over(lines: seq<Line>) {
    |lines| > MAX_CONSOLE_HISTORY_LINES || (TotalCharacters(lines) > MAX_CONSOLE_HISTORY_CHARACTERS && |lines| > 1)
  }

  // Dropping lines, oldest first, until there are no longer too many drops
  // `removed` of them.
  ghost predicate TrimsBy(lines: seq<Line>, removed: nat) {
    && removed <= |lines| && !Over(lines[removed..])
    && forall k | 0 <= k < removed :: Over(lines[k..])
  }

  // How a hub writes lines: each as JSON, and what a batch begins with.
  datatype Wires = Wires(json: Line -> Bytes, resetPrefix: Bytes, historyPrefix: Bytes)

  datatype Kind = FirstPart | HistoryPart | LinePart

  // Lines sent together: those from `start` on, as they were sent.
  datatype Part = Part(kind: Kind, start: int, held: seq<Line>) {
    function End(): int { start + |held| }
  }

  function LineFrame(json: Line -> Bytes, line: Line): Bytes {
    "{\"type\":\"line\",\"line\":" + json(line) + "}"
  }

  function LineWire(json: Line -> Bytes): Line -> Bytes {
    line => LineFrame(json, line)
  }

  // Whether a line is held as it fits a batch, with older ones or without.
  predicate ShownIn(prefix: Bytes, json: Line -> Bytes, line: Line, held: Line) {
    held == Shown(prefix, json, line, true) || held == Shown(prefix, json, line, false)
  }

  predicate HeldAs(wires: Wires, kind: Kind, line: Line, held: Line) {
    match kind
    case FirstPart => ShownIn(wires.resetPrefix, wires.json, line, held)
    case HistoryPart => ShownIn(wires.historyPrefix, wires.json, line, held)
    case LinePart => held == Fitted(LineWire(wires.json), line)
  }

  // What a browser has been sent of a session, and the positions it covers;
  // `again` once it may have been sent some lines twice.
  datatype View = View(parts: seq<Part>, lo: int, hi: int, again: bool)

  // How many times a browser has been sent the line at `position`.
  function Times(parts: seq<Part>, position: int): nat {
    if parts == [] then 0
    else
      var last := parts[|parts| - 1];
      Times(parts[..|parts| - 1], position) + if last.start <= position < last.End() then 1 else 0
  }

  // The line at `position` of those from `start` on.
  function LineAt(lines: seq<Line>, start: int, position: int): Line
    requires start <= position < start + |lines|
  {
    lines[position - start]
  }

  // Those lines by position.
  function Positioned(lines: seq<Line>, start: int): map<int, Line> {
    map p: int | start <= p < start + |lines| :: LineAt(lines, start, p)
  }

  // Every line of a part is the session's line at its position, as it fits a
  // frame of that kind.
  ghost predicate Faithful(part: Part, log: map<int, Line>, wires: Wires) {
    forall p | part.start <= p < part.End() ::
      p in log && HeldAs(wires, part.kind, log[p], LineAt(part.held, part.start, p))
  }

  ghost predicate ViewFits(view: View, log: map<int, Line>, wires: Wires) {
    && view.lo <= view.hi
    && (forall part | part in view.parts ::
          view.lo <= part.start && part.End() <= view.hi && Faithful(part, log, wires))
    && (forall p | view.lo <= p < view.hi :: Times(view.parts, p) >= 1)
    && (!view.again ==> forall p | view.lo <= p < view.hi :: Times(view.parts, p) == 1)
  }

  function Sent(view: View, part: Part): View {
    View(view.parts + [part], if part.start < view.lo then part.start else view.lo,
         if part.End() > view.hi then part.End() else view.hi, view.again)
  }

  lemma {:induction false} TimesMore(parts: seq<Part>, part: Part, position: int)
    ensures Times(parts + [part], position) ==
            Times(parts, position) + if part.start <= position < part.End() then 1 else 0
  {
    assert (parts + [part])[..|parts|] == parts;
  }

  lemma {:induction false} TimesNone(parts: seq<Part>, lo: int, hi: int, position: int)
    requires forall part | part in parts :: lo <= part.start && part.End() <= hi
    requires position < lo || hi <= position
    ensures Times(parts, position) == 0
  {
    if parts != [] { TimesNone(parts[..|parts| - 1], lo, hi, position); }
  }

  // A part that continues what was sent, at either end, leaves no gap; and
  // one that begins exactly where the last ended repeats nothing.
  lemma SentFits(view: View, part: Part, log: map<int, Line>, wires: Wires)
    requires ViewFits(view, log, wires) && Faithful(part, log, wires)
    requires part.start == view.hi || (view.lo <= part.End() <= view.hi && (view.again || part.End() == view.lo))
    ensures ViewFits(Sent(view, part), log, wires)
  {
    var next := Sent(view, part);
    hide Faithful, Times;
    forall p | next.lo <= p < next.hi
      ensures Times(next.parts, p) >= 1 && (!view.again ==> Times(next.parts, p) == 1)
    {
      TimesMore(view.parts, part, p);
      if p < view.lo || view.hi <= p { TimesNone(view.parts, view.lo, view.hi, p); }
    }
  }

  lemma FaithfulLonger(part: Part, log: map<int, Line>, longer: map<int, Line>, wires: Wires)
    requires Faithful(part, log, wires) && forall p | p in log :: p in longer && longer[p] == log[p]
    ensures Faithful(part, longer, wires)
  {
    hide HeldAs;
  }

  // Lines added to a session's log change nothing sent of it.
  lemma FitsLonger(view: View, log: map<int, Line>, longer: map<int, Line>, wires: Wires)
    requires ViewFits(view, log, wires) && forall p | p in log :: p in longer && longer[p] == log[p]
    ensures ViewFits(view, longer, wires)
  {
    hide Times, Faithful;
    forall part | part in view.parts ensures Faithful(part, longer, wires) {
      FaithfulLonger(part, log, longer, wires);
    }
  }

  // Lines of history as encoded for a browser, the first of them at `start`.
  datatype Frame = Frame(encoded: Bytes, held: seq<Line>, start: int) {
    function AsPart(): Part { Part(HistoryPart, start, held) }
  }

  datatype Cached = Cached(position: int, frame: Frame)

  function FindFrame(frames: seq<Cached>, position: int): (found: Option<Frame>)
    ensures found.Some? ==> Cached(position, found.value) in frames
    ensures found.None? ==> forall cached | cached in frames :: cached.position != position
  {
    if frames == [] then None
    else if frames[0].position == position then Some(frames[0].frame)
    else FindFrame(frames[1..], position)
  }

  // The UTF-16 length of an encoding: a unit for each character's first byte,
  // two for those past the basic plane.
  function FrameCharacters(encoded: Bytes): nat {
    if encoded == [] then 0
    else
      var byte := encoded[0] as int;
      (if byte >= 0xF0 then 2 else if 0x80 <= byte < 0xC0 then 0 else 1) + FrameCharacters(encoded[1..])
  }

  lemma {:induction false} CharactersAdd(left: Bytes, right: Bytes)
    ensures FrameCharacters(left + right) == FrameCharacters(left) + FrameCharacters(right)
  {
    if left == "" {
      assert left + right == right;
    } else {
      assert (left + right)[1..] == left[1..] + right;
      CharactersAdd(left[1..], right);
    }
  }

  // Each character counts once, or twice past the basic plane.
  lemma CharactersOfOne(code: nat)
    requires code < 0x11_0000
    ensures FrameCharacters(Utf8(code)) == if code >= 0x1_0000 then 2 else 1
  {
    var encoded := Utf8(code);
    assert encoded == [encoded[0]] + encoded[1..];
    if code > 0x7F {
      CharactersAdd([encoded[0]], encoded[1..]);
      assert encoded[1..] == Tail(code, |encoded| - 1);
      TailIsNone(code, |encoded| - 1);
    }
  }

  lemma {:induction false} TailIsNone(code: nat, count: nat)
    ensures FrameCharacters(Tail(code, count)) == 0
  {
    if count > 0 {
      TailIsNone(code / 64, count - 1);
      CharactersAdd(Tail(code / 64, count - 1), [(0x80 + code % 64) as char]);
    }
  }

  function CachedCharacters(frames: seq<Cached>): nat {
    if frames == [] then 0 else FrameCharacters(frames[0].frame.encoded) + CachedCharacters(frames[1..])
  }

  // Cached frames, the oldest dropped for as long as they are over budget.
  function Evicted(frames: seq<Cached>): (kept: seq<Cached>)
    ensures forall cached | cached in kept :: cached in frames
    ensures CachedCharacters(kept) <= MAX_HISTORY_FRAME_CHARACTERS
  {
    if frames == [] || CachedCharacters(frames) <= MAX_HISTORY_FRAME_CHARACTERS then frames else Evicted(frames[1..])
  }

  // The frames kept once one more has been made, if it is one to keep.
  function KeptFrames(f: Facts, position: int, frame: Frame): seq<Cached> {
    if frame.start > f.Position(0) then Evicted(f.frames + [Cached(position, frame)]) else f.frames
  }

  // A hub as it is, with what its browsers have been sent of its session.
  datatype Facts = Facts(
    recent: seq<Line>, appended: int, truncated: bool, frames: seq<Cached>, readers: map<Socket, int>,
    subscribers: set<Socket>, started: bool, wires: Wires,
    log: map<int, Line>,         // the session's lines, by position
    first: int,                  // the oldest of those positions
    views: map<Socket, View>,
    gone: set<Socket>)           // browsers whose connection is over
  {
    // Where `recent[index]` lies in the session.
    function Position(index: int): int {
      appended - |recent| + index
    }

    // What a history frame from `position` on holds around its lines.
    function Around(position: int): Envelope {
      Envelope(wires.historyPrefix, truncated || position > Position(0))
    }

    // What a first frame from `position` on holds around its lines.
    function First(position: int): Envelope {
      Envelope(wires.resetPrefix, truncated || position > Position(0))
    }

    // A first frame holds the newest lines, as many of the last 200 as are
    // small enough together, and says whether there are older ones.
    ghost predicate FirstFits(encoded: Bytes, part: Part) {
      var from := SnapshotStart(|recent|);
      && Position(from) <= part.start && part.End() == appended && (recent != [] ==> part.held != [])
      && part.kind == FirstPart && Faithful(part, log, wires)
      && encoded == First(part.start).Batch(wires.json, part.held, 0)
      && (recent != [] ==>
            Bounded(First(part.start), wires.json, recent[|recent| - 1], part.held, 0, RESET_FRAME_BYTES))
      && (part.start > Position(from) ==>
            |First(part.start - 1).Batch(wires.json, [LineAt(recent, Position(0), part.start - 1)] + part.held, 0)| >
            RESET_FRAME_BYTES)
    }

    function Whole(): Envelope {
      Envelope(wires.historyPrefix, truncated)
    }

    // A line of a frame made now.
    ghost predicate MadeAt(frame: Frame, position: int)
      requires frame.start <= position < frame.start + |frame.held|
    {
      && position in log
      && LineAt(frame.held, frame.start, position) ==
         Shown(wires.historyPrefix, wires.json, log[position], truncated || position > Position(0))
    }

    // A frame with the line before it added.
    ghost function OneMore(frame: Frame): Bytes
      requires frame.start - 1 in log
    {
      Around(frame.start - 1).Batch(wires.json, [log[frame.start - 1]] + frame.held, 0)
    }

    // A frame as it is made from the lines kept now: the newest before
    // `position` that fit, of which only the very newest may be cut.
    ghost predicate Made(position: int, frame: Frame) {
      && Position(0) <= frame.start < position && |frame.held| == position - frame.start
      && (forall p | frame.start <= p < position :: MadeAt(frame, p))
      && (forall p | frame.start <= p < position - 1 :: p in log && LineAt(frame.held, frame.start, p) == log[p])
      && frame.encoded == Around(frame.start).Batch(wires.json, frame.held, 0)
      && (|frame.held| > 1 ==> |frame.encoded| <= MAX_FRAME_BYTES)
      && (frame.start > Position(0) ==> frame.start - 1 in log && |OneMore(frame)| > MAX_FRAME_BYTES)
    }

    ghost predicate Logged() {
      && first <= Position(0) && (forall p :: p in log <==> first <= p < appended)
      && forall p | Position(0) <= p < appended :: log[p] == LineAt(recent, Position(0), p)
    }

    // A cached frame holds the lines before its position, as it says, and
    // says that there are more, which is still so.
    ghost predicate FrameFits(position: int, frame: Frame) {
      && frame.start < position && |frame.held| == position - frame.start
      && Faithful(frame.AsPart(), log, wires)
      && frame.encoded == Around(frame.start).Batch(wires.json, frame.held, 0)
      && position - 1 in log
      && Bounded(Around(frame.start), wires.json, log[position - 1], frame.held, 0, MAX_FRAME_BYTES)
    }

    // The session when its oldest line kept was at `oldest`.
    function Then(oldest: int, was: bool): Facts {
      this.(recent := [], appended := oldest, truncated := was)
    }

    ghost predicate MadeWhen(oldest: int, was: bool, position: int, frame: Frame) {
      && Then(oldest, was).Made(position, frame) && frame.start > oldest
      && (was ==> truncated) && (Position(0) > oldest ==> truncated)
    }

    // A frame was made of the session's lines once, when it had older ones.
    ghost predicate MadeOnce(position: int, frame: Frame) {
      exists oldest, was :: MadeWhen(oldest, was, position, frame)
    }

    ghost predicate CacheFits() {
      forall cached | cached in frames ::
        && FrameFits(cached.position, cached.frame) && MadeOnce(cached.position, cached.frame)
        && (truncated || cached.frame.start > Position(0))
    }

    ghost predicate SocketFits(socket: Socket)
      requires socket in views
    {
      var view := views[socket];
      && ViewFits(view, log, wires) && view.hi == appended && first <= view.lo
      && if socket in readers then
           view.lo <= readers[socket] && (!view.again ==> readers[socket] == view.lo)
         else
           view.lo <= Position(0)
    }

    // Every browser still there has been sent the session, but for those
    // about to be.
    ghost predicate ViewedBut(waiting: set<Socket>) {
      && views.Keys <= subscribers && readers.Keys <= subscribers
      && (forall s | s in readers :: readers[s] <= appended)
      && (forall s | s in subscribers && started && s !in gone && s !in waiting :: s in views)
      && forall s | s in views :: SocketFits(s)
    }

    ghost predicate ValidBut(waiting: set<Socket>) {
      Logged() && CacheFits() && ViewedBut(waiting)
    }

    ghost predicate Valid() {
      ValidBut({})
    }
  }

  // The hub with `line` appended and `removed` of the oldest lines dropped.
  function Trimmed(f: Facts, line: Line, removed: nat): Facts
    requires removed <= |f.recent|
  {
    f.(recent := (f.recent + [line])[removed..], appended := f.appended + 1, truncated := f.truncated || removed > 0)
  }

  // The hub with its newest line sent to every browser, as `held`.
  ghost function Told(f: Facts, line: Line, held: Line): Facts {
    f.(log := f.log[f.appended - 1 := line], views := SentAll(f.views, Part(LinePart, f.appended - 1, [held])))
  }

  ghost function Appended(f: Facts, line: Line, held: Line, removed: nat): Facts
    requires removed <= |f.recent|
  {
    Told(Trimmed(f, line, removed), line, held)
  }

  // `part` sent to every browser.
  ghost function SentAll(views: map<Socket, View>, part: Part): map<Socket, View> {
    map s | s in views :: Sent(views[s], part)
  }

  // `g` is `f` after output was appended, trimmed, or put first.
  ghost predicate Later(f: Facts, g: Facts) {
    && g.wires == f.wires && (f.truncated ==> g.truncated)
    && (g.Position(0) > f.Position(0) ==> g.truncated)
    && forall p | p in f.log :: p in g.log && g.log[p] == f.log[p]
  }

  lemma LaterStill(f: Facts, g: Facts, h: Facts)
    requires Later(f, g) && Later(g, h)
    ensures Later(f, h)
  {
  }

  lemma MadeLater(f: Facts, g: Facts, oldest: int, was: bool, position: int, frame: Frame)
    requires Later(f, g) && f.MadeWhen(oldest, was, position, frame)
    ensures g.MadeWhen(oldest, was, position, frame)
  {
    hide Shown, Envelope.Batch;
    var before, after := f.Then(oldest, was), g.Then(oldest, was);
    forall p | frame.start <= p < position
      ensures after.MadeAt(frame, p) && (p < position - 1 ==> LineAt(frame.held, frame.start, p) == g.log[p])
    {
      assert before.MadeAt(frame, p);
    }
  }

  lemma MadeOnceLater(f: Facts, g: Facts, position: int, frame: Frame)
    requires Later(f, g) && f.MadeOnce(position, frame)
    ensures g.MadeOnce(position, frame)
  {
    hide Facts.MadeWhen;
    var oldest, was :| f.MadeWhen(oldest, was, position, frame);
    MadeLater(f, g, oldest, was, position, frame);
  }

  lemma AppendKeeps(f: Facts, line: Line, held: Line, removed: nat)
    requires f.Valid() && removed <= |f.recent| && HeldAs(f.wires, LinePart, line, held)
    ensures Appended(f, line, held, removed).Valid()
  {
    var g := Appended(f, line, held, removed);
    AppendKeepsCache(f, line, held, removed);
    AppendKeepsLog(f, line, held, removed);
    hide Facts.Logged, ViewFits, HeldAs, Faithful, Facts.CacheFits;
    forall s | s in g.views ensures g.SocketFits(s) {
      assert f.SocketFits(s);
      SentLine(f.views[s], f.log, g.log, Part(LinePart, f.appended, [held]), f.wires);
    }
  }

  lemma AppendKeepsLog(f: Facts, line: Line, held: Line, removed: nat)
    requires f.Logged() && removed <= |f.recent| && HeldAs(f.wires, LinePart, line, held)
    ensures var g := Appended(f, line, held, removed);
            && g.Logged() && Faithful(Part(LinePart, f.appended, [held]), g.log, g.wires)
            && g.Position(0) >= f.Position(0)
            && forall p | p in f.log :: p in g.log && g.log[p] == f.log[p]
  {
    hide HeldAs, Faithful;
    OneIsFaithful(f.appended, line, held, Appended(f, line, held, removed).log, f.wires);
  }

  lemma SentLine(view: View, log: map<int, Line>, longer: map<int, Line>, part: Part, wires: Wires)
    requires ViewFits(view, log, wires) && forall p | p in log :: p in longer && longer[p] == log[p]
    requires part.start == view.hi && Faithful(part, longer, wires)
    ensures ViewFits(Sent(view, part), longer, wires)
    ensures Sent(view, part) == view.(parts := view.parts + [part], hi := part.End())
  {
    FitsLonger(view, log, longer, wires);
    SentFits(view, part, longer, wires);
  }

  lemma OneIsFaithful(position: int, line: Line, held: Line, log: map<int, Line>, wires: Wires)
    requires position in log && log[position] == line && HeldAs(wires, LinePart, line, held)
    ensures Faithful(Part(LinePart, position, [held]), log, wires)
  {
  }

  lemma SentSpans(view: View, part: Part)
    ensures Sent(view, part).again == view.again
    ensures Sent(view, part).lo == if part.start < view.lo then part.start else view.lo
    ensures Sent(view, part).hi == if part.End() > view.hi then part.End() else view.hi
  {
  }

  lemma AppendKeepsCache(f: Facts, line: Line, held: Line, removed: nat)
    requires f.Valid() && removed <= |f.recent|
    ensures Appended(f, line, held, removed).CacheFits()
  {
    var g := Appended(f, line, held, removed);
    hide ViewFits, Faithful, HeldAs, Envelope.Batch, Facts.MadeOnce, Bounded;
    forall cached | cached in g.frames
      ensures g.FrameFits(cached.position, cached.frame) && g.MadeOnce(cached.position, cached.frame)
    {
      assert f.FrameFits(cached.position, cached.frame);
      FaithfulLonger(cached.frame.AsPart(), f.log, g.log, f.wires);
      MadeOnceLater(f, g, cached.position, cached.frame);
    }
  }

  // The hub with older lines put first.
  function Prepended(f: Facts, kept: seq<Line>, truncated: bool): Facts {
    var from := f.Position(0) - |kept|;
    f.(recent := kept + f.recent, truncated := truncated, log := f.log + Positioned(kept, from),
       first := if from < f.first then from else f.first)
  }

  // The hub with the browsers that had all there was sent more, from before
  // `position`. Those sent more than that, since trimmed, get it again.
  function Resumed(f: Facts, position: int): Facts {
    f.(readers := f.readers + map s | s in f.subscribers - f.readers.Keys :: position,
       views := map s | s in f.views :: Reread(f.views[s], s !in f.readers && f.views[s].lo != position))
  }

  function Backfilled(f: Facts, kept: seq<Line>, truncated: bool): Facts {
    var g := Prepended(f, kept, truncated);
    if kept == [] then g else Resumed(g, f.Position(0))
  }

  function Reread(view: View, again: bool): View {
    view.(again := view.again || again)
  }

  // Older output agrees with the session's lines at the positions it takes.
  ghost predicate Agrees(f: Facts, kept: seq<Line>) {
    var from := f.Position(0) - |kept|;
    forall p | from <= p < f.Position(0) && p in f.log :: f.log[p] == LineAt(kept, from, p)
  }

  lemma BackfillKeepsLog(f: Facts, kept: seq<Line>, truncated: bool)
    requires f.Logged() && Agrees(f, kept)
    ensures var g := Backfilled(f, kept, truncated);
            && g.Logged() && g.appended == f.appended && g.first <= f.first
            && (forall p | p in f.log :: p in g.log && g.log[p] == f.log[p])
            && g.Position(0) == f.Position(0) - |kept|
  {
    hide Prepended, Agrees, Resumed;
    PrependKeepsLog(f, kept, truncated);
    ResumedLog(Prepended(f, kept, truncated), f.Position(0));
  }

  lemma ResumedLog(f: Facts, position: int)
    requires f.Logged()
    ensures var g := Resumed(f, position);
            && g.Logged() && g.appended == f.appended && g.recent == f.recent && g.first == f.first && g.log == f.log
  {
  }

  lemma PrependKeepsLog(f: Facts, kept: seq<Line>, truncated: bool)
    requires f.Logged() && Agrees(f, kept)
    ensures var g := Prepended(f, kept, truncated);
            && g.Logged() && g.appended == f.appended && g.first <= f.first
            && (forall p | p in f.log :: p in g.log && g.log[p] == f.log[p])
            && g.Position(0) == f.Position(0) - |kept|
  {
    var g := Prepended(f, kept, truncated);
    forall p | g.Position(0) <= p < g.appended ensures g.log[p] == LineAt(g.recent, g.Position(0), p) {
      if p >= f.Position(0) { assert f.log[p] == LineAt(f.recent, f.Position(0), p); }
    }
  }

  lemma BackfillKeeps(f: Facts, kept: seq<Line>, truncated: bool)
    requires f.Valid() && f.started && Agrees(f, kept) && (f.truncated ==> truncated)
    ensures Backfilled(f, kept, truncated).Valid()
  {
    BackfillKeepsLog(f, kept, truncated);
    BackfillKeepsCache(f, kept, truncated);
    var g := Backfilled(f, kept, truncated);
    hide Facts.Logged, Facts.CacheFits, Facts.SocketFits;
    forall s | s in g.views ensures g.SocketFits(s) {
      BackfillKeepsSocket(f, kept, truncated, s);
    }
  }

  lemma BackfillKeepsSocket(f: Facts, kept: seq<Line>, truncated: bool, s: Socket)
    requires f.Valid() && s in f.views && Agrees(f, kept)
    ensures var g := Backfilled(f, kept, truncated); s in g.views && g.SocketFits(s)
  {
    BackfillKeepsLog(f, kept, truncated);
    hide Facts.Logged, Facts.CacheFits, ViewFits;
    assert f.SocketFits(s);
    var g := Backfilled(f, kept, truncated);
    FitsLonger(f.views[s], f.log, g.log, f.wires);
    RereadFits(f.views[s], s !in f.readers && f.views[s].lo != f.Position(0), g.log, f.wires);
  }

  // Nothing is sent twice when backfill brings back no line trimmed before.
  lemma BackfillRepeats(f: Facts, kept: seq<Line>, truncated: bool)
    requires f.Valid()
    ensures var g := Backfilled(f, kept, truncated);
            && g.Position(|kept|) == f.Position(0)
            && (f.first == f.Position(0) ==>
                  forall s | s in f.views :: s in g.views && g.views[s].again == f.views[s].again)
  {
    var g := Backfilled(f, kept, truncated);
    hide Facts.Logged, Facts.CacheFits, ViewFits;
    forall s | s in f.views && f.first == f.Position(0) ensures s in g.views && g.views[s].again == f.views[s].again {
      assert f.SocketFits(s);
    }
  }

  lemma RereadFits(view: View, again: bool, log: map<int, Line>, wires: Wires)
    requires ViewFits(view, log, wires)
    ensures ViewFits(Reread(view, again), log, wires)
  {
    hide Times, Faithful;
  }

  lemma BackfillKeepsCache(f: Facts, kept: seq<Line>, truncated: bool)
    requires f.Valid() && Agrees(f, kept) && (f.truncated ==> truncated)
    ensures Backfilled(f, kept, truncated).CacheFits()
  {
    BackfillKeepsLog(f, kept, truncated);
    var g := Backfilled(f, kept, truncated);
    hide Facts.Logged, ViewFits, Faithful, HeldAs, Envelope.Batch, Agrees, Facts.MadeOnce, Bounded;
    forall cached | cached in g.frames
      ensures g.FrameFits(cached.position, cached.frame) && g.MadeOnce(cached.position, cached.frame)
    {
      assert f.FrameFits(cached.position, cached.frame);
      FaithfulLonger(cached.frame.AsPart(), f.log, g.log, f.wires);
      MadeOnceLater(f, g, cached.position, cached.frame);
    }
  }

  // A reader's next frame sent, and where it goes on from.
  function Advanced(f: Facts, s: Socket, frame: Frame): Facts {
    f.(readers := if frame.start <= f.Position(0) then f.readers - {s} else f.readers[s := frame.start],
       views := if s in f.views then f.views[s := Sent(f.views[s], frame.AsPart())] else f.views)
  }

  lemma AdvanceKeeps(f: Facts, s: Socket, frame: Frame)
    requires f.Valid() && s in f.readers && f.FrameFits(f.readers[s], frame)
    ensures Advanced(f, s, frame).Valid()
  {
    var g := Advanced(f, s, frame);
    hide Facts.CacheFits, ViewFits, Sent, Faithful, Envelope.Batch;
    assert g.CacheFits() by { SameCache(f, g); }
    forall o | o in g.views ensures g.SocketFits(o) {
      assert f.SocketFits(o);
      if o == s {
        var part := frame.AsPart();
        StartsAfterFirst(f, s, frame);
        SentFits(f.views[s], part, f.log, f.wires);
        SentSpans(f.views[s], part);
      }
    }
  }

  lemma StartsAfterFirst(f: Facts, s: Socket, frame: Frame)
    requires f.Logged() && s in f.readers && f.FrameFits(f.readers[s], frame)
    ensures f.first <= frame.start
  {
    assert frame.start in f.log;
  }

  lemma SameCache(f: Facts, g: Facts)
    requires f.CacheFits()
    requires g.frames == f.frames && g.log == f.log && g.recent == f.recent && g.appended == f.appended
    requires g.truncated == f.truncated && g.wires == f.wires
    ensures g.CacheFits()
  {
    hide Faithful, Envelope.Batch, Facts.MadeOnce, Bounded;
    forall cached | cached in g.frames
      ensures g.FrameFits(cached.position, cached.frame) && g.MadeOnce(cached.position, cached.frame)
    {
      assert f.FrameFits(cached.position, cached.frame);
      MadeOnceLater(f, g, cached.position, cached.frame);
    }
  }

  // A reader that has reached the oldest line kept stops.
  function Stopped(f: Facts, s: Socket): Facts {
    f.(readers := f.readers - {s})
  }

  lemma StopKeeps(f: Facts, s: Socket)
    requires f.Valid() && s in f.readers && (f.readers[s] <= f.Position(0) || s !in f.views)
    ensures Stopped(f, s).Valid()
  {
    var g := Stopped(f, s);
    hide Facts.CacheFits, ViewFits;
    assert g.CacheFits() by { SameCache(f, g); }
    forall o | o in g.views ensures g.SocketFits(o) {
      assert f.SocketFits(o);
    }
  }

  // A browser's connection is over.
  function Left(f: Facts, s: Socket): Facts {
    f.(gone := f.gone + {s}, views := f.views - {s})
  }

  function Unsubscribed(f: Facts, s: Socket): Facts {
    f.(subscribers := f.subscribers - {s}, readers := f.readers - {s}, views := f.views - {s})
  }

  lemma LeaveKeeps(f: Facts, s: Socket)
    requires f.Valid()
    ensures Left(f, s).Valid() && Unsubscribed(f, s).Valid()
  {
    var g, h := Left(f, s), Unsubscribed(f, s);
    hide Facts.CacheFits, ViewFits;
    assert g.CacheFits() && h.CacheFits() by { SameCache(f, g); SameCache(f, h); }
    forall o | o in g.views ensures g.SocketFits(o) && h.SocketFits(o) {
      assert f.SocketFits(o);
    }
  }

  // A browser's first frame of the session: `part` of its newest lines, with
  // older ones to follow.
  function Reset(f: Facts, s: Socket, part: Part): Facts {
    f.(readers := if part.start <= f.Position(0) then f.readers - {s} else (f.readers - {s})[s := part.start],
       views := if s in f.gone then f.views else f.views[s := View([part], part.start, part.End(), false)])
  }

  lemma ResetKeeps(f: Facts, waiting: set<Socket>, s: Socket, part: Part)
    requires f.ValidBut(waiting) && s in f.subscribers && (s in f.gone ==> s !in f.views)
    requires f.Position(0) <= part.start && part.End() == f.appended && Faithful(part, f.log, f.wires)
    ensures Reset(f, s, part).ValidBut(waiting - {s})
  {
    var g := Reset(f, s, part);
    hide Facts.CacheFits, ViewFits, Faithful;
    assert g.CacheFits() by { SameCache(f, g); }
    FirstFits(part, f.log, f.wires);
    forall o | o in g.views ensures g.SocketFits(o) {
      if o != s { assert f.SocketFits(o); }
    }
  }

  lemma FirstFits(part: Part, log: map<int, Line>, wires: Wires)
    requires Faithful(part, log, wires)
    ensures ViewFits(View([part], part.start, part.End(), false), log, wires)
  {
    hide Faithful;
    forall p ensures Times([part], p) == if part.start <= p < part.End() then 1 else 0 {
      TimesMore([], part, p);
      assert [] + [part] == [part];
    }
  }

  // The hub as a new session begins, with nothing sent of it.
  function Emptied(f: Facts, wires: Wires): Facts {
    f.(frames := [], readers := map[], started := true, wires := wires, views := map[])
  }

  // Its newest output, of which `removed` lines are dropped.
  function Filled(f: Facts, lines: seq<Line>, truncated: bool, removed: nat): Facts
    requires removed <= |lines|
  {
    f.(recent := lines[removed..], appended := |lines|, truncated := truncated || removed > 0,
       log := Positioned(lines[removed..], removed), first := removed)
  }

  function Replaced(f: Facts, lines: seq<Line>, truncated: bool, wires: Wires, removed: nat): Facts
    requires removed <= |lines|
  {
    Filled(Emptied(f, wires), lines, truncated, removed)
  }

  lemma ReplaceKeeps(f: Facts, lines: seq<Line>, truncated: bool, wires: Wires, removed: nat)
    requires removed <= |lines|
    ensures Replaced(f, lines, truncated, wires, removed).ValidBut(f.subscribers)
  {
  }

  // What the hub's counts must be for the lines it keeps.
  ghost predicate Counted(recent: seq<Line>, characters: int, ids: set<string>) {
    characters == TotalCharacters(recent) && ids == Ids(recent) && DistinctIds(recent)
  }

  lemma CountsAppended(recent: seq<Line>, characters: int, ids: set<string>, line: Line)
    requires Counted(recent, characters, ids) && line.id !in ids
    ensures Counted(recent + [line], characters + Characters(line), ids + {line.id})
  {
    TotalAdds(recent, [line]);
    assert TotalCharacters([line]) == Characters(line);
    hide TotalCharacters, Characters;
    forall o | o in recent ensures o.id in Ids(recent) {
    }
    assert forall o | o in recent + [line] :: o == line || o in recent;
    assert Ids(recent + [line]) == Ids(recent) + {line.id} by {
      forall id | id in Ids(recent) ensures id in Ids(recent + [line]) {
        var o :| o in recent && o.id == id;
        assert o in recent + [line];
      }
      assert line in recent + [line];
    }
  }

  lemma CountsShifted(recent: seq<Line>, characters: int, ids: set<string>)
    requires Counted(recent, characters, ids) && recent != []
    ensures Counted(recent[1..], characters - Characters(recent[0]), ids - {recent[0].id})
  {
    hide Characters;
    assert Ids(recent[1..]) == Ids(recent) - {recent[0].id} by {
      forall id | id in Ids(recent) && id != recent[0].id ensures id in Ids(recent[1..]) {
        var o :| o in recent && o.id == id;
        assert o in recent[1..];
      }
      forall o | o in recent[1..] ensures o.id != recent[0].id && o in recent {
      }
    }
  }

  // Those of `older` the hub doesn't have.
  function Fresh(older: seq<Line>, ids: set<string>): (novel: seq<Line>)
    ensures forall line | line in novel :: line in older && line.id !in ids
    ensures |novel| <= |older|
  {
    if older == [] then []
    else if older[0].id in ids then Fresh(older[1..], ids)
    else [older[0]] + Fresh(older[1..], ids)
  }

  lemma {:induction false} FreshOfNone(ids: set<string>)
    ensures Fresh([], ids) == []
  {
  }

  lemma {:induction false} FreshMore(line: Line, rest: seq<Line>, ids: set<string>)
    ensures Fresh([line] + rest, ids) == (if line.id in ids then [] else [line]) + Fresh(rest, ids)
  {
    assert ([line] + rest)[1..] == rest;
  }

  // Every line whose ID isn't known is kept, where it was among the others.
  lemma {:induction false} FreshKeepsOrder(before: seq<Line>, line: Line, after: seq<Line>, ids: set<string>)
    ensures Fresh(before + [line] + after, ids) ==
            Fresh(before, ids) + (if line.id in ids then [] else [line]) + Fresh(after, ids)
  {
    hide Fresh;
    var all := before + [line] + after;
    FreshOfNone(ids);
    if before == [] {
      FreshMore(line, after, ids);
      assert all == [line] + after;
    } else {
      var less := before[1..];
      FreshKeepsOrder(less, line, after, ids);
      FreshMore(before[0], less + [line] + after, ids);
      FreshMore(before[0], less, ids);
      assert all == [before[0]] + (less + [line] + after) && before == [before[0]] + less;
    }
  }

  lemma {:induction false} FreshIsDistinct(older: seq<Line>, ids: set<string>)
    requires DistinctIds(older)
    ensures DistinctIds(Fresh(older, ids))
  {
    if older != [] {
      FreshIsDistinct(older[1..], ids);
      var rest := Fresh(older[1..], ids);
      forall line | line in rest ensures line.id != older[0].id {
        assert line in older[1..];
      }
    }
  }

  lemma {:induction false} CountsBackfilled(recent: seq<Line>, characters: int, ids: set<string>, novel: seq<Line>)
    requires Counted(recent, characters, ids) && DistinctIds(novel)
    requires forall line | line in novel :: line.id !in ids
    ensures Counted(novel + recent, characters + TotalCharacters(novel), ids + Ids(novel))
  {
    hide TotalCharacters, Ids, DistinctIds;
    TotalAdds(novel, recent);
    IdsAdd(novel, recent);
    DistinctAdds(novel, recent);
  }

  lemma IdsAdd(left: seq<Line>, right: seq<Line>)
    ensures Ids(left + right) == Ids(right) + Ids(left)
  {
    forall id | id in Ids(right) + Ids(left) ensures id in Ids(left + right) {
      var o :| (o in right || o in left) && o.id == id;
      assert o in left + right;
    }
  }

  lemma DistinctAdds(left: seq<Line>, right: seq<Line>)
    requires DistinctIds(left) && DistinctIds(right)
    requires forall line | line in left :: line.id !in Ids(right)
    ensures DistinctIds(left + right)
  {
    var all := left + right;
    forall i, j | 0 <= i < j < |all| ensures all[i].id != all[j].id {
      if i < |left| && j >= |left| {
        assert all[i] in left && all[j] in right;
      }
    }
  }

  // Trimming doesn't reach lines that fitted before older ones came.
  lemma TrimsNoFurther(novel: seq<Line>, recent: seq<Line>, removed: nat)
    requires !Over(recent) && TrimsBy(novel + recent, removed)
    ensures removed <= |novel| && (novel + recent)[removed..] == novel[removed..] + recent
  {
    assert (novel + recent)[|novel|..] == recent;
    hide Over;
    assert !Over((novel + recent)[|novel|..]);
  }

  lemma AgreesLater(f: Facts, novel: seq<Line>, removed: nat)
    requires Agrees(f, novel) && removed <= |novel|
    ensures Agrees(f, Last(novel, |novel| - removed))
  {
    var from := f.Position(0) - |novel|;
    forall p | from + removed <= p < f.Position(0) && p in f.log
      ensures f.log[p] == LineAt(novel[removed..], from + removed, p)
    {
      assert f.log[p] == LineAt(novel, from, p);
    }
  }

  lemma NothingPrepended(f: Facts, truncated: bool)
    ensures Prepended(f, [], truncated) == f.(truncated := truncated, first := Prepended(f, [], truncated).first)
    ensures f.first <= f.Position(0) ==> Backfilled(f, [], truncated) == f.(truncated := truncated)
    ensures Agrees(f, [])
  {
    assert Positioned([], f.Position(0)) == map[];
    assert f.log + map[] == f.log;
    assert [] + f.recent == f.recent;
  }

  lemma {:induction false} CountsWhole(lines: seq<Line>)
    requires DistinctIds(lines)
    ensures Counted(lines, TotalCharacters(lines), Ids(lines))
  {
  }

  lemma TrimsWithin(lines: seq<Line>, removed: nat)
    requires TrimsBy(lines, removed)
    ensures removed <= |lines|
  {
  }

  lemma FilledKeeps(f: Facts, lines: seq<Line>, truncated: bool, removed: nat)
    requires removed <= |lines|
    ensures var g := Filled(f, lines, truncated, removed);
            g.views == f.views && g.subscribers == f.subscribers && g.frames == f.frames && g.gone == f.gone
            && g.appended == |lines| && g.started == f.started && g.recent == lines[removed..] && g.wires == f.wires
  {
  }

  // A hub that differs only in what filling it sets is filled.
  lemma IsFilled(f: Facts, g: Facts, lines: seq<Line>, truncated: bool, removed: nat)
    requires removed <= |lines| && g.recent == lines[removed..] && g.appended == |lines|
    requires g.truncated == (truncated || removed > 0) && g.log == Positioned(g.recent, removed) && g.first == removed
    requires g == f.(recent := g.recent, appended := g.appended, truncated := g.truncated, log := g.log,
                     first := g.first)
    ensures g == Filled(f, lines, truncated, removed)
  {
  }

  // So of a hub that differs only in what putting lines first sets.
  lemma IsPrepended(f: Facts, g: Facts, kept: seq<Line>)
    requires g.recent == kept + f.recent && g.log == f.log + Positioned(kept, f.Position(0) - |kept|)
    requires g.first == if f.Position(0) - |kept| < f.first then f.Position(0) - |kept| else f.first
    requires g == f.(recent := g.recent, truncated := g.truncated, log := g.log, first := g.first)
    ensures g == Prepended(f, kept, g.truncated)
  {
  }

  // The last `count` of some lines.
  function Last(lines: seq<Line>, count: nat): (last: seq<Line>)
    requires count <= |lines|
    ensures |last| == count
  {
    lines[|lines| - count..]
  }

  lemma Untouched(novel: seq<Line>, recent: seq<Line>, removed: nat)
    requires !Over(recent) && TrimsBy(novel + recent, removed)
    ensures removed <= |novel| && (novel + recent)[removed..] == Last(novel, |novel| - removed) + recent
  {
    TrimsNoFurther(novel, recent, removed);
  }

  lemma LastNone(lines: seq<Line>)
    ensures Last(lines, 0) == []
  {
  }

  lemma FirstIsFirst(f: Facts)
    requires f.Valid()
    ensures f.first <= f.Position(0)
  {
  }

  lemma {:induction false} NovelIsNovel(older: seq<Line>, ids: set<string>)
    requires DistinctIds(older)
    ensures DistinctIds(Fresh(older, ids)) && (forall line | line in Fresh(older, ids) :: line.id !in ids)
    ensures older == [] ==> Fresh(older, ids) == []
  {
    FreshIsDistinct(older, ids);
  }

  lemma {:induction false} CountedCharacters(recent: seq<Line>, characters: int, ids: set<string>)
    requires Counted(recent, characters, ids)
    ensures characters == TotalCharacters(recent)
  {
  }

  lemma LastLineStays(recent: seq<Line>, line: Line, removed: nat)
    requires TrimsBy(recent + [line], removed)
    ensures removed <= |recent|
  {
    assert (recent + [line])[|recent|..] == [line];
    assert !Over((recent + [line])[|recent|..]);
  }

  // A frame just made of the lines kept holds those before its position.
  lemma NewFrameFits(f: Facts, position: int, frame: Frame, start: nat)
    requires f.Logged() && f.Position(0) < position <= f.appended && start < position - f.Position(0)
    requires JustMade(f, position, frame, start)
    ensures f.FrameFits(position, frame) && f.Made(position, frame)
  {
    hide Shown, Envelope.Batch, Bounded, Newest;
    forall p | frame.start <= p < position
      ensures p in f.log && HeldAs(f.wires, HistoryPart, f.log[p], LineAt(frame.held, frame.start, p))
      ensures f.MadeAt(frame, p) && (p < position - 1 ==> LineAt(frame.held, frame.start, p) == f.log[p])
    {
      assert f.log[p] == LineAt(f.recent, f.Position(0), p);
      var i := p - frame.start;
      assert HeldAt(f.Whole(), f.wires.json, f.recent[start + i], start + i, frame.held[i]);
    }
    assert f.log[position - 1] == LineAt(f.recent, f.Position(0), position - 1);
    SameAround(f, frame.held, start);
    NewFrameBounded(f, position, frame, start);
  }

  // What making a frame from the lines kept answers.
  ghost predicate JustMade(f: Facts, position: int, frame: Frame, start: nat)
    requires f.Position(0) < position <= f.appended && start < position - f.Position(0)
  {
    var end := position - f.Position(0);
    && frame.start == f.Position(start) && Holds(f.Whole(), f.wires.json, f.recent, start, end, frame.held)
    && frame.encoded == f.Whole().Batch(f.wires.json, frame.held, start)
    && (forall i | 0 <= i < |frame.held| - 1 :: frame.held[i] == f.recent[start + i])
    && Bounded(f.Whole(), f.wires.json, f.recent[end - 1], frame.held, start, MAX_FRAME_BYTES)
    && Newest(f.Whole(), f.wires.json, f.recent, start, frame.held, MAX_FRAME_BYTES)
  }

  lemma SameAround(f: Facts, held: seq<Line>, start: nat)
    ensures f.Whole().Batch(f.wires.json, held, start) == f.Around(f.Position(start)).Batch(f.wires.json, held, 0)
  {
  }

  lemma NewFrameBounded(f: Facts, position: int, frame: Frame, start: nat)
    requires f.Logged() && f.Position(0) < position <= f.appended && start < position - f.Position(0)
    requires JustMade(f, position, frame, start)
    ensures f.log[position - 1] == f.recent[position - 1 - f.Position(0)]
    ensures Bounded(f.Around(frame.start), f.wires.json, f.log[position - 1], frame.held, 0, MAX_FRAME_BYTES)
    ensures |frame.held| > 1 ==> |frame.encoded| <= MAX_FRAME_BYTES
    ensures start > 0 ==> frame.start - 1 in f.log && |f.OneMore(frame)| > MAX_FRAME_BYTES
  {
    hide Envelope.Batch, HeldAt;
    assert f.log[position - 1] == LineAt(f.recent, f.Position(0), position - 1);
    SameAround(f, frame.held, start);
    SameAround(f, [Cut(f.log[position - 1], 0)], start);
    if start > 0 {
      assert f.log[frame.start - 1] == LineAt(f.recent, f.Position(0), frame.start - 1);
      var more := [f.recent[start - 1]] + frame.held;
      assert f.recent[start - 1..start] + frame.held == more;
      assert |f.Whole().Batch(f.wires.json, more, start - 1)| > MAX_FRAME_BYTES;
      SameAround(f, more, start - 1);
    }
  }

  lemma MadeNow(f: Facts, position: int, frame: Frame)
    requires f.Made(position, frame) && frame.start > f.Position(0)
    ensures f.MadeOnce(position, frame)
  {
    hide Shown, Envelope.Batch;
    var same := f.Then(f.Position(0), f.truncated);
    forall p | frame.start <= p < position
      ensures same.MadeAt(frame, p) && (p < position - 1 ==> LineAt(frame.held, frame.start, p) == f.log[p])
    {
      assert f.MadeAt(frame, p);
    }
    assert same.Position(0) == f.Position(0);
    assert f.MadeWhen(f.Position(0), f.truncated, position, frame);
  }

  // Keeping a frame, or dropping the oldest kept, leaves only frames that fit.
  lemma FramesKeep(f: Facts, g: Facts, position: int, frame: Frame)
    requires f.Valid() && f.FrameFits(position, frame)
    requires g == f.(frames := g.frames)
    requires forall cached | cached in g.frames ::
               cached in f.frames || (cached == Cached(position, frame) && frame.start > f.Position(0))
    requires f.Made(position, frame)
    ensures g.Valid() && g.FrameFits(position, frame)
  {
    hide Faithful, ViewFits, Envelope.Batch, Facts.MadeOnce, Facts.Made, Bounded;
    forall cached | cached in g.frames
      ensures g.FrameFits(cached.position, cached.frame) && (g.truncated || cached.frame.start > g.Position(0))
      ensures g.MadeOnce(cached.position, cached.frame)
    {
      assert f.FrameFits(cached.position, cached.frame);
      if cached !in f.frames { MadeNow(f, position, frame); }
      MadeOnceLater(f, g, cached.position, cached.frame);
    }
    forall s | s in g.views ensures g.SocketFits(s) {
      assert f.SocketFits(s);
    }
  }

  lemma AppendIsLater(f: Facts, line: Line, held: Line, removed: nat)
    requires f.Logged() && removed <= |f.recent|
    ensures Later(f, Appended(f, line, held, removed))
  {
  }

  lemma BackfillIsLater(f: Facts, kept: seq<Line>, truncated: bool)
    requires f.Logged() && Agrees(f, kept) && (f.truncated ==> truncated)
    ensures Later(f, Backfilled(f, kept, truncated))
  {
    BackfillKeepsLog(f, kept, truncated);
  }

  // What may happen to a hub's session: output appended, what is past its
  // budget trimmed; older output put first; or what leaves its lines alone.
  datatype Change =
    | Appending(line: Line, held: Line, removed: nat)
    | Backfilling(kept: seq<Line>, truncated: bool)
    | Otherwise(next: Facts)

  ghost predicate Can(f: Facts, change: Change) {
    match change
    case Appending(line, held, removed) => removed <= |f.recent| && HeldAs(f.wires, LinePart, line, held)
    case Backfilling(kept, truncated) => Agrees(f, kept) && (f.truncated ==> truncated)
    case Otherwise(next) =>
      next == f.(frames := next.frames, readers := next.readers, subscribers := next.subscribers,
                 started := next.started, views := next.views, gone := next.gone)
  }

  ghost function Changed(f: Facts, change: Change): Facts
    requires Can(f, change)
  {
    match change
    case Appending(line, held, removed) => Appended(f, line, held, removed)
    case Backfilling(kept, truncated) => Backfilled(f, kept, truncated)
    case Otherwise(next) => next
  }

  ghost predicate CanAll(f: Facts, changes: seq<Change>)
    decreases |changes|
  {
    changes != [] ==> Can(f, changes[0]) && CanAll(Changed(f, changes[0]), changes[1..])
  }

  ghost function ChangedAll(f: Facts, changes: seq<Change>): Facts
    requires CanAll(f, changes)
    decreases |changes|
  {
    if changes == [] then f else ChangedAll(Changed(f, changes[0]), changes[1..])
  }

  lemma ChangeIsLater(f: Facts, change: Change)
    requires f.Logged() && Can(f, change)
    ensures Later(f, Changed(f, change)) && Changed(f, change).Logged()
  {
    hide Facts.Logged, Appended, Backfilled, HeldAs, Agrees, Later;
    match change
    case Appending(line, held, removed) =>
      AppendIsLater(f, line, held, removed);
      AppendKeepsLog(f, line, held, removed);
    case Backfilling(kept, truncated) =>
      BackfillIsLater(f, kept, truncated);
      BackfillKeepsLog(f, kept, truncated);
    case Otherwise(next) =>
      OtherwiseIsLater(f, next);
  }

  lemma OtherwiseIsLater(f: Facts, next: Facts)
    requires f.Logged() && Can(f, Otherwise(next))
    ensures Later(f, next) && next.Logged()
  {
  }

  // A session only ever goes on.
  lemma {:induction false} ChangesAreLater(f: Facts, changes: seq<Change>)
    requires f.Logged() && CanAll(f, changes)
    ensures Later(f, ChangedAll(f, changes)) && ChangedAll(f, changes).Logged()
    decreases |changes|
  {
    hide Facts.Logged, Can, Changed;
    if changes != [] {
      ChangeIsLater(f, changes[0]);
      hide Later;
      ChangesAreLater(Changed(f, changes[0]), changes[1..]);
      LaterStill(f, Changed(f, changes[0]), ChangedAll(f, changes));
    } else {
      LaterAtOnce(f);
    }
  }

  lemma LaterAtOnce(f: Facts)
    ensures Later(f, f)
  {
  }

  // The line before a frame didn't fit by the one byte that saying there were
  // no older lines took, and that isn't said of it any more.
  ghost predicate Freed(f: Facts, g: Facts, frame: Frame) {
    && !f.truncated && frame.start == f.Position(0) + 1
    && g.Position(0) <= f.Position(0) && (g.truncated || g.Position(0) < f.Position(0))
    && frame.start - 1 in f.log && |f.OneMore(frame)| == MAX_FRAME_BYTES + 1
  }

  lemma FalseIsLonger(prefix: Bytes, json: Line -> Bytes, lines: seq<Line>)
    ensures |Envelope(prefix, false).Batch(json, lines, 0)| == |Envelope(prefix, true).Batch(json, lines, 0)| + 1
  {
    hide Encoded, Join;
  }

  // Lines above the oldest kept when a frame was made are shown the same later.
  lemma ShownTheSame(f: Facts, g: Facts, position: int, frame: Frame, remade: Frame, p: int)
    requires Later(f, g) && f.Made(position, frame) && g.Made(position, remade)
    requires f.Position(0) < frame.start <= p < position && remade.start <= p
    ensures g.Around(p).truncated && LineAt(frame.held, frame.start, p) == LineAt(remade.held, remade.start, p)
  {
    hide Shown, Envelope.Batch;
    assert f.MadeAt(frame, p) && g.MadeAt(remade, p);
  }

  // What a frame holds after the first `count` lines, if the next is whole.
  lemma TailFits(f: Facts, position: int, frame: Frame, p: int, rest: seq<Line>)
    requires f.Made(position, frame) && frame.start <= p < position - 1
    requires p in f.log && rest == frame.held[p + 1 - frame.start..]
    ensures |f.Around(p).Batch(f.wires.json, [f.log[p]] + rest, 0)| <= MAX_FRAME_BYTES
  {
    hide Envelope.Batch, Facts.MadeAt;
    var older, more := frame.held[..p - frame.start], [f.log[p]] + rest;
    assert LineAt(frame.held, frame.start, p) == f.log[p];
    assert frame.held == older + more;
    BatchGrows(f.Around(frame.start), f.wires.json, older, more, 0);
    SameAt(f, frame.start, |older|, more);
  }

  lemma SameAt(f: Facts, position: int, count: nat, held: seq<Line>)
    requires f.Position(0) <= position
    ensures f.Around(position).Batch(f.wires.json, held, count) ==
            f.Around(position + count).Batch(f.wires.json, held, 0)
  {
  }

  lemma SharedTail(f: Facts, g: Facts, position: int, frame: Frame, remade: Frame, from: int)
    requires Later(f, g) && f.Made(position, frame) && g.Made(position, remade)
    requires f.Position(0) < frame.start <= from <= position && remade.start <= from
    ensures frame.held[from - frame.start..] == remade.held[from - remade.start..]
  {
    hide Later, Facts.Made;
    LeftOut(f, position, frame);
    LeftOut(g, position, remade);
    var tail, other := frame.held[from - frame.start..], remade.held[from - remade.start..];
    forall i | 0 <= i < |tail| ensures tail[i] == other[i] {
      ShownTheSame(f, g, position, frame, remade, from + i);
    }
  }

  // What `Made` says of the lines before a frame, and of those in it.
  lemma LeftOut(f: Facts, position: int, frame: Frame)
    requires f.Made(position, frame)
    ensures f.Position(0) <= frame.start < position && |frame.held| == position - frame.start
    ensures forall p | frame.start <= p < position :: p in f.log
    ensures frame.start > f.Position(0) ==> frame.start - 1 in f.log && |f.OneMore(frame)| > MAX_FRAME_BYTES
  {
    hide Envelope.Batch;
    forall p | frame.start <= p < position ensures p in f.log {
      assert f.MadeAt(frame, p);
    }
  }

  lemma SameAroundLater(f: Facts, g: Facts, p: int)
    requires Later(f, g) && f.Position(0) < p && g.Position(0) <= p && p in f.log
    ensures g.Around(p) == f.Around(p) && p in g.log && g.log[p] == f.log[p] && g.wires == f.wires
  {
  }

  lemma NotLater(f: Facts, g: Facts, position: int, frame: Frame, remade: Frame)
    requires Later(f, g) && f.Made(position, frame) && g.Made(position, remade)
    requires f.Position(0) < frame.start && g.Position(0) <= frame.start
    ensures remade.start <= frame.start
  {
    if remade.start > frame.start {
      hide Envelope.Batch, Facts.Made, Facts.Around, Later;
      var p := remade.start - 1;
      LeftOut(f, position, frame);
      LeftOut(g, position, remade);
      SharedTail(f, g, position, frame, remade, remade.start);
      TailFits(f, position, frame, p, remade.held);
      SameAroundLater(f, g, p);
    }
  }

  lemma OnlyIfFreed(f: Facts, g: Facts, position: int, frame: Frame, remade: Frame)
    requires Later(f, g) && f.Made(position, frame) && g.Made(position, remade)
    requires f.Position(0) < frame.start && remade.start < frame.start
    ensures Freed(f, g, frame)
  {
    hide Envelope.Batch, Facts.MadeAt;
    var p := frame.start - 1;
    assert p in g.log by { assert g.MadeAt(remade, p); }
    SharedTail(f, g, position, frame, remade, frame.start);
    TailFits(g, position, remade, p, frame.held);
    FalseIsLonger(f.wires.historyPrefix, f.wires.json, [f.log[p]] + frame.held);
  }

  lemma FreedIsLonger(f: Facts, g: Facts, position: int, frame: Frame)
    requires Later(f, g) && f.Made(position, frame) && Freed(f, g, frame)
    ensures !g.Made(position, frame)
  {
    hide Envelope.Batch, Facts.MadeAt;
    FalseIsLonger(f.wires.historyPrefix, f.wires.json, [f.log[frame.start - 1]] + frame.held);
  }

  // A frame is kept only if there are older lines. Made again later it is the
  // same, unless lines of it were trimmed, or one older line was left out that
  // now fits: that of the session's first line, when saying that there were no
  // older ones took the byte too many, and since then some were put first, or
  // known to be missing.
  lemma RemadeIsSame(f: Facts, g: Facts, position: int, frame: Frame, remade: Frame)
    requires Later(f, g)
    requires f.Made(position, frame) && f.Position(0) < frame.start && g.Made(position, remade)
    ensures remade == frame <==> g.Position(0) <= frame.start && !Freed(f, g, frame)
    ensures remade.start == frame.start <==> remade == frame
  {
    hide Envelope.Batch, Facts.MadeAt, Freed, Facts.OneMore;
    if g.Position(0) <= frame.start {
      NotLater(f, g, position, frame, remade);
      if remade.start < frame.start {
        OnlyIfFreed(f, g, position, frame, remade);
      } else {
        SharedTail(f, g, position, frame, remade, frame.start);
        ShownTheSame(f, g, position, frame, remade, frame.start);
        if Freed(f, g, frame) { FreedIsLonger(f, g, position, frame); }
      }
    }
  }

  // So after whatever happens to the session until then.
  lemma {:induction false} RemadeAfterAny(f: Facts, changes: seq<Change>, position: int, frame: Frame, remade: Frame)
    requires f.Logged() && CanAll(f, changes) && f.Made(position, frame) && f.Position(0) < frame.start
    requires ChangedAll(f, changes).Made(position, remade)
    ensures var g := ChangedAll(f, changes);
            remade == frame <==> g.Position(0) <= frame.start && !Freed(f, g, frame)
  {
    hide *;
    ChangesAreLater(f, changes);
    RemadeIsSame(f, ChangedAll(f, changes), position, frame, remade);
  }

  // So of every frame in a hub's cache, of the time it was made.
  lemma CachedIsRemade(g: Facts, cached: Cached, remade: Frame) returns (oldest: int, was: bool)
    requires g.CacheFits() && cached in g.frames && g.Made(cached.position, remade)
    ensures var f := g.Then(oldest, was);
            && f.Made(cached.position, cached.frame) && oldest < cached.frame.start && Later(f, g)
            && (remade == cached.frame <==> g.Position(0) <= cached.frame.start && !Freed(f, g, cached.frame))
  {
    hide Envelope.Batch, Facts.FrameFits, Facts.Made, Freed;
    assert g.MadeOnce(cached.position, cached.frame);
    oldest, was :| g.MadeWhen(oldest, was, cached.position, cached.frame);
    RemadeIsSame(g.Then(oldest, was), g, cached.position, cached.frame, remade);
  }

  // A frame kept that isn't what would be made now: before it is the session's
  // first line, a byte too long to fit as the first of all, and backfill then
  // puts another line before that.
  lemma CachedMayDiffer(f: Facts, position: int, frame: Frame, older: Line)
    requires f.Logged() && f.first == f.Position(0) && !f.truncated && f.Made(position, frame)
    requires frame.start == f.Position(0) + 1 && |f.OneMore(frame)| == MAX_FRAME_BYTES + 1
    ensures var g := Backfilled(f, [older], false); g.Logged() && Later(f, g) && !g.Made(position, frame)
  {
    BackfillIsLater(f, [older], false);
    BackfillKeepsLog(f, [older], false);
    FreedIsLonger(f, Backfilled(f, [older], false), position, frame);
  }

  // A line written as its text in quotes, for text that needs no more.
  function Spelled(line: Line): (written: Bytes)
    ensures |written| == |line.text| + 2
  {
    "\"" + seq(|line.text|, i => 'a') + "\""
  }

  function LettersLine(id: string, count: nat): Line {
    Line(id, None, Letters(count), None)
  }

  // Such a hub: two lines, of which the first is that long, and a frame of the
  // second in its cache.
  lemma FirstLineDiffers(prefix: Bytes) returns (f: Facts, frame: Frame, older: Line)
    requires |prefix| <= 1024
    ensures f.Valid() && !f.truncated && f.frames == [Cached(f.appended, frame)] && f.wires.historyPrefix == prefix
    ensures Backfilled(f, [older], false).Valid() && Cached(f.appended, frame) in Backfilled(f, [older], false).frames
    ensures f.Made(f.appended, frame) && !Backfilled(f, [older], false).Made(f.appended, frame)
  {
    hide Facts.Made, Facts.FrameFits, Facts.MadeOnce, Facts.Valid, Facts.OneMore, Envelope.Batch, Backfilled, Letters,
      Facts.Logged, Spelled;
    older := LettersLine("older", 1);
    var first, newest := LettersLine("first", MAX_FRAME_BYTES - |prefix| - 25), LettersLine("newest", 1);
    frame := Frame(Envelope(prefix, true).Batch(Spelled, [newest], 0), [newest], 1);
    f := Facts([first, newest], 2, false, [Cached(2, frame)], map[], {}, true, Wires(Spelled, "", prefix),
               map[0 := first, 1 := newest], 0, map[], {});
    TwoLinesDiffer(f, frame, first, newest, older);
  }

  // What `FirstLineDiffers` says of the two lines and their frame.
  ghost predicate TwoLines(f: Facts, frame: Frame, first: Line, newest: Line) {
    && f.recent == [first, newest] && f.appended == 2 && !f.truncated && f.wires.json == Spelled
    && f.log == map[0 := first, 1 := newest] && |newest.text| == 1
    && |f.wires.historyPrefix| + |first.text| + 25 == MAX_FRAME_BYTES
    && frame == Frame(Envelope(f.wires.historyPrefix, true).Batch(Spelled, [newest], 0), [newest], 1)
    && f.frames == [Cached(2, frame)] && f.first == 0
    && f.views == map[] && f.readers == map[] && f.subscribers == {} && f.started
  }

  lemma TwoLinesDiffer(f: Facts, frame: Frame, first: Line, newest: Line, older: Line)
    requires TwoLines(f, frame, first, newest)
    ensures f.Valid() && f.Made(2, frame)
    ensures var g := Backfilled(f, [older], false);
            g.Valid() && Cached(2, frame) in g.frames && !g.Made(2, frame)
  {
    hide Facts.Made, Facts.FrameFits, Facts.MadeOnce, Envelope.Batch, Facts.OneMore, Spelled;
    TwoLinesMade(f, frame, first, newest);
    TwoLinesFit(f, frame, first, newest);
    MadeNow(f, 2, frame);
    CachedMayDiffer(f, 2, frame, older);
    BackfillKeeps(f, [older], false);
  }

  lemma TwoLinesMade(f: Facts, frame: Frame, first: Line, newest: Line)
    requires TwoLines(f, frame, first, newest)
    ensures f.Made(2, frame) && |f.OneMore(frame)| == MAX_FRAME_BYTES + 1
  {
  }

  lemma TwoLinesFit(f: Facts, frame: Frame, first: Line, newest: Line)
    requires TwoLines(f, frame, first, newest) && f.Made(2, frame)
    ensures f.FrameFits(2, frame)
  {
  }

  lemma NoFramesKeep(f: Facts)
    requires f.Valid()
    ensures f.(frames := []).Valid()
  {
    hide ViewFits;
    forall s | s in f.views ensures f.(frames := []).SocketFits(s) {
      assert f.SocketFits(s);
    }
  }

  lemma ReaderWithin(f: Facts, s: Socket)
    requires f.Valid() && s in f.readers
    ensures f.readers[s] <= f.appended
  {
  }

  lemma SameFit(f: Facts, g: Facts, position: int, frame: Frame)
    requires g.FrameFits(position, frame) && g == f.(frames := g.frames)
    ensures f.FrameFits(position, frame)
  {
  }

  lemma AdvanceGoesOn(f: Facts, s: Socket, frame: Frame)
    requires frame.start > f.Position(0)
    ensures s in Advanced(f, s, frame).readers
  {
  }

  lemma AdvanceLeaves(f: Facts, g: Facts, s: Socket, frame: Frame)
    requires g == f.(frames := g.frames)
    ensures Advanced(g, s, frame) == g.(readers := Advanced(g, s, frame).readers, views := Advanced(f, s, frame).views)
  {
  }

  // A first frame made of the newest lines kept is one that fits.
  lemma FirstFrameFits(f: Facts, snapshotStart: nat, start: nat, held: seq<Line>, encoded: Bytes)
    requires f.Logged() && snapshotStart == SnapshotStart(|f.recent|)
             && FirstMade(f, snapshotStart, start, held, encoded)
    ensures f.FirstFits(encoded, Part(FirstPart, f.Position(snapshotStart + start), held))
  {
    hide Fitted, Envelope.Batch, Bounded, Newest;
    var part := Part(FirstPart, f.Position(snapshotStart + start), held);
    var envelope := Envelope(f.wires.resetPrefix, f.truncated || snapshotStart > 0);
    forall p | part.start <= p < part.End()
      ensures p in f.log && HeldAs(f.wires, FirstPart, f.log[p], LineAt(part.held, part.start, p))
    {
      assert f.log[p] == LineAt(f.recent, f.Position(0), p);
      var i := p - part.start;
      assert HeldAt(envelope, f.wires.json, f.recent[snapshotStart..][start + i], start + i, held[i]);
    }
    SameFirst(f, snapshotStart, held, start);
    FirstFrameBounded(f, snapshotStart, start, held, encoded);
  }

  function SnapshotStart(count: nat): (start: nat)
    ensures start <= count
  {
    if count > RESET_LINES then count - RESET_LINES else 0
  }

  // What making a first frame from the lines kept answers.
  ghost predicate FirstMade(f: Facts, snapshotStart: nat, start: nat, held: seq<Line>, encoded: Bytes)
    requires snapshotStart <= |f.recent|
  {
    var envelope := Envelope(f.wires.resetPrefix, f.truncated || snapshotStart > 0);
    var lines := f.recent[snapshotStart..];
    && start <= |lines| && (lines != [] ==> start < |lines|)
    && Holds(envelope, f.wires.json, lines, start, |lines|, held)
    && encoded == envelope.Batch(f.wires.json, held, start)
    && (lines != [] ==> Bounded(envelope, f.wires.json, lines[|lines| - 1], held, start, RESET_FRAME_BYTES))
    && Newest(envelope, f.wires.json, lines, start, held, RESET_FRAME_BYTES)
  }

  lemma SameFirst(f: Facts, snapshotStart: nat, held: seq<Line>, start: nat)
    requires snapshotStart <= |f.recent|
    ensures Envelope(f.wires.resetPrefix, f.truncated || snapshotStart > 0).Batch(f.wires.json, held, start) ==
            f.First(f.Position(snapshotStart + start)).Batch(f.wires.json, held, 0)
  {
  }

  lemma FirstFrameBounded(f: Facts, snapshotStart: nat, start: nat, held: seq<Line>, encoded: Bytes)
    requires snapshotStart == SnapshotStart(|f.recent|) && FirstMade(f, snapshotStart, start, held, encoded)
    ensures var first := f.Position(snapshotStart + start);
            && (f.recent != [] ==>
                  Bounded(f.First(first), f.wires.json, f.recent[|f.recent| - 1], held, 0, RESET_FRAME_BYTES))
            && (start > 0 ==>
                  |f.First(first - 1).Batch(f.wires.json, [f.recent[snapshotStart + start - 1]] + held, 0)| >
                  RESET_FRAME_BYTES)
  {
    hide Envelope.Batch, HeldAt;
    SameFirst(f, snapshotStart, held, start);
    var lines := f.recent[snapshotStart..];
    if lines != [] {
      SameFirst(f, snapshotStart, [Cut(lines[|lines| - 1], 0)], start);
    }
    if start > 0 {
      var more := [lines[start - 1]] + held;
      assert lines[start - 1..start] + held == more;
      assert |Envelope(f.wires.resetPrefix, f.truncated || snapshotStart > 0).Batch(f.wires.json, more, start - 1)| >
             RESET_FRAME_BYTES;
      SameFirst(f, snapshotStart, more, start - 1);
    }
  }

  lemma JoinKeeps(f: Facts, s: Socket)
    requires f.Valid()
    ensures f.(subscribers := f.subscribers + {s}).ValidBut({s})
    ensures !f.started ==> f.(subscribers := f.subscribers + {s}).Valid()
  {
    hide ViewFits;
    var g := f.(subscribers := f.subscribers + {s});
    assert g.CacheFits() by { SameCache(f, g); }
    forall o | o in g.views ensures g.SocketFits(o) {
      assert f.SocketFits(o);
    }
  }

  lemma {:induction false} MoreCached(frames: seq<Cached>, cached: Cached)
    ensures CachedCharacters(frames + [cached]) == CachedCharacters(frames) + FrameCharacters(cached.frame.encoded)
  {
    hide FrameCharacters;
    if frames == [] {
      assert [] + [cached] == [cached];
    } else {
      assert (frames + [cached])[1..] == frames[1..] + [cached];
      MoreCached(frames[1..], cached);
    }
  }

  class Hub {
    var recent: seq<Line>
    var recentCharacters: int
    var lineIds: set<string>
    var appended: int
    var truncated: bool
    // Recently sent history frames, oldest first.
    var historyFrames: seq<Cached>
    var historyFrameCharacters: int
    // For each browser not done with history, what it is to get next ends here.
    var historyReaders: map<Socket, int>
    var subscribers: set<Socket>
    var started: bool
    var closed: bool
    // How it writes lines of its session.
    var wires: Wires

    ghost var log: map<int, Line>
    ghost var first: int
    ghost var views: map<Socket, View>
    ghost var gone: set<Socket>

    ghost function Now(): Facts
      reads this
    {
      Facts(recent, appended, truncated, historyFrames, historyReaders, subscribers, started, wires,
            log, first, views, gone)
    }

    ghost predicate Kept()
      reads this
    {
      && Counted(recent, recentCharacters, lineIds) && !Over(recent)
      && historyFrameCharacters == CachedCharacters(historyFrames) <= MAX_HISTORY_FRAME_CHARACTERS
    }

    ghost predicate ValidBut(waiting: set<Socket>)
      reads this
    {
      Kept() && Now().ValidBut(waiting) && views.Keys !! gone && (closed ==> views == map[])
    }

    ghost predicate Valid()
      reads this
    {
      ValidBut({})
    }

    function Position(index: int): int
      reads this
    {
      appended - |recent| + index
    }

    constructor (json: Line -> Bytes)
      ensures Valid() && wires.json == json && !started && subscribers == {} && recent == []
    {
      wires := Wires(json, "", "");
      recent, recentCharacters, lineIds, appended, truncated := [], 0, {}, 0, false;
      historyFrames, historyFrameCharacters, historyReaders := [], 0, map[];
      subscribers, started, closed := {}, false, false;
      log, first, views, gone := map[], 0, map[], {};
    }

    // Shortens the log from its old end by the least that leaves it in budget.
    method Trim() returns (removed: nat)
      requires Counted(recent, recentCharacters, lineIds)
      modifies this`recent, this`recentCharacters, this`lineIds, this`truncated
      ensures Counted(recent, recentCharacters, lineIds)
      ensures TrimsBy(old(recent), removed) && recent == old(recent)[removed..] && !Over(recent)
      ensures truncated == (old(truncated) || removed > 0)
    {
      hide Counted, TotalCharacters, Characters;
      CountedCharacters(recent, recentCharacters, lineIds);
      removed := 0;
      while |recent| > MAX_CONSOLE_HISTORY_LINES || (recentCharacters > MAX_CONSOLE_HISTORY_CHARACTERS && |recent| > 1)
        invariant Counted(recent, recentCharacters, lineIds) && recentCharacters == TotalCharacters(recent)
        invariant removed <= |old(recent)| && recent == old(recent)[removed..]
        invariant forall k | 0 <= k < removed :: Over(old(recent)[k..])
        invariant truncated == (old(truncated) || removed > 0)
        decreases |recent|
      {
        CountsShifted(recent, recentCharacters, lineIds);
        CountedCharacters(recent[1..], recentCharacters - Characters(recent[0]), lineIds - {recent[0].id});
        var line := recent[0];
        recent := recent[1..];
        recentCharacters := recentCharacters - Characters(line);
        lineIds := lineIds - {line.id};
        truncated := true;
        removed := removed + 1;
      }
    }

    method Keep(line: Line) returns (removed: nat)
      requires Counted(recent, recentCharacters, lineIds) && line.id !in lineIds
      modifies this`recent, this`recentCharacters, this`lineIds, this`truncated, this`appended
      ensures Counted(recent, recentCharacters, lineIds) && !Over(recent)
      ensures removed <= |old(recent)| && TrimsBy(old(recent) + [line], removed)
      ensures Now() == Trimmed(old(Now()), line, removed)
    {
      hide Counted, Over;
      CountsAppended(recent, recentCharacters, lineIds, line);
      lineIds := lineIds + {line.id};
      recent := recent + [line];
      recentCharacters := recentCharacters + Characters(line);
      appended := appended + 1;
      removed := Trim();
      LastLineStays(old(recent), line, removed);
    }

    method EncodeLine(line: Line) returns (held: Line)
      ensures held == Fitted(LineWire(wires.json), line)
      ensures |LineFrame(wires.json, Cut(line, 0))| <= MAX_FRAME_BYTES ==>
              |LineFrame(wires.json, held)| <= MAX_FRAME_BYTES
    {
      hide LineFrame, Fitted;
      held := FitConsoleLine(line, LineWire(wires.json));
    }

    ghost method Tell(line: Line, held: Line)
      modifies this`log, this`views
      ensures Now() == Told(old(Now()), line, held) && views.Keys == old(views).Keys
    {
      log := log[appended - 1 := line];
      views := SentAll(views, Part(LinePart, appended - 1, [held]));
    }

    // Output from the session. `early` when it is from before it started.
    method Append(line: Line, early: bool) returns (ghost held: Line, ghost removed: nat)
      requires Valid()
      modifies this
      ensures Valid()
      ensures if closed || early || line.id in old(lineIds) then Now() == old(Now())
              else
                && held == Fitted(LineWire(old(wires.json)), line)
                && removed <= |old(recent)| && TrimsBy(old(recent) + [line], removed)
                && Now() == Appended(old(Now()), line, held, removed)
    {
      held, removed := line, 0;
      if closed || early || line.id in lineIds { return; }
      hide Facts.ValidBut, Counted, Over, TrimsBy, Fitted, CachedCharacters, Told, Trimmed;
      ghost var before := Now();
      removed := Keep(line);
      held := EncodeLine(line);
      AppendKeeps(before, line, held, removed);
      Tell(line, held);
    }

    // A new frame that ends at `position`, as `Made` and `FrameFits` say.
    method MakeFrame(position: int) returns (frame: Frame)
      requires Now().Logged() && Position(0) < position <= appended
      ensures Position(0) <= frame.start && Now().FrameFits(position, frame) && Now().Made(position, frame)
    {
      hide Facts.Logged, Facts.FrameFits, Facts.Made, Holds, Bounded, Newest, Join, Encoded;
      var encoded, start, held := EncodeNewestBatch(
        Envelope(wires.historyPrefix, truncated), wires.json, recent, position - Position(0), MAX_FRAME_BYTES);
      frame := Frame(encoded, held, Position(start));
      NewFrameFits(Now(), position, frame, start);
    }

    // The history frame before `position`, made again only if none is kept.
    method HistoryFrame(position: int) returns (frame: Frame)
      requires Valid() && Position(0) < position <= appended
      modifies this`historyFrames, this`historyFrameCharacters
      ensures Valid() && Now() == old(Now()).(frames := historyFrames)
      ensures Now().FrameFits(position, frame)
      ensures match FindFrame(old(historyFrames), position)
              case Some(cached) => frame == cached && historyFrames == old(historyFrames)
              case None =>
                && old(Now()).Made(position, frame)
                && historyFrames == KeptFrames(old(Now()), position, frame)
    {
      hide Facts.ViewedBut, Facts.Logged, Counted, Over, CachedCharacters, FrameCharacters, Facts.Made, Evicted,
        Bounded, Faithful;
      var cached := FindFrame(historyFrames, position);
      if cached.Some? { return cached.value; }
      ghost var before := Now();
      frame := MakeFrame(position);
      if frame.start > Position(0) { Remember(position, frame); }
      FramesKeep(before, Now(), position, frame);
    }

    // Keeps a frame for the next browser, and drops the oldest kept past what
    // they may hold together.
    method Remember(position: int, frame: Frame)
      requires historyFrameCharacters == CachedCharacters(historyFrames)
      modifies this`historyFrames, this`historyFrameCharacters
      ensures historyFrameCharacters == CachedCharacters(historyFrames) <= MAX_HISTORY_FRAME_CHARACTERS
      ensures historyFrames == Evicted(old(historyFrames) + [Cached(position, frame)])
    {
      hide FrameCharacters;
      MoreCached(historyFrames, Cached(position, frame));
      historyFrames := historyFrames + [Cached(position, frame)];
      historyFrameCharacters := historyFrameCharacters + FrameCharacters(frame.encoded);
      ghost var all := historyFrames;
      while historyFrames != [] && historyFrameCharacters > MAX_HISTORY_FRAME_CHARACTERS
        invariant historyFrameCharacters == CachedCharacters(historyFrames)
        invariant Evicted(historyFrames) == Evicted(all)
        decreases |historyFrames|
      {
        historyFrameCharacters := historyFrameCharacters - FrameCharacters(historyFrames[0].frame.encoded);
        historyFrames := historyFrames[1..];
      }
    }

    method ClearFrames()
      requires Valid()
      modifies this`historyFrames, this`historyFrameCharacters
      ensures Valid() && Now() == old(Now()).(frames := [])
    {
      hide Facts.Logged, Counted, Over, ViewFits;
      NoFramesKeep(Now());
      historyFrames, historyFrameCharacters := [], 0;
    }

    // The reader of `socket` ends, and the frames kept go with the last one.
    method Stop(socket: Socket)
      requires Valid() && socket in historyReaders && (historyReaders[socket] <= Position(0) || socket !in views)
      modifies this`historyReaders, this`historyFrames, this`historyFrameCharacters
      ensures Valid() && historyReaders == old(historyReaders) - {socket}
      ensures Now() == Stopped(old(Now()), socket).(
                frames := if historyReaders == map[] then [] else old(historyFrames))
    {
      hide Facts.ValidBut, Counted, Over, CachedCharacters;
      StopKeeps(Now(), socket);
      historyReaders := historyReaders - {socket};
      if historyReaders == map[] { ClearFrames(); }
    }

    // A browser's connection is over.
    ghost method Lose(socket: Socket)
      requires Valid()
      modifies this`gone, this`views
      ensures Valid() && Now() == Left(old(Now()), socket)
    {
      hide Facts.ValidBut, Counted, Over, CachedCharacters;
      LeaveKeeps(Now(), socket);
      gone, views := gone + {socket}, views - {socket};
    }

    method Advance(socket: Socket, frame: Frame)
      requires Valid() && socket in historyReaders && Now().FrameFits(historyReaders[socket], frame)
      modifies this`historyReaders, this`views
      ensures Valid() && Now() == Advanced(old(Now()), socket, frame)
    {
      hide Facts.ValidBut, Facts.FrameFits, Counted, Over, CachedCharacters;
      AdvanceKeeps(Now(), socket, frame);
      if socket in views { views := views[socket := Sent(views[socket], frame.AsPart())]; }
      if frame.start <= Position(0) {
        historyReaders := historyReaders - {socket};
      } else {
        historyReaders := historyReaders[socket := frame.start];
      }
    }

    // A browser being sent history has room for a frame (`open`), or is gone.
    // `sent` is what it was sent, if anything.
    method ReaderStep(socket: Socket, open: bool) returns (sent: Option<Frame>)
      requires Valid() && socket in historyReaders
      modifies this
      ensures Valid() && log == old(log) && recent == old(recent) && appended == old(appended)
      ensures sent.Some? <==> open && !closed && old(historyReaders[socket]) > Position(0)
      ensures sent.Some? ==> old(Now()).FrameFits(old(historyReaders[socket]), sent.value)
      ensures sent.Some? ==> views == Advanced(old(Now()), socket, sent.value).views
      ensures sent.None? ==> socket !in historyReaders
      ensures gone == if open then old(gone) else old(gone) + {socket}
      // The frames kept go as the last browser is done.
      ensures if historyReaders == map[] then historyFrames == []
              else if sent.None? || FindFrame(old(historyFrames), old(historyReaders[socket])).Some? then
                historyFrames == old(historyFrames)
              else
                historyFrames == KeptFrames(old(Now()), old(historyReaders[socket]), sent.value)
      ensures sent.Some? && FindFrame(old(historyFrames), old(historyReaders[socket])).Some? ==>
                sent == FindFrame(old(historyFrames), old(historyReaders[socket]))
    {
      hide Facts.ValidBut, Facts.FrameFits, Kept, Advanced;
      ghost var before := Now();
      sent := None;
      if !open || closed || historyReaders[socket] <= Position(0) {
        if !open { Lose(socket); }
        Stop(socket);
        return;
      }
      ReaderWithin(before, socket);
      var frame := HistoryFrame(historyReaders[socket]);
      ghost var framed := Now();
      SameFit(before, framed, historyReaders[socket], frame);
      Advance(socket, frame);
      AdvanceLeaves(before, framed, socket, frame);
      if frame.start > framed.Position(0) { AdvanceGoesOn(framed, socket, frame); }
      if frame.start <= Position(0) && historyReaders == map[] { ClearFrames(); }
      sent := Some(frame);
    }

    // The newest lines, in a first frame small enough to arrive at once.
    method EncodeReset() returns (encoded: Bytes, part: Part)
      requires Now().Logged()
      ensures Now().FirstFits(encoded, part)
    {
      hide Facts.Logged, Facts.FirstFits, Holds, Bounded, Newest, Join, Encoded;
      var snapshotStart := if |recent| > RESET_LINES then |recent| - RESET_LINES else 0;
      var lines := recent[snapshotStart..];
      var start, held;
      encoded, start, held := EncodeNewestBatch(
        Envelope(wires.resetPrefix, truncated || snapshotStart > 0), wires.json, lines, |lines|, RESET_FRAME_BYTES);
      part := Part(FirstPart, Position(snapshotStart + start), held);
      FirstFrameFits(Now(), snapshotStart, start, held, encoded);
    }

    method DeliverSession(socket: Socket, ghost waiting: set<Socket>) returns (encoded: Bytes, part: Part)
      requires ValidBut(waiting) && socket in subscribers && !closed
      modifies this`historyReaders, this`views
      ensures ValidBut(waiting - {socket}) && Now() == Reset(old(Now()), socket, part)
      ensures old(Now()).FirstFits(encoded, part) && part.End() == appended
    {
      hide Facts.ViewedBut, Facts.Logged, Facts.CacheFits, Counted, Over, CachedCharacters, Faithful, Bounded,
        Envelope.Batch;
      encoded, part := EncodeReset();
      ResetKeeps(Now(), waiting, socket, part);
      historyReaders := historyReaders - {socket};
      if part.start > Position(0) { historyReaders := historyReaders[socket := part.start]; }
      if socket !in gone { views := views[socket := View([part], part.start, part.End(), false)]; }
    }

    method Add(socket: Socket)
      requires Valid()
      modifies this
      ensures Valid() && log == old(log) && recent == old(recent)
      ensures subscribers == if closed then old(subscribers) else old(subscribers) + {socket}
      ensures closed || !started ==> views == old(views) && historyReaders == old(historyReaders)
      ensures !closed && started && socket !in gone ==>
                socket in views && |views[socket].parts| == 1 && views[socket].hi == appended && !views[socket].again
    {
      hide Facts.ValidBut, Counted, Over, CachedCharacters, Faithful;
      if closed { return; }
      ghost var waiting := {socket};
      JoinKeeps(Now(), socket);
      subscribers := subscribers + {socket};
      if started {
        var encoded, part := DeliverSession(socket, waiting);
        assert waiting - {socket} == {};
      }
    }

    method Remove(socket: Socket)
      requires Valid()
      modifies this
      ensures Valid() && Now() == Unsubscribed(old(Now()), socket)
    {
      hide Facts.ValidBut, Counted, Over, CachedCharacters;
      LeaveKeeps(Now(), socket);
      subscribers, historyReaders := subscribers - {socket}, historyReaders - {socket};
      views := views - {socket};
    }

    method Close()
      requires Valid()
      modifies this
      ensures Valid() && closed && views == map[]
    {
      hide Facts.CacheFits, Counted, Over, CachedCharacters, ViewFits;
      ghost var before := Now();
      closed := true;
      gone, views := gone + subscribers, map[];
      SameCache(before, Now());
    }

    // Puts older lines first, less those there is no room for.
    method Insert(novel: seq<Line>, olderTruncated: bool) returns (kept: seq<Line>)
      requires Counted(recent, recentCharacters, lineIds) && !Over(recent) && DistinctIds(novel)
      requires forall line | line in novel :: line.id !in lineIds
      modifies this`recent, this`recentCharacters, this`lineIds, this`truncated, this`log, this`first
      ensures Counted(recent, recentCharacters, lineIds) && !Over(recent)
      ensures |kept| <= |novel| && kept == Last(novel, |kept|) && TrimsBy(novel + old(recent), |novel| - |kept|)
      ensures truncated == (old(truncated) || olderTruncated || |kept| < |novel|)
      ensures recent == kept + old(recent)
      ensures log == old(log) + Positioned(kept, old(Position(0)) - |kept|)
      ensures first == if old(Position(0)) - |kept| < old(first) then old(Position(0)) - |kept| else old(first)
    {
      hide Counted, Over, TotalCharacters, Ids, Positioned, TrimsBy, Last;
      CountsBackfilled(recent, recentCharacters, lineIds, novel);
      ghost var position, before := Position(0), recent;
      lineIds := lineIds + Ids(novel);
      recentCharacters := recentCharacters + TotalCharacters(novel);
      recent := novel + recent;
      truncated := truncated || olderTruncated;
      var removed := Trim();
      Untouched(novel, before, removed);
      kept := Last(novel, |novel| - removed);
      log := log + Positioned(kept, position - |kept|);
      first := if position - |kept| < first then position - |kept| else first;
    }

    method Resume(position: int)
      modifies this`historyReaders, this`views
      ensures Now() == Resumed(old(Now()), position) && views.Keys == old(views).Keys
    {
      hide Reread;
      views := map s | s in views :: Reread(views[s], s !in historyReaders && views[s].lo != position);
      historyReaders := historyReaders + map s | s in subscribers - historyReaders.Keys :: position;
    }

    method SetTruncated(olderTruncated: bool)
      requires Valid() && started
      modifies this`truncated
      ensures Valid() && Now() == Backfilled(old(Now()), [], old(truncated) || olderTruncated)
    {
      hide Facts.ValidBut, Counted, Over, CachedCharacters, Prepended, Backfilled, Agrees;
      FirstIsFirst(Now());
      NothingPrepended(Now(), truncated || olderTruncated);
      BackfillKeeps(Now(), [], truncated || olderTruncated);
      truncated := truncated || olderTruncated;
    }

    method PutFirst(novel: seq<Line>, olderTruncated: bool) returns (kept: seq<Line>)
      requires Valid() && started && !closed && DistinctIds(novel) && Agrees(Now(), novel)
      requires forall line | line in novel :: line.id !in lineIds
      modifies this`recent, this`recentCharacters, this`lineIds, this`truncated, this`log, this`first,
               this`historyReaders, this`views
      ensures Valid() && |kept| <= |novel| && kept == Last(novel, |kept|)
      ensures TrimsBy(novel + old(recent), |novel| - |kept|)
      ensures Agrees(old(Now()), kept) && truncated == (old(truncated) || olderTruncated || |kept| < |novel|)
      ensures Now() == Backfilled(old(Now()), kept, truncated)
    {
      hide Facts.ValidBut, Counted, Over, CachedCharacters, DistinctIds, Prepended, Resumed, TrimsBy, Agrees, Last;
      ghost var before := Now();
      var position := Position(0);
      kept := Insert(novel, olderTruncated);
      IsPrepended(before, Now(), kept);
      AgreesLater(before, novel, |novel| - |kept|);
      BackfillKeeps(before, kept, truncated);
      if kept != [] { Resume(position); }
    }

    // Older output of the session arrived: `older` is what it has before the
    // oldest line kept.
    method Backfill(older: seq<Line>, olderTruncated: bool) returns (kept: seq<Line>)
      requires Valid() && started && DistinctIds(older) && Agrees(Now(), Fresh(older, lineIds))
      modifies this
      ensures Valid() && old(Position(0)) == Position(|kept|)
      ensures var novel := Fresh(older, old(lineIds));
              && |kept| <= |novel| && kept == Last(novel, |kept|)
              && (!closed && novel != [] ==> TrimsBy(novel + old(recent), |novel| - |kept|))
              // Older ones are missing as the history said, or as some were
              // dropped, unless it brought nothing new.
              && truncated == (|| old(truncated)
                               || (!closed && (older == [] || novel != []) && olderTruncated)
                               || (!closed && |kept| < |novel|))
      ensures Now() == Backfilled(old(Now()), kept, truncated)
      ensures old(first) == old(Position(0)) ==>
                forall s | s in old(views) :: s in views && views[s].again == old(views)[s].again
    {
      hide Facts.ValidBut, Kept, DistinctIds, Backfilled, TrimsBy, Agrees, Fresh, Last;
      kept := [];
      ghost var before := Now();
      FirstIsFirst(before);
      NothingPrepended(before, truncated);
      var novel := Fresh(older, lineIds);
      NovelIsNovel(older, lineIds);
      LastNone(novel);
      if !closed && older == [] {
        SetTruncated(olderTruncated);
        NothingPrepended(before, before.truncated || olderTruncated);
      } else if !closed && novel != [] {
        kept := PutFirst(novel, olderTruncated);
      }
      BackfillRepeats(before, kept, truncated);
    }

    // Forgets the last session and all that was sent of it.
    method Empty(wires: Wires)
      modifies this
      ensures Now() == Emptied(old(Now()), wires) && closed == old(closed)
      ensures historyFrameCharacters == 0
    {
      started, this.wires := true, wires;
      historyReaders, historyFrames, historyFrameCharacters := map[], [], 0;
      views := map[];
    }

    method Fill(lines: seq<Line>, sessionTruncated: bool) returns (removed: nat)
      requires DistinctIds(lines)
      modifies this`recent, this`appended, this`recentCharacters, this`lineIds, this`truncated, this`log, this`first
      ensures Counted(recent, recentCharacters, lineIds) && !Over(recent)
      ensures TrimsBy(lines, removed) && removed <= |lines| && recent == lines[removed..] && appended == |lines|
      ensures truncated == (sessionTruncated || removed > 0) && log == Positioned(recent, removed) && first == removed
    {
      hide Counted, Over, Ids, TotalCharacters, Positioned;
      truncated := sessionTruncated;
      recent, appended := lines, |lines|;
      CountsWhole(lines);
      recentCharacters, lineIds := TotalCharacters(lines), Ids(lines);
      removed := Trim();
      log, first := Positioned(recent, removed), removed;
    }

    // A new session's newest output, in place of the last one's.
    method Begin(lines: seq<Line>, sessionTruncated: bool, wires: Wires) returns (removed: nat)
      requires Valid() && !closed && DistinctIds(lines)
      modifies this
      ensures ValidBut(subscribers) && !closed && started && subscribers == old(subscribers) && appended == |lines|
      ensures removed <= |lines| && TrimsBy(lines, removed) && recent == lines[removed..] && this.wires == wires
      ensures Now() == Replaced(old(Now()), lines, sessionTruncated, wires, removed)
    {
      hide Facts.ValidBut, Counted, Over, TrimsBy, Filled, DistinctIds;
      ghost var before := Now();
      Empty(wires);
      ghost var emptied := Now();
      removed := Fill(lines, sessionTruncated);
      TrimsWithin(lines, removed);
      IsFilled(emptied, Now(), lines, sessionTruncated, removed);
      FilledKeeps(Emptied(before, wires), lines, sessionTruncated, removed);
      ReplaceKeeps(before, lines, sessionTruncated, wires, removed);
    }

    // Every browser is sent the new session from its newest lines on.
    method ReplaceSession(lines: seq<Line>, sessionTruncated: bool, resetPrefix: Bytes, historyPrefix: Bytes)
      returns (ghost removed: nat)
      requires Valid() && !closed && DistinctIds(lines)
      modifies this
      ensures Valid() && started && !closed && subscribers == old(subscribers) && appended == |lines|
      ensures wires == Wires(old(wires.json), resetPrefix, historyPrefix)
      ensures removed <= |lines| && TrimsBy(lines, removed) && recent == lines[removed..]
    {
      hide Facts.ValidBut, Counted, Over, CachedCharacters, Replaced, Reset, DistinctIds, TrimsBy;
      removed := Begin(lines, sessionTruncated, Wires(wires.json, resetPrefix, historyPrefix));
      var waiting := subscribers;
      while waiting != {}
        invariant ValidBut(waiting) && !closed && started && waiting <= subscribers
        invariant subscribers == old(subscribers) && appended == |lines| && recent == lines[removed..]
        invariant wires == Wires(old(wires.json), resetPrefix, historyPrefix)
        decreases |waiting|
      {
        var socket :| socket in waiting;
        var encoded, part := DeliverSession(socket, waiting);
        waiting := waiting - {socket};
      }
    }

    // What each browser there has been sent covers an unbroken stretch of the
    // session up to its newest line, from no later than the oldest line kept
    // once it is sent no more history; every line as it fits its frame, and,
    // unless backfill brought back lines trimmed before, only once.
    lemma SentWithoutGaps(socket: Socket)
      requires Valid() && started && socket in subscribers && socket !in gone
      ensures socket in views
      ensures var view := views[socket];
              && view.hi == appended && view.lo >= first && (socket !in historyReaders ==> view.lo <= Position(0))
              && (forall part | part in view.parts :: Faithful(part, log, wires))
              && (forall p | view.lo <= p < appended :: p in log && Times(view.parts, p) >= 1)
              && (!view.again ==> forall p | view.lo <= p < appended :: Times(view.parts, p) == 1)
    {
      hide Times, Faithful, Counted, Over;
      assert Now().SocketFits(socket);
    }
  }
}
