/** Sessions in which a viewer joins in a state its screen doesn't show, or
    before the output that state belongs to. */
module TerminalJoins {
  import opened Options
  import opened SequenceBoundary
  import opened TerminalFeed
  import opened TerminalSession

  const FIRST := StateChange(None, 80, 24, 0, 0)

  // "a" alone is attached, and has answered nothing.
  ghost predicate Attached(f: Facts, kept: seq<StateChange>, output: seq<Byte>, screen: Screen) {
    && f.changes == kept && f.historyStart == 0 && f.history == f.output == output && f.screen == screen && !f.ended
    && f.viewers.Keys == {"a"} && f.viewers["a"] in f.pages
    && f.pages[f.viewers["a"]].sentOffset == 0 && f.pages[f.viewers["a"]].state.number == 0
  }

  lemma JoinAttaches(f: Facts, g: Facts, screen: Screen, t: nat)
    requires f == Beginning(FIRST).(screen := screen)
    requires OnlySends(Admitting(f, t, Joining("a", Snapshot(0, 0, 0), [FIRST])), g)
    ensures Attached(g, [FIRST], [], screen) && g.all == [FIRST]
  {
    var joined := Admitting(f, t, Joining("a", Snapshot(0, 0, 0), [FIRST]));
    assert NoneLost(joined);
    assert MaySend(joined.pages[t], g.pages[t]);
  }

  lemma {:induction false} TakeAttached(
      f: Facts, g: Facts, kept: seq<StateChange>, output: seq<Byte>, screen: Screen, chunk: seq<Byte>)
    requires Attached(f, kept, output, screen) && kept != [] && StillKept(kept, 0)[0].number <= 1
    requires |output + chunk| <= OUTPUT_HISTORY_BYTES && OnlySends(Taken(f, chunk), g)
    ensures Attached(g, StillKept(kept, 0), output + chunk,
                     screen.(writes := screen.writes + [Parse(|chunk|, LastBoundary(output + chunk))]))
    ensures g.all == f.all
  {
    hide StillKept, LastBoundary;
    var taken := Taken(f, chunk);
    assert (output + chunk)[0..] == output + chunk;
    assert NoneLost(taken);
    assert MaySend(taken.pages[f.viewers["a"]], g.pages[f.viewers["a"]]);
  }

  lemma ClaimAttached(
    f: Facts, g: Facts, kept: seq<StateChange>, output: seq<Byte>, screen: Screen, next: StateChange)
    requires Attached(f, kept, output, screen) && 0 < |kept| < MAX_STATE_CHANGES && kept[0].number <= 1
    requires OnlySends(AfterChange(f, next), g)
    ensures Attached(g, kept + [next], output, screen.(writes := screen.writes + [Apply(next)]))
    ensures g.all == f.all + [next]
  {
    var changed := AfterChange(f, next);
    assert NoneLost(changed);
    assert MaySend(changed.pages[f.viewers["a"]], g.pages[f.viewers["a"]]);
  }

  // A session that "a" joined as it began. If `early`, "b" has asked for its
  // screen by then.
  method Attach(early: bool) returns (session: Session)
    ensures fresh(session) && fresh(session.boundary) && session.Valid() && session.initial == FIRST
    ensures Attached(session.Now(), [FIRST], [],
                     Screen(0, 0, 0, if early then [Serialize("b")] else [], map["a" := Snapshot(0, 0, 0)]))
    ensures session.all == [FIRST]
  {
    hide Session.Valid, Admitting, Joining, OnlySends, ScreenWaits;
    session := new Session(80, 24);
    session.AskScreen("a");
    if early { session.AskScreen("b"); }
    session.TakeWrite();
    ghost var before := session.Now();
    var t := session.Join("a");
    JoinAttaches(before, session.Now(), before.screen, t);
  }

  // A viewer whose screen was serialized before a change that then, as output
  // came, was the oldest kept.
  method JoinSkips() returns (session: Session, t: nat)
    ensures session.Valid() && t in session.origins && "b" in session.snapshots
    ensures session.snapshots["b"].number < session.origins[t].number
  {
    hide Session.Valid, Admitting, Joining, OnlySends, ScreenWaits, Taken, AfterChange;
    session := Attach(true);
    ghost var before, screen := session.Now(), session.Now().screen;
    var number := session.Claim("a", 100, 40);
    ghost var next := StateChange(Some("a"), 100, 40, 0, 1);
    ClaimAttached(before, session.Now(), [FIRST], [], screen, next);
    before, screen := session.Now(), session.Now().screen;
    assert StillKept([FIRST] + [next], 0) == [next] by { OnlyNext(next); }
    session.Data([0x61]);
    TakeAttached(before, session.Now(), [FIRST] + [next], [], screen, [0x61]);
    session.TakeWrite();
    screen := session.Now().screen;
    assert screen.snapshots["b"] == Snapshot(0, 0, 0);
    t := session.Join("b");
    KeepsSnapshots(screen, session.Now().screen);
  }

  lemma KeepsSnapshots(a: Screen, b: Screen)
    requires ScreenWaits(a, b)
    ensures b.snapshots == a.snapshots
  {
  }

  lemma OnlyNext(next: StateChange)
    requires next.offset == 0
    ensures StillKept([FIRST] + [next], 0) == [next]
  {
    assert ([FIRST] + [next])[1..] == [next];
  }

  // A sequence has begun as "a" takes control.
  method ClaimMidSequence() returns (session: Session)
    ensures fresh(session) && fresh(session.boundary) && session.Valid()
    ensures var next := StateChange(Some("a"), 100, 40, 1, 1);
            && Attached(session.Now(), [FIRST] + [next], [ESC],
                        Screen(0, 0, 0, [Parse(1, 0)] + [Apply(next)], map["a" := Snapshot(0, 0, 0)]))
            && session.all == [FIRST] + [next]
  {
    hide Session.Valid, OnlySends, ScreenWaits, Taken, AfterChange, LastBoundary, StillKept;
    session := Attach(false);
    ghost var before, screen := session.Now(), session.Now().screen;
    session.Data([ESC]);
    OnlyFirst();
    TakeAttached(before, session.Now(), [FIRST], [], screen, [ESC]);
    EscIsWithin();
    before, screen := session.Now(), session.Now().screen;
    var number := session.Claim("a", 100, 40);
    ClaimAttached(before, session.Now(), [FIRST], [ESC], screen, StateChange(Some("a"), 100, 40, 1, 1));
  }

  lemma OnlyFirst()
    ensures StillKept([FIRST], 0) == [FIRST]
  {
  }

  // A viewer whose screen applied its change amid a sequence: its output
  // resumes from where that began.
  method JoinsMidSequence() returns (session: Session, t: nat)
    ensures session.Valid() && t in session.origins && "b" in session.snapshots
    ensures session.origins[t] == Position(session.snapshots["b"].offset, session.snapshots["b"].number)
    ensures session.origins[t].number < |session.all|
    ensures session.all[session.origins[t].number].offset > session.origins[t].offset
  {
    hide Session.Valid, Admitting, Joining, OnlySends, ScreenWaits, AfterWrite;
    session := ClaimMidSequence();
    session.AskScreen("b");
    ThreeWrites(session.Now().screen, StateChange(Some("a"), 100, 40, 1, 1));
    session.TakeWrite();
    session.TakeWrite();
    session.TakeWrite();
    ghost var screen := session.Now().screen;
    t := session.Join("b");
    KeepsSnapshots(screen, session.Now().screen);
  }

  // The screen parses the byte, applies the change, and is serialized.
  lemma ThreeWrites(screen: Screen, next: StateChange)
    requires screen.parsed == screen.resume == 0 && next.number == 1
    requires screen.writes == [Parse(1, 0), Apply(next), Serialize("b")]
    ensures var parsed := AfterWrite(screen, 0);
            && parsed.writes == [Apply(next), Serialize("b")]
            && var applied := AfterWrite(parsed, 0);
            && applied.writes == [Serialize("b")]
            && var serialized := AfterWrite(applied, 0);
               "b" in serialized.snapshots && serialized.snapshots["b"] == Snapshot(1, 0, 1)
  {
  }

  lemma EscIsWithin()
    ensures [] + [ESC] == [ESC] && LastBoundary([ESC]) == 0
  {
    assert [ESC][..0] == [];
    assert !Run(FRESH, [ESC]).Between();
  }

  // "a" alone is attached and has a push under way; "b" waits for its screen,
  // serialized before any of the changes since the one byte of output.
  ghost predicate Waiting(f: Facts, changes: nat) {
    && f.changes != [] && f.historyStart == 0 && |f.output| == 1 && |f.all| == 1 + changes
    && f.viewers.Keys == {"a"} && f.viewers["a"] in f.pages && f.pages[f.viewers["a"]].sending.Some?
    && (forall i | 0 < i < |f.all| :: f.all[i].offset == 1) && f.all[|f.all| - 1].cols <= 80 + changes
    && f.screen.writes != [] && f.screen.writes[0] == Serialize("b")
    && f.screen.parsed == f.screen.resume == f.screen.applied == 0
  }

  lemma ClaimWaits(f: Facts, g: Facts, changes: nat, next: StateChange)
    requires Waiting(f, changes) && next.offset == 1 && next.cols == 81 + changes
    requires OnlySends(AfterChange(f, next), g)
    ensures Waiting(g, changes + 1)
  {
    var changed := AfterChange(f, next);
    assert NoneLost(changed);
    assert MaySend(changed.pages[f.viewers["a"]], g.pages[f.viewers["a"]]);
  }

  lemma TakeWaits(f: Facts, screen: Screen)
    requires Attached(f, [FIRST], [ESC], screen) && f.all == [FIRST] && f.Settled()
    requires screen.writes != [] && screen.writes[0] == Serialize("b")
    requires screen.parsed == screen.resume == screen.applied == 0
    ensures Waiting(f, 0)
  {
    assert f.AtRest("a");
  }

  lemma SerializedFirst(f: Facts, changes: nat)
    requires Waiting(f, changes)
    ensures var screen := AfterWrite(f.screen, f.historyStart);
            "b" in screen.snapshots && screen.snapshots["b"] == Snapshot(0, 0, 0)
  {
  }

  // Changes are kept from so late that the oldest has the output before it.
  lemma OldestIsLate(f: Facts, initial: StateChange, changes: nat)
    requires f.Core(initial) && Waiting(f, changes) && changes > MAX_STATE_CHANGES
    ensures 0 < f.changes[0].number < |f.all| && f.all[f.changes[0].number].offset == 1
  {
    Windowed(f, initial);
    assert f.changes[0] == f.all[|f.all| - |f.changes|];
  }

  method AttachWithOutput() returns (session: Session)
    ensures fresh(session) && fresh(session.boundary) && session.Valid() && Waiting(session.Now(), 0)
  {
    hide Facts.Core, Facts.RestBut, OnlySends, ScreenWaits, Taken, LastBoundary, StillKept, Waiting;
    session := Attach(true);
    ghost var before, screen := session.Now(), session.Now().screen;
    session.Data([ESC]);
    OnlyFirst();
    TakeAttached(before, session.Now(), [FIRST], [], screen, [ESC]);
    EscIsWithin();
    TakeWaits(session.Now(), session.Now().screen);
  }

  // A viewer whose screen was serialized before more changes than are kept.
  method JoinsPastMany() returns (session: Session, t: nat)
    ensures session.Valid() && t in session.origins && "b" in session.snapshots
    ensures session.snapshots["b"].number < session.origins[t].number < |session.all|
    ensures session.all[session.origins[t].number].offset > session.origins[t].offset
  {
    hide Facts.Core, Facts.RestBut, Admitting, Joining, OnlySends, ScreenWaits, AfterWrite, AfterChange;
    session := AttachWithOutput();
    for i := 0 to MAX_STATE_CHANGES + 1
      invariant fresh(session) && fresh(session.boundary) && session.Valid() && Waiting(session.Now(), i)
    {
      ClaimNext(session, i);
    }
    OldestIsLate(session.Now(), session.initial, MAX_STATE_CHANGES + 1);
    SerializedFirst(session.Now(), MAX_STATE_CHANGES + 1);
    session.TakeWrite();
    ghost var screen := session.Now().screen;
    t := session.Join("b");
    KeepsSnapshots(screen, session.Now().screen);
  }

  method ClaimNext(session: Session, changes: nat)
    requires session.Valid() && Waiting(session.Now(), changes)
    modifies session
    ensures session.Valid() && Waiting(session.Now(), changes + 1)
  {
    hide Facts.Core, Facts.RestBut, OnlySends, ScreenWaits, AfterChange, Waiting;
    ghost var before := session.Now();
    NotAlready(before, session.initial, changes);
    var number := session.Claim("a", 81 + changes, 24);
    ClaimWaits(before, session.Now(), changes, StateChange(Some("a"), 81 + changes, 24, 1, number.value));
  }

  lemma NotAlready(f: Facts, initial: StateChange, changes: nat)
    requires f.Core(initial) && Waiting(f, changes)
    ensures f.changes != [] && f.changes[|f.changes| - 1].cols != 81 + changes
    ensures "a" in f.viewers && |f.output| == 1
  {
    Basics(f, initial);
  }
}
