/** One terminal session (`ContainerTerminals`): its output, numbered state
    changes, screen, and viewers, each handler of the source a method. */
module TerminalSession {
  import opened Options
  import opened Sequences
  import opened SequenceBoundary
  import opened TerminalFeed

  const OUTPUT_HISTORY_BYTES: nat := 512 * 1024
  const MAX_PUSH_BYTES: nat := 64 * 1024
  const MAX_STATE_CHANGES: nat := 256

  datatype Push = Push(chunk: seq<Byte>, offset: nat, state: StateChange, last: bool)

  // `sentOffset` and `state` are what the viewer has accepted; `sending` is the
  // one push it has yet to answer.
  datatype Viewer = Viewer(id: Id, sentOffset: nat, state: StateChange, sending: Option<Push>) {
    function At(): Position {
      Position(sentOffset, state.number)
    }
  }

  // A screen as serialized: what it had parsed, where its output resumes, and
  // the last change it had applied.
  datatype Snapshot = Snapshot(parsed: nat, offset: nat, number: nat)

  // What the screen has been handed and not got to yet.
  datatype Work = Parse(length: nat, resume: nat) | Apply(change: StateChange) | Serialize(id: Id)

  // What a push shows the viewer that accepts it.
  function Shown(viewer: Viewer, push: Push): seq<Item> {
    if push.state != viewer.state then [Changed(push.state)] else Outputs(push.chunk)
  }

  // A push carries exactly what comes next: the change due here, or output up
  // to no further than the next change.
  ghost predicate PushFits(changes: seq<StateChange>, output: seq<Byte>, viewer: Viewer, push: Push) {
    var number := viewer.state.number;
    if push.state == viewer.state then
      && viewer.sentOffset <= push.offset <= |output|
      && push.chunk == output[viewer.sentOffset..push.offset]
      && forall i | number < i < |changes| :: changes[i].offset >= push.offset
    else
      && number + 1 < |changes| && push.state == changes[number + 1]
      && push.state.offset == viewer.sentOffset == push.offset && push.chunk == []
  }

  ghost predicate ViewerFits(
    changes: seq<StateChange>, output: seq<Byte>, viewer: Viewer,
    origin: Position, reached: Position, delivered: seq<Item>)
  {
    && Stands(changes, output, origin, reached)
    && delivered == Between(changes, output, origin, reached)
    && viewer.state.number < |changes| && viewer.state == changes[viewer.state.number]
  }

  lemma EarlierSlice(output: seq<Byte>, more: seq<Byte>, from: nat, until: nat)
    requires from <= until <= |output|
    ensures (output + more)[from..until] == output[from..until]
  {
  }

  lemma FitsMoreOutput(
    changes: seq<StateChange>, output: seq<Byte>, viewer: Viewer,
    origin: Position, reached: Position, delivered: seq<Item>, more: seq<Byte>)
    requires ViewerFits(changes, output, viewer, origin, reached, delivered)
    ensures ViewerFits(changes, output + more, viewer, origin, reached, delivered)
    ensures viewer.sending.Some? && PushFits(changes, output, viewer, viewer.sending.value) ==>
              PushFits(changes, output + more, viewer, viewer.sending.value)
  {
    hide Between;
    BetweenStays(changes, output, origin, reached, [], more);
    EmptyTail(changes);
    if viewer.sending.Some? {
      var push := viewer.sending.value;
      if push.state == viewer.state && viewer.sentOffset <= push.offset <= |output| {
        EarlierSlice(output, more, viewer.sentOffset, push.offset);
      }
    }
  }

  lemma FitsMoreChange(
    changes: seq<StateChange>, output: seq<Byte>, viewer: Viewer,
    origin: Position, reached: Position, delivered: seq<Item>, change: StateChange)
    requires ViewerFits(changes, output, viewer, origin, reached, delivered)
    requires change.offset == |output|
    ensures ViewerFits(changes + [change], output, viewer, origin, reached, delivered)
    ensures viewer.sending.Some? && PushFits(changes, output, viewer, viewer.sending.value) ==>
              PushFits(changes + [change], output, viewer, viewer.sending.value)
  {
    BetweenStays(changes, output, origin, reached, [change], []);
    EmptyTail(output);
  }

  // Accepting a push moves a viewer on by exactly what the push shows.
  lemma PushMovesOn(
    changes: seq<StateChange>, output: seq<Byte>, viewer: Viewer,
    origin: Position, delivered: seq<Item>, push: Push)
    requires Ordered(changes, output)
    requires ViewerFits(changes, output, viewer, origin, viewer.At(), delivered)
    requires PushFits(changes, output, viewer, push)
    ensures var moved := viewer.(sentOffset := push.offset, state := push.state);
            ViewerFits(changes, output, moved, origin, moved.At(), delivered + Shown(viewer, push))
  {
    if push.state == viewer.state {
      BetweenOutput(changes, output, origin, viewer.At(), push.offset);
    } else {
      BetweenChange(changes, output, origin, viewer.At());
    }
  }

  // The screen takes its work in order: what is left leads from where it is
  // to the end of the session.
  ghost predicate Queued(
    work: seq<Work>, parsed: nat, applied: nat, changes: seq<StateChange>, output: seq<Byte>)
    decreases |work|
  {
    && parsed <= |output| && applied < |changes|
    && if work == [] then
         parsed == |output| && applied == |changes| - 1
       else
         match work[0]
         case Parse(length, resume) =>
           && parsed + length <= |output| && resume == LastBoundary(output[..parsed + length])
           && (applied + 1 < |changes| ==> changes[applied + 1].offset >= parsed + length)
           && Queued(work[1..], parsed + length, applied, changes, output)
         case Apply(change) =>
           && applied + 1 < |changes| && change == changes[applied + 1] && change.offset == parsed
           && Queued(work[1..], parsed, applied + 1, changes, output)
         case Serialize(_) =>
           Queued(work[1..], parsed, applied, changes, output)
  }

  lemma {:induction false} QueuedParse(
    work: seq<Work>, parsed: nat, applied: nat, changes: seq<StateChange>, output: seq<Byte>, more: seq<Byte>)
    requires Queued(work, parsed, applied, changes, output)
    ensures Queued(work + [Parse(|more|, LastBoundary(output + more))], parsed, applied, changes, output + more)
    decreases |work|
  {
    var next := Parse(|more|, LastBoundary(output + more));
    if work == [] {
      WholeSlice(output + more);
      assert ([] + [next])[1..] == [];
      assert Queued([], parsed + |more|, applied, changes, output + more);
    } else {
      assert (work + [next])[1..] == work[1..] + [next];
      if work[0].Parse? {
        var upto := parsed + work[0].length;
        assert (output + more)[..upto] == output[..upto];
        QueuedParse(work[1..], upto, applied, changes, output, more);
      } else if work[0].Apply? {
        QueuedParse(work[1..], parsed, applied + 1, changes, output, more);
      } else {
        QueuedParse(work[1..], parsed, applied, changes, output, more);
      }
    }
  }

  lemma {:induction false} QueuedApply(
    work: seq<Work>, parsed: nat, applied: nat, changes: seq<StateChange>, output: seq<Byte>, change: StateChange)
    requires Queued(work, parsed, applied, changes, output) && change.offset == |output|
    ensures Queued(work + [Apply(change)], parsed, applied, changes + [change], output)
    decreases |work|
  {
    if work == [] {
      assert ([] + [Apply(change)])[1..] == [];
      assert Queued([], parsed, applied + 1, changes + [change], output);
    } else {
      assert (work + [Apply(change)])[1..] == work[1..] + [Apply(change)];
      if work[0].Parse? {
        QueuedApply(work[1..], parsed + work[0].length, applied, changes, output, change);
      } else if work[0].Apply? {
        QueuedApply(work[1..], parsed, applied + 1, changes, output, change);
      } else {
        QueuedApply(work[1..], parsed, applied, changes, output, change);
      }
    }
  }

  lemma {:induction false} QueuedSerialize(
    work: seq<Work>, parsed: nat, applied: nat, changes: seq<StateChange>, output: seq<Byte>, id: Id)
    requires Queued(work, parsed, applied, changes, output)
    ensures Queued(work + [Serialize(id)], parsed, applied, changes, output)
    decreases |work|
  {
    if work == [] {
      assert ([] + [Serialize(id)])[1..] == [];
    } else {
      assert (work + [Serialize(id)])[1..] == work[1..] + [Serialize(id)];
      if work[0].Parse? {
        QueuedSerialize(work[1..], parsed + work[0].length, applied, changes, output, id);
      } else if work[0].Apply? {
        QueuedSerialize(work[1..], parsed, applied + 1, changes, output, id);
      } else {
        QueuedSerialize(work[1..], parsed, applied, changes, output, id);
      }
    }
  }

  // What is kept of a session's output and changes: a window ending now, of as
  // much output as is retained, or all there was.
  ghost predicate Window(
    history: seq<Byte>, historyStart: nat, kept: seq<StateChange>, changes: seq<StateChange>, output: seq<Byte>)
  {
    && historyStart + |history| == |output| && history == output[historyStart..]
    && 0 < |kept| <= |changes| && kept == changes[|changes| - |kept|..]
    && |history| == (if |output| <= OUTPUT_HISTORY_BYTES then |output| else OUTPUT_HISTORY_BYTES)
    && |kept| <= MAX_STATE_CHANGES
    // Changes after the retained output's start are let go only as too many.
    && (kept[0].number > 0 && kept[0].offset > historyStart ==> |kept| == MAX_STATE_CHANGES)
  }

  // The viewer's next byte or its next change is no longer kept.
  predicate Lost(viewer: Viewer, historyStart: nat, oldest: StateChange) {
    viewer.sentOffset < historyStart || viewer.state.number < oldest.number - 1
  }

  // More output came since what the viewer had than is retained, or more
  // changes than are kept.
  ghost predicate FarBehind(viewer: Viewer, output: seq<Byte>, changes: seq<StateChange>, kept: seq<StateChange>) {
    viewer.sentOffset + OUTPUT_HISTORY_BYTES < |output| || viewer.state.number + 1 + |kept| < |changes|
  }

  lemma LostMeans(
    history: seq<Byte>, historyStart: nat, kept: seq<StateChange>, changes: seq<StateChange>, output: seq<Byte>,
    viewer: Viewer)
    requires Ordered(changes, output) && Window(history, historyStart, kept, changes, output)
    ensures Lost(viewer, historyStart, kept[0]) <==> FarBehind(viewer, output, changes, kept)
  {
    assert kept[0] == changes[|changes| - |kept|];
  }

  // The next of `changes` after `number`, if any.
  function NextChange(changes: seq<StateChange>, number: nat): (next: Option<StateChange>)
    ensures next.Some? ==> next.value in changes && next.value.number > number
    ensures next.None? ==> forall c | c in changes :: c.number <= number
  {
    if changes == [] then None
    else if changes[0].number > number then Some(changes[0])
    else NextChange(changes[1..], number)
  }

  lemma {:induction false} NextKept(kept: seq<StateChange>, changes: seq<StateChange>, number: nat)
    requires kept != [] && |kept| <= |changes| && kept == changes[|changes| - |kept|..]
    requires forall i | 0 <= i < |changes| :: changes[i].number == i
    requires number + 1 >= |changes| - |kept| && number < |changes|
    ensures NextChange(kept, number) ==
            if number + 1 < |changes| then Some(changes[number + 1]) else None
    decreases |kept|
  {
    if kept[0].number <= number && |kept| > 1 {
      NextKept(kept[1..], changes, number);
    }
  }

  function Min(a: nat, b: nat): nat {
    if a < b then a else b
  }

  // The next push a viewer that isn't too far behind is due, if any.
  function NextPush(
    history: seq<Byte>, historyStart: nat, kept: seq<StateChange>, ended: bool, viewer: Viewer): Option<Push>
    requires historyStart <= viewer.sentOffset <= historyStart + |history|
  {
    var end := historyStart + |history|;
    var next := NextChange(kept, viewer.state.number);
    // Either the next change, where the viewer stands, or output to no
    // further than that change.
    var due := next.Some? && next.value.offset <= viewer.sentOffset;
    var state := if due then next.value else viewer.state;
    var limit := Min(Min(end, viewer.sentOffset + MAX_PUSH_BYTES), if next.Some? then next.value.offset else end);
    var until := if due then viewer.sentOffset else limit;
    if !due && until <= viewer.sentOffset && !ended then None
    else
      var chunk := history[viewer.sentOffset - historyStart..until - historyStart];
      var offset := viewer.sentOffset + |chunk|;
      Some(Push(chunk, offset, state, ended && offset >= end && next.None?))
  }

  ghost predicate CaughtUp(changes: seq<StateChange>, output: seq<Byte>, viewer: Viewer) {
    viewer.sentOffset == |output| && viewer.state.number == |changes| - 1
  }

  lemma WindowSlice(history: seq<Byte>, start: nat, output: seq<Byte>, from: nat, until: nat)
    requires start + |history| == |output| && history == output[start..]
    requires start <= from <= until <= |output|
    ensures history[from - start..until - start] == output[from..until]
  {
  }

  // The next change among those kept is the next there is, and no earlier in
  // the output than the viewer stands.
  lemma {:induction false} NextOwed(
    kept: seq<StateChange>, changes: seq<StateChange>, output: seq<Byte>, viewer: Viewer, origin: Position)
    requires Ordered(changes, output) && Stands(changes, output, origin, viewer.At())
    requires kept != [] && |kept| <= |changes| && kept == changes[|changes| - |kept|..]
    requires viewer.state.number >= kept[0].number - 1
    ensures var number := viewer.state.number;
            NextChange(kept, number) == if number + 1 < |changes| then Some(changes[number + 1]) else None
    ensures forall i | viewer.state.number < i < |changes| ::
              && changes[i].offset >= changes[viewer.state.number + 1].offset >= viewer.sentOffset
  {
    assert kept[0] == changes[|changes| - |kept|];
    NextKept(kept, changes, viewer.state.number);
  }

  lemma PushOutputFits(
    history: seq<Byte>, historyStart: nat, changes: seq<StateChange>, output: seq<Byte>, viewer: Viewer, push: Push)
    requires historyStart + |history| == |output| && history == output[historyStart..]
    requires push.state == viewer.state && historyStart <= viewer.sentOffset <= push.offset <= |output|
    requires push.chunk == history[viewer.sentOffset - historyStart..push.offset - historyStart]
    requires forall i | viewer.state.number < i < |changes| :: changes[i].offset >= push.offset
    ensures PushFits(changes, output, viewer, push)
  {
    WindowSlice(history, historyStart, output, viewer.sentOffset, push.offset);
  }

  // The push a viewer is due fits it, and only one with nothing left to be
  // told, of a session that goes on, is due none.
  lemma NextPushFits(
    history: seq<Byte>, historyStart: nat, kept: seq<StateChange>, ended: bool, viewer: Viewer,
    changes: seq<StateChange>, output: seq<Byte>, origin: Position, delivered: seq<Item>)
    requires Ordered(changes, output) && Window(history, historyStart, kept, changes, output)
    requires ViewerFits(changes, output, viewer, origin, viewer.At(), delivered)
    requires !Lost(viewer, historyStart, kept[0])
    ensures historyStart <= viewer.sentOffset <= historyStart + |history|
    ensures var push := NextPush(history, historyStart, kept, ended, viewer);
            if push.Some? then
              && PushFits(changes, output, viewer, push.value)
              && |push.value.chunk| <= MAX_PUSH_BYTES
              && (push.value.last ==>
                    ended && push.value.offset == |output| && push.value.state.number == |changes| - 1)
              && (!push.value.last ==> Shown(viewer, push.value) != [])
            else
              CaughtUp(changes, output, viewer) && !ended
  {
    hide Ordered, Between, NextChange;
    NextOwed(kept, changes, output, viewer, origin);
    var number := viewer.state.number;
    assert number + 1 < |changes| ==>
             changes[number + 1].number == number + 1 && changes[number + 1].offset <= |output| by {
      NumberedAt(changes, output, number + 1);
    }
    hide Stands;
    var push := NextPush(history, historyStart, kept, ended, viewer);
    if push.Some? && push.value.state == viewer.state {
      PushOutputFits(history, historyStart, changes, output, viewer, push.value);
    }
  }

  lemma NumberedAt(changes: seq<StateChange>, output: seq<Byte>, i: nat)
    requires Ordered(changes, output)
    ensures i < |changes| ==> changes[i].number == i && changes[i].offset <= |output|
  {
  }

  // Where the screen is: it resumes from its last boundary, and no change it
  // has yet to apply comes before what it has parsed.
  ghost predicate ScreenAt(
    writes: seq<Work>, parsed: nat, resume: nat, applied: nat, changes: seq<StateChange>, output: seq<Byte>)
  {
    && applied < |changes| && parsed <= |output|
    && Queued(writes, parsed, applied, changes, output)
    && resume == LastBoundary(output[..parsed])
    && (forall i | applied < i < |changes| :: changes[i].offset >= parsed) && changes[applied].offset <= parsed
  }

  // A screen was cut where a fresh terminal can go on: at the last boundary of
  // what it had parsed, unless that is long gone, and its state is followed by
  // no change that applies before.
  ghost predicate SnapshotFits(snapshot: Snapshot, changes: seq<StateChange>, output: seq<Byte>) {
    && snapshot.offset <= snapshot.parsed <= |output| && snapshot.number < |changes|
    && (snapshot.offset == LastBoundary(output[..snapshot.parsed]) || snapshot.offset == snapshot.parsed)
    && (forall i | snapshot.number < i < |changes| :: changes[i].offset >= snapshot.parsed)
    && changes[snapshot.number].offset <= snapshot.parsed
  }

  // What a viewer has been delivered takes it from where it joined to where it
  // is; the push it is sent next takes it on from there.
  ghost predicate PageFits(
    changes: seq<StateChange>, output: seq<Byte>, ended: bool, page: Viewer,
    origin: Position, reached: Position, delivered: seq<Item>, told: bool)
  {
    && ViewerFits(changes, output, page, origin, reached, delivered)
    && (!told ==> reached == page.At())
    && (told ==> ended && reached.offset == |output| && page.sending.None?)
    && (page.sending.Some? ==>
          var push := page.sending.value;
          && PushFits(changes, output, page, push)
          && |push.chunk| <= MAX_PUSH_BYTES
          && (push.last ==> ended && push.offset == |output|)
          && (!push.last ==> Shown(page, push) != []))
  }

  // The screen: what it has parsed, where its output resumes, the last change
  // it has applied, the writes it has yet to take, and screens serialized for
  // viewers still attaching.
  datatype Screen =
    Screen(parsed: nat, resume: nat, applied: nat, writes: seq<Work>, snapshots: map<Id, Snapshot>)
  {
    ghost predicate Fits(changes: seq<StateChange>, output: seq<Byte>) {
      && ScreenAt(writes, parsed, resume, applied, changes, output)
      && (forall id | id in snapshots :: SnapshotFits(snapshots[id], changes, output))
    }
  }

  // A session's fields, and what is told of it beside them.
  datatype Facts = Facts(
    history: seq<Byte>, historyStart: nat, changes: seq<StateChange>,
    viewers: map<Id, nat>, pages: map<nat, Viewer>, ended: bool, screen: Screen,
    log: seq<Item>, output: seq<Byte>, all: seq<StateChange>,
    origins: map<nat, Position>, reached: map<nat, Position>, delivered: map<nat, seq<Item>>, told: set<nat>)
  {
    ghost predicate Recorded(initial: StateChange) {
      && Chronicle(initial, log) && output == OutputOf(log) && all == ChangesOf(initial, log)
      && Ordered(all, output)
    }

    ghost predicate Tracked() {
      && pages.Keys == origins.Keys == reached.Keys == delivered.Keys && told <= pages.Keys
      && (forall id | id in viewers ::
            viewers[id] in pages && pages[viewers[id]].id == id && viewers[id] !in told)
    }

    ghost predicate Fits(t: nat)
      requires Tracked() && t in pages
    {
      PageFits(all, output, ended, pages[t], origins[t], reached[t], delivered[t], t in told)
    }

    // What holds while a handler runs.
    ghost predicate Core(initial: StateChange) {
      && Recorded(initial) && Window(history, historyStart, changes, all, output)
      && screen.Fits(all, output) && Tracked() && forall t | t in pages :: Fits(t)
    }

    ghost predicate AtRest(id: Id)
      requires id in viewers && viewers[id] in pages
    {
      var page := pages[viewers[id]];
      page.sending.Some? || (CaughtUp(all, output, page) && !ended)
    }

    // Every viewer attached, but for those of `ids`, has a push to answer or
    // has had everything.
    ghost predicate RestBut(ids: set<Id>) {
      forall id | id in viewers && id !in ids :: viewers[id] in pages && AtRest(id)
    }

    ghost predicate Settled() {
      RestBut({})
    }
  }

  predicate MaySend(before: Viewer, after: Viewer) {
    && after.id == before.id && after.sentOffset == before.sentOffset && after.state == before.state
    && (before.sending.Some? ==> after.sending == before.sending)
  }

  // A screen handed more to do that hasn't got to it.
  predicate ScreenWaits(before: Screen, after: Screen) {
    && after.parsed == before.parsed && after.resume == before.resume && after.applied == before.applied
    && after.snapshots == before.snapshots && before.writes <= after.writes
  }

  lemma ScreenWaitsOn(a: Screen, b: Screen, c: Screen)
    requires ScreenWaits(a, b) && ScreenWaits(b, c)
    ensures ScreenWaits(a, c)
  {
  }

  // What flushing may do: start pushes, and drop viewers that are lost, or
  // are `gone` already, which puts nobody in control if they were.
  ghost predicate Follows(before: Facts, after: Facts, gone: set<Id>) {
    && after.history == before.history && after.historyStart == before.historyStart
    && after.ended == before.ended && after.output == before.output
    && ScreenWaits(before.screen, after.screen)
    && after.origins == before.origins && after.reached == before.reached
    && after.delivered == before.delivered && after.told == before.told
    && before.all <= after.all && before.log <= after.log
    && before.changes != [] && after.changes != []
    && before.changes[0].number <= after.changes[0].number
    && after.pages.Keys == before.pages.Keys
    && (forall t | t in before.pages :: MaySend(before.pages[t], after.pages[t]))
    && after.viewers.Keys <= before.viewers.Keys
    && (forall id | id in after.viewers :: after.viewers[id] == before.viewers[id])
    && (forall id | id in before.viewers && id !in after.viewers && id !in gone ::
          && before.viewers[id] in before.pages
          && before.pages[before.viewers[id]].sending.None?
          && Lost(before.pages[before.viewers[id]], after.historyStart, after.changes[0]))
  }

  // Every viewer with nothing under way can be caught up from what is kept.
  ghost predicate NoneLost(f: Facts) {
    f.changes != [] && forall id | id in f.viewers && f.viewers[id] in f.pages ::
      f.pages[f.viewers[id]].sending.Some? || !Lost(f.pages[f.viewers[id]], f.historyStart, f.changes[0])
  }

  // Only pushes are started.
  ghost predicate Sends(before: Facts, after: Facts) {
    && after == before.(pages := after.pages) && after.pages.Keys == before.pages.Keys
    && forall t | t in before.pages :: MaySend(before.pages[t], after.pages[t])
  }

  // With nobody lost, flushing does no more than that.
  ghost predicate OnlySends(before: Facts, after: Facts) {
    NoneLost(before) ==> Sends(before, after)
  }

  lemma SendsNothing(f: Facts)
    ensures OnlySends(f, f)
  {
  }

  lemma NotLostYet(start: Facts, f: Facts, id: Id)
    requires OnlySends(start, f) && NoneLost(start) && id in f.viewers && f.viewers[id] in f.pages
    requires f.pages[f.viewers[id]].sending.None?
    ensures !Lost(f.pages[f.viewers[id]], f.historyStart, start.changes[0])
  {
    assert MaySend(start.pages[f.viewers[id]], f.pages[f.viewers[id]]);
  }

  lemma SendOnlySends(start: Facts, f: Facts, id: Id, push: Option<Push>)
    requires OnlySends(start, f) && id in f.viewers && f.viewers[id] in f.pages
    requires f.pages[f.viewers[id]].sending.None?
    ensures OnlySends(start, Sending(f, id, push))
  {
    hide NoneLost;
  }

  lemma FollowsOn(a: Facts, b: Facts, c: Facts, gone: set<Id>, more: set<Id>)
    requires Follows(a, b, gone) && Follows(b, c, more)
    ensures Follows(a, c, gone + more)
    ensures gone == {} ==> Follows(a, c, more)
    ensures more == {} ==> Follows(a, c, gone)
  {
    forall id | id in a.viewers && id !in c.viewers && id !in gone + more
      ensures && a.viewers[id] in a.pages
              && a.pages[a.viewers[id]].sending.None?
              && Lost(a.pages[a.viewers[id]], c.historyStart, c.changes[0])
    {
    }
  }

  lemma {:induction false} RecordsOutput(initial: StateChange, log: seq<Item>, chunk: seq<Byte>)
    requires Chronicle(initial, log)
    ensures Chronicle(initial, log + Outputs(chunk))
    ensures OutputOf(log + Outputs(chunk)) == OutputOf(log) + chunk
    ensures ChangesOf(initial, log + Outputs(chunk)) == ChangesOf(initial, log)
  {
    if chunk == [] {
      EmptyTail(log);
      EmptyTail(OutputOf(log));
    } else {
      var less := chunk[..|chunk| - 1];
      RecordsOutput(initial, log, less);
      LastOutput(log, chunk);
      assert OutputOf(log) + chunk == OutputOf(log) + less + [chunk[|chunk| - 1]];
    }
  }

  lemma LastOutput(log: seq<Item>, chunk: seq<Byte>)
    requires chunk != []
    ensures var whole := log + Outputs(chunk);
            whole[..|whole| - 1] == log + Outputs(chunk[..|chunk| - 1])
              && whole[|whole| - 1] == Output(chunk[|chunk| - 1])
  {
  }

  lemma {:induction false} RecordsChange(initial: StateChange, log: seq<Item>, change: StateChange)
    requires Chronicle(initial, log)
    requires change.number == |ChangesOf(initial, log)| && change.offset == |OutputOf(log)|
    ensures Chronicle(initial, log + [Changed(change)])
    ensures OutputOf(log + [Changed(change)]) == OutputOf(log)
    ensures ChangesOf(initial, log + [Changed(change)]) == ChangesOf(initial, log) + [change]
  {
    var whole := log + [Changed(change)];
    assert whole[..|whole| - 1] == log;
  }

  // The window moves on over new output, keeping a shorter run of changes.
  lemma WindowMoves(
    history: seq<Byte>, historyStart: nat, kept: seq<StateChange>, changes: seq<StateChange>, output: seq<Byte>,
    chunk: seq<Byte>, overflow: nat, still: seq<StateChange>)
    requires Window(history, historyStart, kept, changes, output)
    requires overflow ==
             if |history + chunk| > OUTPUT_HISTORY_BYTES then |history + chunk| - OUTPUT_HISTORY_BYTES else 0
    requires 0 < |still| <= |kept| && still == kept[|kept| - |still|..]
    requires |still| < |kept| ==> still[0].offset <= historyStart + overflow
    ensures Window((history + chunk)[overflow..], historyStart + overflow, still, changes, output + chunk)
  {
    assert |still| == |kept| ==> still == kept;
  }

  lemma SnapshotStays(snapshot: Snapshot, changes: seq<StateChange>, output: seq<Byte>, chunk: seq<Byte>)
    requires SnapshotFits(snapshot, changes, output)
    ensures SnapshotFits(snapshot, changes, output + chunk)
  {
    assert (output + chunk)[..snapshot.parsed] == output[..snapshot.parsed];
  }

  lemma {:induction false} ScreenTakes(screen: Screen, changes: seq<StateChange>, output: seq<Byte>, chunk: seq<Byte>)
    requires screen.Fits(changes, output)
    ensures screen.(writes := screen.writes + [Parse(|chunk|, LastBoundary(output + chunk))])
              .Fits(changes, output + chunk)
  {
    hide Queued, LastBoundary, SnapshotFits;
    QueuedParse(screen.writes, screen.parsed, screen.applied, changes, output, chunk);
    assert (output + chunk)[..screen.parsed] == output[..screen.parsed];
    forall id | id in screen.snapshots ensures SnapshotFits(screen.snapshots[id], changes, output + chunk) {
      SnapshotStays(screen.snapshots[id], changes, output, chunk);
    }
  }

  lemma ScreenTakesChange(screen: Screen, changes: seq<StateChange>, output: seq<Byte>, change: StateChange)
    requires screen.Fits(changes, output) && change.offset == |output|
    ensures screen.(writes := screen.writes + [Apply(change)]).Fits(changes + [change], output)
  {
    hide LastBoundary;
    QueuedApply(screen.writes, screen.parsed, screen.applied, changes, output, change);
  }

  function StillKept(changes: seq<StateChange>, start: nat): (still: seq<StateChange>)
    requires changes != []
    ensures 0 < |still| <= |changes|
  {
    if |changes| > 1 && changes[1].offset <= start then StillKept(changes[1..], start) else changes
  }

  lemma {:induction false} StillKeptIs(changes: seq<StateChange>, start: nat)
    requires changes != []
    ensures var still := StillKept(changes, start);
            && still == changes[|changes| - |still|..] && (|still| > 1 ==> still[1].offset > start)
            && (|still| < |changes| ==> still[0].offset <= start)
  {
    if |changes| > 1 && changes[1].offset <= start { StillKeptIs(changes[1..], start); }
  }

  // How much of the retained output more of it pushes out.
  function Overflow(retained: nat): nat {
    if retained > OUTPUT_HISTORY_BYTES then retained - OUTPUT_HISTORY_BYTES else 0
  }

  lemma OverflowWithin(retained: nat)
    ensures Overflow(retained) <= retained
  {
  }

  // The session after new output, before any of it is pushed.
  function AfterOutput(f: Facts, chunk: seq<Byte>, overflow: nat, still: seq<StateChange>): Facts
    requires overflow <= |f.history + chunk|
  {
    f.(history := (f.history + chunk)[overflow..], historyStart := f.historyStart + overflow, changes := still,
       screen := f.screen.(writes := f.screen.writes + [Parse(|chunk|, LastBoundary(f.output + chunk))]),
       log := f.log + Outputs(chunk), output := f.output + chunk)
  }

  // The same, with as much let go as must be.
  function Taken(f: Facts, chunk: seq<Byte>): Facts
    requires f.changes != []
  {
    var overflow := Overflow(|f.history + chunk|);
    AfterOutput(f, chunk, overflow, StillKept(f.changes, f.historyStart + overflow))
  }

  // Output changes nothing about the viewers.
  lemma TakenLeaves(f: Facts, chunk: seq<Byte>)
    requires f.changes != []
    ensures var g := Taken(f, chunk);
            && g.log == f.log + Outputs(chunk) && g.output == f.output + chunk && g.viewers == f.viewers
            && g.pages == f.pages && g.ended == f.ended && g.origins == f.origins && g.delivered == f.delivered
            && ScreenWaits(f.screen, g.screen) && g.all == f.all
  {
    hide StillKept, Outputs, LastBoundary;
  }

  // The oldest change kept is no older than the last one the retained output
  // starts after.
  ghost predicate StartsFrom(kept: seq<StateChange>, all: seq<StateChange>, start: nat) {
    kept != [] && forall i | 0 <= i < |all| && all[i].offset <= start :: kept[0].number >= i
  }

  lemma KeptStarts(kept: seq<StateChange>, all: seq<StateChange>, still: seq<StateChange>, start: nat)
    requires forall i | 0 <= i < |all| :: all[i].number == i
    requires 0 < |kept| <= |all| && kept == all[|all| - |kept|..]
    requires 0 < |still| <= |kept| && still == kept[|kept| - |still|..]
    requires |still| > 1 ==> still[1].offset > start
    requires forall i, j | 0 <= i < j < |all| :: all[i].offset <= all[j].offset
    ensures StartsFrom(still, all, start)
  {
    var first := |all| - |still|;
    assert still[0] == all[first];
    if |still| > 1 { assert still[1] == all[first + 1]; }
  }

  lemma StartsLater(kept: seq<StateChange>, later: seq<StateChange>, all: seq<StateChange>, start: nat)
    requires StartsFrom(kept, all, start) && later != [] && kept[0].number <= later[0].number
    ensures StartsFrom(later, all, start)
  {
  }

  lemma {:induction false} StillStarts(kept: seq<StateChange>, all: seq<StateChange>, output: seq<Byte>, start: nat)
    requires Ordered(all, output) && 0 < |kept| <= |all| && kept == all[|all| - |kept|..]
    ensures StartsFrom(StillKept(kept, start), all, start)
  {
    hide StillKept, StartsFrom;
    StillKeptIs(kept, start);
    KeptStarts(kept, all, StillKept(kept, start), start);
  }

  lemma TakenStarts(f: Facts, chunk: seq<Byte>)
    requires Window(f.history, f.historyStart, f.changes, f.all, f.output) && Ordered(f.all, f.output)
    ensures var g := Taken(f, chunk); StartsFrom(g.changes, f.all, g.historyStart)
  {
    hide StartsFrom, LastBoundary, Outputs, StillKept, Ordered, Overflow;
    OverflowWithin(|f.history + chunk|);
    StillStarts(f.changes, f.all, f.output, f.historyStart + Overflow(|f.history + chunk|));
  }

  lemma Windowed(f: Facts, initial: StateChange)
    requires f.Core(initial)
    ensures Window(f.history, f.historyStart, f.changes, f.all, f.output) && Ordered(f.all, f.output)
  {
    hide Window, Ordered, Screen.Fits, PageFits, Chronicle;
  }

  lemma PageMoreOutput(
    changes: seq<StateChange>, output: seq<Byte>, page: Viewer, origin: Position, reached: Position,
    delivered: seq<Item>, more: seq<Byte>)
    requires PageFits(changes, output, false, page, origin, reached, delivered, false)
    ensures PageFits(changes, output + more, false, page, origin, reached, delivered, false)
  {
    hide Between, Stands, ViewerFits, PushFits;
    FitsMoreOutput(changes, output, page, origin, reached, delivered, more);
  }

  lemma NoneTold(f: Facts, t: nat)
    requires f.Tracked() && t in f.pages && f.Fits(t) && !f.ended
    ensures t !in f.told
    ensures PageFits(f.all, f.output, false, f.pages[t], f.origins[t], f.reached[t], f.delivered[t], false)
  {
  }

  lemma OutputRecords(f: Facts, initial: StateChange, chunk: seq<Byte>)
    requires f.Recorded(initial)
    ensures f.(log := f.log + Outputs(chunk), output := f.output + chunk).Recorded(initial)
  {
    hide Ordered, Outputs, Chronicle;
    RecordsOutput(initial, f.log, chunk);
    ChronicleOrders(initial, f.log + Outputs(chunk));
  }

  lemma OutputKeepsPages(f: Facts, chunk: seq<Byte>)
    requires f.Tracked() && !f.ended && forall t | t in f.pages :: f.Fits(t)
    ensures var g := f.(output := f.output + chunk); g.Tracked() && forall t | t in g.pages :: g.Fits(t)
  {
    hide PageFits;
    var g := f.(output := f.output + chunk);
    assert g.Tracked();
    forall t | t in g.pages ensures g.Fits(t) {
      NoneTold(f, t);
      PageMoreOutput(f.all, f.output, f.pages[t], f.origins[t], f.reached[t], f.delivered[t], chunk);
    }
  }

  lemma {:induction false} WindowTakes(
    history: seq<Byte>, historyStart: nat, kept: seq<StateChange>, changes: seq<StateChange>, output: seq<Byte>,
    chunk: seq<Byte>, overflow: nat)
    requires Window(history, historyStart, kept, changes, output) && overflow == Overflow(|history + chunk|)
    ensures Window((history + chunk)[overflow..], historyStart + overflow, StillKept(kept, historyStart + overflow),
                   changes, output + chunk)
  {
    hide StillKept;
    StillKeptIs(kept, historyStart + overflow);
    WindowMoves(history, historyStart, kept, changes, output, chunk, overflow,
                StillKept(kept, historyStart + overflow));
  }

  lemma TakenKeepsWindow(f: Facts, chunk: seq<Byte>)
    requires f.changes != [] && Window(f.history, f.historyStart, f.changes, f.all, f.output)
    ensures var g := Taken(f, chunk); Window(g.history, g.historyStart, g.changes, g.all, g.output)
  {
    hide StillKept, LastBoundary, Outputs, Window, Overflow;
    OverflowWithin(|f.history + chunk|);
    WindowTakes(f.history, f.historyStart, f.changes, f.all, f.output, chunk, Overflow(|f.history + chunk|));
  }

  lemma TakenKeepsCore(f: Facts, initial: StateChange, chunk: seq<Byte>)
    requires f.Core(initial) && !f.ended
    ensures f.changes != [] && Taken(f, chunk).Core(initial)
  {
    hide PageFits, Chronicle, Ordered, LastBoundary, Outputs, Window, Screen.Fits, StillKept;
    WindowKeepsSome(f);
    OutputRecords(f, initial, chunk);
    TakenKeepsWindow(f, chunk);
    ScreenTakes(f.screen, f.all, f.output, chunk);
    OutputKeepsPages(f, chunk);
    var g, h := Taken(f, chunk), f.(output := f.output + chunk);
    forall t | t in g.pages ensures g.Fits(t) {
      assert h.Fits(t);
    }
  }

  lemma WindowKeepsSome(f: Facts)
    requires Window(f.history, f.historyStart, f.changes, f.all, f.output)
    ensures f.changes != []
  {
  }

  // The session after a state change, before it is pushed.
  function AfterChange(f: Facts, change: StateChange): Facts {
    var grown := f.changes + [change];
    f.(changes := if |grown| > MAX_STATE_CHANGES then grown[1..] else grown,
       screen := f.screen.(writes := f.screen.writes + [Apply(change)]), log := f.log + [Changed(change)],
       all := f.all + [change])
  }

  lemma WindowTakesChange(f: Facts, change: StateChange)
    requires Window(f.history, f.historyStart, f.changes, f.all, f.output) && Ordered(f.all, f.output)
    ensures var g := AfterChange(f, change);
            && Window(g.history, g.historyStart, g.changes, g.all, g.output)
            && (change.number == |f.all| ==> f.changes[0].number <= g.changes[0].number)
  {
  }

  lemma ChangeRecords(f: Facts, initial: StateChange, change: StateChange)
    requires f.Recorded(initial) && change.offset == |f.output| && change.number == |f.all|
    ensures f.(log := f.log + [Changed(change)], all := f.all + [change]).Recorded(initial)
  {
    hide Ordered, Chronicle;
    RecordsChange(initial, f.log, change);
    ChronicleOrders(initial, f.log + [Changed(change)]);
  }

  lemma PageMoreChange(
    changes: seq<StateChange>, output: seq<Byte>, ended: bool, page: Viewer, origin: Position, reached: Position,
    delivered: seq<Item>, told: bool, change: StateChange)
    requires PageFits(changes, output, ended, page, origin, reached, delivered, told) && change.offset == |output|
    ensures PageFits(changes + [change], output, ended, page, origin, reached, delivered, told)
  {
    hide Between, Stands, ViewerFits, PushFits;
    FitsMoreChange(changes, output, page, origin, reached, delivered, change);
  }

  lemma ChangeKeepsPages(f: Facts, change: StateChange)
    requires f.Tracked() && change.offset == |f.output| && forall t | t in f.pages :: f.Fits(t)
    ensures var g := f.(all := f.all + [change]); g.Tracked() && forall t | t in g.pages :: g.Fits(t)
  {
    hide PageFits;
    var g := f.(all := f.all + [change]);
    assert g.Tracked();
    forall t | t in g.pages ensures g.Fits(t) {
      assert f.Fits(t);
      PageMoreChange(f.all, f.output, f.ended, f.pages[t], f.origins[t], f.reached[t], f.delivered[t], t in f.told,
                     change);
    }
  }

  lemma ChangeKeepsCore(f: Facts, initial: StateChange, change: StateChange)
    requires f.Core(initial)
    requires change.offset == f.historyStart + |f.history|
    requires change.number == f.changes[|f.changes| - 1].number + 1
    ensures AfterChange(f, change).Core(initial)
    ensures f.changes[0].number <= AfterChange(f, change).changes[0].number
  {
    hide PageFits, Chronicle, Ordered, Window, Screen.Fits;
    Basics(f, initial);
    ChangeRecords(f, initial, change);
    WindowTakesChange(f, change);
    ScreenTakesChange(f.screen, f.all, f.output, change);
    ChangeKeepsPages(f, change);
    var g, h := AfterChange(f, change), f.(all := f.all + [change]);
    forall t | t in g.pages ensures g.Fits(t) {
      assert h.Fits(t);
    }
  }

  lemma ChangeFollows(f: Facts, change: StateChange)
    requires f.changes != [] && f.changes[0].number <= AfterChange(f, change).changes[0].number
    ensures Follows(f, AfterChange(f, change), {}) && AfterChange(f, change).all == f.all + [change]
  {
  }

  function Sending(f: Facts, id: Id, push: Option<Push>): Facts
    requires id in f.viewers && f.viewers[id] in f.pages
  {
    f.(pages := f.pages[f.viewers[id] := f.pages[f.viewers[id]].(sending := push)])
  }

  // The page `t` shows once `push` is started for it.
  ghost predicate SendingFits(f: Facts, t: nat, push: Option<Push>)
    requires f.Tracked() && t in f.pages
  {
    PageFits(f.all, f.output, f.ended, f.pages[t].(sending := push),
             f.origins[t], f.reached[t], f.delivered[t], t in f.told)
  }

  lemma PageSends(f: Facts, t: nat)
    requires Ordered(f.all, f.output) && Window(f.history, f.historyStart, f.changes, f.all, f.output)
    requires f.Tracked() && t in f.pages && t !in f.told && f.Fits(t)
    requires !Lost(f.pages[t], f.historyStart, f.changes[0])
    ensures f.historyStart <= f.pages[t].sentOffset <= f.historyStart + |f.history|
    ensures var push := NextPush(f.history, f.historyStart, f.changes, f.ended, f.pages[t]);
            && SendingFits(f, t, push)
            && (push.None? ==> CaughtUp(f.all, f.output, f.pages[t]) && !f.ended)
  {
    hide NextPush, NextChange, Between, Ordered, Stands, Window;
    NextPushFits(f.history, f.historyStart, f.changes, f.ended, f.pages[t], f.all, f.output, f.origins[t],
      f.delivered[t]);
  }

  lemma SendKeepsCore(f: Facts, initial: StateChange, id: Id, push: Option<Push>)
    requires f.Core(initial) && id in f.viewers
    requires SendingFits(f, f.viewers[id], push)
    ensures Sending(f, id, push).Core(initial)
  {
    hide PageFits;
    var g := Sending(f, id, push);
    assert g.Recorded(initial) && g.Tracked();
    forall u | u in g.pages ensures g.Fits(u) {
      assert f.Fits(u);
    }
  }

  lemma SendFollows(f: Facts, id: Id, push: Option<Push>)
    requires f.changes != [] && id in f.viewers && f.viewers[id] in f.pages
    requires f.pages[f.viewers[id]].sending.None?
    ensures Follows(f, Sending(f, id, push), {})
  {
  }

  function Dropping(f: Facts, id: Id): Facts {
    f.(viewers := f.viewers - {id})
  }

  lemma DropKeepsCore(f: Facts, initial: StateChange, id: Id)
    requires f.Core(initial)
    ensures Dropping(f, id).Core(initial)
  {
    hide PageFits;
    var g := Dropping(f, id);
    assert g.Recorded(initial) && g.Tracked();
    forall t | t in g.pages ensures g.Fits(t) {
      assert f.Fits(t);
    }
  }

  lemma DropFollows(f: Facts, id: Id)
    requires f.changes != []
    ensures Follows(f, Dropping(f, id), {id})
  {
  }

  // A session in which viewer `t`, which joined before, stands at `page`.
  function Moving(f: Facts, t: nat, page: Viewer, reached: Position, delivered: seq<Item>, told: bool): Facts {
    f.(pages := f.pages[t := page], reached := f.reached[t := reached],
       delivered := f.delivered[t := delivered], told := if told then f.told + {t} else f.told)
  }

  lemma MoveKeepsCore(
    f: Facts, initial: StateChange, t: nat, page: Viewer, reached: Position, delivered: seq<Item>, told: bool)
    requires f.Core(initial) && t in f.pages && t !in f.told && page.id == f.pages[t].id
    requires told ==> forall id | id in f.viewers :: f.viewers[id] != t
    requires PageFits(f.all, f.output, f.ended, page, f.origins[t], reached, delivered, told)
    ensures Moving(f, t, page, reached, delivered, told).Core(initial)
  {
    hide PageFits;
    var g := Moving(f, t, page, reached, delivered, told);
    assert g.Recorded(initial) && g.Tracked();
    forall u | u in g.pages ensures g.Fits(u) {
      if u != t { assert f.Fits(u); }
    }
  }

  // A session a new viewer has joined.
  function Admitting(f: Facts, t: nat, page: Viewer): Facts {
    f.(viewers := f.viewers[page.id := t], pages := f.pages[t := page], origins := f.origins[t := page.At()],
       reached := f.reached[t := page.At()], delivered := f.delivered[t := []])
  }

  lemma AdmitKeepsCore(f: Facts, initial: StateChange, t: nat, page: Viewer)
    requires f.Core(initial) && t !in f.pages
    requires PageFits(f.all, f.output, f.ended, page, page.At(), page.At(), [], false)
    ensures Admitting(f, t, page).Core(initial)
  {
    hide PageFits;
    var g := Admitting(f, t, page);
    assert g.Recorded(initial) && g.Tracked();
    forall u | u in g.pages ensures g.Fits(u) {
      if u != t { assert f.Fits(u); }
    }
  }

  // A viewer that accepts its push has what the push shows as well.
  lemma AcceptFits(
    changes: seq<StateChange>, output: seq<Byte>, ended: bool, page: Viewer, origin: Position,
    reached: Position, delivered: seq<Item>, told: bool)
    requires Ordered(changes, output) && page.sending.Some?
    requires PageFits(changes, output, ended, page, origin, reached, delivered, told)
    ensures !told
    ensures var moved := page.(sentOffset := page.sending.value.offset, state := page.sending.value.state,
                              sending := None);
            PageFits(changes, output, ended, moved, origin, moved.At(),
                     delivered + Shown(page, page.sending.value), false)
    ensures !page.sending.value.last ==> Shown(page, page.sending.value) != []
  {
    hide Between, Ordered, Stands, Shown;
    PushMovesOn(changes, output, page, origin, delivered, page.sending.value);
  }

  lemma UnsentFits(
    changes: seq<StateChange>, output: seq<Byte>, ended: bool, page: Viewer, origin: Position,
    reached: Position, delivered: seq<Item>)
    requires PageFits(changes, output, ended, page, origin, reached, delivered, false)
    ensures PageFits(changes, output, ended, page.(sending := None), origin, reached, delivered, false)
  {
    hide Between, Stands;
  }

  // One told of the ending by its push has everything the session put out.
  lemma LastFits(
    changes: seq<StateChange>, output: seq<Byte>, ended: bool, page: Viewer, origin: Position,
    reached: Position, delivered: seq<Item>, told: bool)
    requires Ordered(changes, output) && page.sending.Some? && page.sending.value.last
    requires PageFits(changes, output, ended, page, origin, reached, delivered, told)
    ensures var push := page.sending.value;
            PageFits(changes, output, ended, page.(sending := None), origin, Position(push.offset, push.state.number),
                     delivered + Shown(page, push), true)
  {
    hide Between, Ordered, Stands, Shown;
    PushMovesOn(changes, output, page, origin, delivered, page.sending.value);
  }

  // The change numbered `number` among those kept.
  function FindChange(changes: seq<StateChange>, number: nat): (found: Option<StateChange>)
    ensures found.Some? ==> found.value in changes && found.value.number == number
    ensures found.None? ==> forall c | c in changes :: c.number != number
  {
    if changes == [] then None
    else if changes[0].number == number then Some(changes[0])
    else FindChange(changes[1..], number)
  }

  // Where a viewer given `snapshot` joins: in the state it shows, unless the
  // change to that state has been dropped since.
  function Joining(id: Id, snapshot: Snapshot, kept: seq<StateChange>): Viewer
    requires kept != []
  {
    var found := FindChange(kept, snapshot.number);
    Viewer(id, snapshot.offset, if found.Some? then found.value else kept[0], None)
  }

  // A viewer joins in a state the session went through, before which nothing
  // it is still to be shown applies.
  lemma JoinFits(f: Facts, initial: StateChange, id: Id)
    requires f.Core(initial) && id in f.screen.snapshots
    ensures var page := Joining(id, f.screen.snapshots[id], f.changes);
            && PageFits(f.all, f.output, f.ended, page, page.At(), page.At(), [], false)
            && page.state.number == (if f.screen.snapshots[id].number >= f.changes[0].number
                                     then f.screen.snapshots[id].number else f.changes[0].number)
  {
    hide Between, Stands, Ordered, Chronicle, Queued, LastBoundary, Joining, PageFits, Window, ScreenAt;
    var snapshot := f.screen.snapshots[id];
    assert SnapshotFits(snapshot, f.all, f.output);
    Windowed(f, initial);
    WindowSays(f);
    JoinState(id, snapshot, f.changes, f.all, f.output);
    JoinedWhere(id, snapshot, f.changes);
    JoinsFitting(f.all, f.output, f.ended, Joining(id, snapshot, f.changes), snapshot.number);
  }

  lemma WindowSays(f: Facts)
    requires Window(f.history, f.historyStart, f.changes, f.all, f.output)
    ensures 0 < |f.changes| <= |f.all| && f.changes == f.all[|f.all| - |f.changes|..]
  {
  }

  lemma JoinedWhere(id: Id, snapshot: Snapshot, kept: seq<StateChange>)
    requires kept != []
    ensures var page := Joining(id, snapshot, kept); page.sentOffset == snapshot.offset && page.sending == None
  {
  }

  // A page that joins at a state no earlier than `number`, after which no change
  // applies before where it is.
  lemma JoinsFitting(changes: seq<StateChange>, output: seq<Byte>, ended: bool, page: Viewer, number: nat)
    requires page.sentOffset <= |output| && page.sending == None && number <= page.state.number < |changes|
    requires page.state == changes[page.state.number]
    requires forall i | number < i < |changes| :: changes[i].offset >= page.sentOffset
    ensures PageFits(changes, output, ended, page, page.At(), page.At(), [], false)
  {
    assert Between(changes, output, page.At(), page.At()) == [];
  }

  // It is owed all its screen doesn't show exactly if the screen's own state is
  // still kept. Otherwise the changes up to the oldest kept are left out, and
  // that one is its state from the start.
  lemma JoinMisses(f: Facts, initial: StateChange, id: Id)
    requires f.Core(initial) && id in f.screen.snapshots
    ensures f.changes != []
    ensures var snapshot := f.screen.snapshots[id];
            var page := Joining(id, snapshot, f.changes);
            Feed(f.log, page.At()) == Feed(f.log, Position(snapshot.offset, snapshot.number)) <==>
              snapshot.number >= f.changes[0].number
  {
    var snapshot := f.screen.snapshots[id];
    var page := Joining(id, snapshot, f.changes);
    JoinFits(f, initial, id);
    assert SnapshotFits(snapshot, f.all, f.output);
    hide Between, Feed, Chronicle, Joining, Queued, LastBoundary;
    FeedLength(initial, f.log, page.At());
    FeedLength(initial, f.log, Position(snapshot.offset, snapshot.number));
  }

  // The state it joins in takes effect past where its output resumes in two
  // cases. Either the screen's own change came in the midst of a sequence, of
  // which the screen had part; or that state isn't kept, and the oldest that
  // is comes later, which for a viewer that isn't lost takes as many changes
  // since as are ever kept.
  lemma JoinsAhead(f: Facts, initial: StateChange, id: Id)
    requires f.Core(initial) && id in f.screen.snapshots
    ensures f.changes != []
    ensures var snapshot := f.screen.snapshots[id];
            var page := Joining(id, snapshot, f.changes);
            && snapshot.number < |f.all| && snapshot.parsed <= |f.output|
            && (page.state.offset > snapshot.offset <==>
                  if snapshot.number >= f.changes[0].number then
                    && snapshot.offset == LastBoundary(f.output[..snapshot.parsed])
                    && snapshot.offset < f.all[snapshot.number].offset <= snapshot.parsed
                  else
                    f.changes[0].offset > snapshot.offset)
            && (page.state.offset > snapshot.offset && snapshot.number < f.changes[0].number
                && !Lost(page, f.historyStart, f.changes[0]) ==>
                  |f.changes| == MAX_STATE_CHANGES)
  {
    var snapshot := f.screen.snapshots[id];
    var page := Joining(id, snapshot, f.changes);
    JoinFits(f, initial, id);
    assert SnapshotFits(snapshot, f.all, f.output);
    hide Between, Feed, Chronicle, Joining, Queued, LastBoundary, Stands;
    Windowed(f, initial);
    assert f.changes[0] == f.all[|f.all| - |f.changes|];
  }

  lemma JoinState(id: Id, snapshot: Snapshot, kept: seq<StateChange>, changes: seq<StateChange>, output: seq<Byte>)
    requires Ordered(changes, output) && snapshot.number < |changes|
    requires 0 < |kept| <= |changes| && kept == changes[|changes| - |kept|..]
    ensures var state := Joining(id, snapshot, kept).state;
            && state.number < |changes| && state == changes[state.number]
            && state.number == (if snapshot.number >= kept[0].number then snapshot.number else kept[0].number)
  {
    var first := |changes| - |kept|;
    assert kept[0] == changes[first];
    if snapshot.number >= first {
      assert kept[snapshot.number - first] == changes[snapshot.number];
      assert kept[snapshot.number - first] in kept;
    } else {
      assert forall c | c in kept :: c.number >= first;
    }
  }

  // The screen once it has taken the next of its writes.
  function AfterWrite(screen: Screen, historyStart: nat): Screen
    requires screen.writes != []
  {
    var rest := screen.writes[1..];
    match screen.writes[0]
    case Parse(length, resume) => screen.(writes := rest, parsed := screen.parsed + length, resume := resume)
    case Apply(change) => screen.(writes := rest, applied := change.number)
    case Serialize(id) =>
      var offset := if screen.resume >= historyStart then screen.resume else screen.parsed;
      screen.(writes := rest, snapshots := screen.snapshots[id := Snapshot(screen.parsed, offset, screen.applied)])
  }

  lemma ScreenParses(
    writes: seq<Work>, parsed: nat, resume: nat, applied: nat, changes: seq<StateChange>, output: seq<Byte>)
    requires ScreenAt(writes, parsed, resume, applied, changes, output) && writes != [] && writes[0].Parse?
    requires forall i, j | 0 <= i < j < |changes| :: changes[i].offset <= changes[j].offset
    ensures ScreenAt(writes[1..], parsed + writes[0].length, writes[0].resume, applied, changes, output)
  {
    hide LastBoundary;
  }

  lemma ScreenApplies(
    writes: seq<Work>, parsed: nat, resume: nat, applied: nat, changes: seq<StateChange>, output: seq<Byte>)
    requires ScreenAt(writes, parsed, resume, applied, changes, output) && writes != [] && writes[0].Apply?
    requires forall i | 0 <= i < |changes| :: changes[i].number == i
    ensures ScreenAt(writes[1..], parsed, resume, writes[0].change.number, changes, output)
  {
    hide LastBoundary;
  }

  lemma ScreenSerializes(
    writes: seq<Work>, parsed: nat, resume: nat, applied: nat, changes: seq<StateChange>, output: seq<Byte>)
    requires ScreenAt(writes, parsed, resume, applied, changes, output) && writes != [] && writes[0].Serialize?
    ensures ScreenAt(writes[1..], parsed, resume, applied, changes, output)
    ensures SnapshotFits(Snapshot(parsed, resume, applied), changes, output)
    ensures SnapshotFits(Snapshot(parsed, parsed, applied), changes, output)
  {
    hide LastBoundary;
    assert LastBoundary(output[..parsed]) <= |output[..parsed]|;
  }

  lemma WriteKeepsScreen(screen: Screen, historyStart: nat, changes: seq<StateChange>, output: seq<Byte>)
    requires screen.Fits(changes, output) && Ordered(changes, output) && screen.writes != []
    ensures AfterWrite(screen, historyStart).Fits(changes, output)
  {
    hide ScreenAt, SnapshotFits;
    match screen.writes[0]
    case Parse(_, _) =>
      ScreenParses(screen.writes, screen.parsed, screen.resume, screen.applied, changes, output);
    case Apply(_) =>
      ScreenApplies(screen.writes, screen.parsed, screen.resume, screen.applied, changes, output);
    case Serialize(_) =>
      ScreenSerializes(screen.writes, screen.parsed, screen.resume, screen.applied, changes, output);
  }

  lemma ScreenKeepsCore(f: Facts, screen: Screen, initial: StateChange)
    requires f.Core(initial) && screen.Fits(f.all, f.output)
    ensures f.(screen := screen).Core(initial)
    ensures f.Settled() ==> f.(screen := screen).Settled()
  {
    hide PageFits;
    var g := f.(screen := screen);
    assert g.Recorded(initial) && g.Tracked();
    forall t | t in g.pages ensures g.Fits(t) {
      assert f.Fits(t);
    }
  }

  lemma WriteKeepsCore(f: Facts, initial: StateChange)
    requires f.Core(initial) && f.screen.writes != []
    ensures f.(screen := AfterWrite(f.screen, f.historyStart)).Core(initial)
    ensures f.Settled() ==> f.(screen := AfterWrite(f.screen, f.historyStart)).Settled()
  {
    WriteKeepsScreen(f.screen, f.historyStart, f.all, f.output);
    ScreenKeepsCore(f, AfterWrite(f.screen, f.historyStart), initial);
  }

  function Asking(screen: Screen, id: Id): Screen {
    screen.(writes := screen.writes + [Serialize(id)])
  }

  lemma AskKeepsCore(f: Facts, initial: StateChange, id: Id)
    requires f.Core(initial)
    ensures f.(screen := Asking(f.screen, id)).Core(initial)
    ensures f.Settled() ==> f.(screen := Asking(f.screen, id)).Settled()
  {
    QueuedSerialize(f.screen.writes, f.screen.parsed, f.screen.applied, f.all, f.output, id);
    ScreenKeepsCore(f, Asking(f.screen, id), initial);
  }

  lemma EndKeepsCore(f: Facts, initial: StateChange)
    requires f.Core(initial) && !f.ended
    ensures f.(ended := true).Core(initial)
  {
    var g := f.(ended := true);
    assert g.Recorded(initial) && g.Tracked();
    forall t | t in g.pages ensures g.Fits(t) {
      assert f.Fits(t);
    }
  }

  lemma Basics(f: Facts, initial: StateChange)
    requires f.Core(initial)
    ensures f.changes != [] && f.all != [] && f.changes[|f.changes| - 1] == f.all[|f.all| - 1]
    ensures f.historyStart + |f.history| == |f.output|
    ensures f.changes[|f.changes| - 1].number == |f.all| - 1
    ensures forall id | id in f.viewers ::
              f.viewers[id] in f.pages && f.viewers[id] !in f.told && f.pages[f.viewers[id]].id == id
  {
  }

  lemma StartsFollowing(f: Facts)
    requires f.changes != []
    ensures Follows(f, f, {})
  {
  }

  lemma RestsEverywhere(f: Facts, ids: set<Id>)
    requires f.Settled()
    ensures f.RestBut(ids)
  {
  }

  // One viewer's turn in a flush: it has a push to answer already, or is lost,
  // or is sent what it is due.
  lemma TurnSkips(f: Facts, ids: set<Id>, id: Id)
    requires f.RestBut(ids + {id})
    requires id in f.viewers ==> f.viewers[id] in f.pages && f.pages[f.viewers[id]].sending.Some?
    ensures f.RestBut(ids)
  {
  }

  lemma TurnDrops(f: Facts, ids: set<Id>, id: Id)
    requires f.RestBut(ids + {id})
    ensures Dropping(f, id).RestBut(ids)
  {
  }

  lemma NobodyDropped(f: Facts, id: Id)
    requires id !in f.viewers && f.changes != []
    ensures Dropping(f, id) == f && Follows(f, f, {id})
  {
    assert f.viewers - {id} == f.viewers;
  }

  // A viewer dropped, and what its control's release may do.
  lemma AfterUnseat(f: Facts, g: Facts, id: Id)
    requires f.changes != [] && Follows(Dropping(f, id), g, {}) && Released(Dropping(f, id), g, id)
    ensures Follows(f, g, {id}) && id !in g.viewers && Released(f, g, id)
  {
    DropFollows(f, id);
    hide Follows;
    FollowsOn(f, Dropping(f, id), g, {id}, {});
    StaysDropped(Dropping(f, id), g, id);
  }

  // Dropping a lost viewer is among what flushing may do.
  lemma LostFollows(f: Facts, g: Facts, id: Id, oldest: StateChange)
    requires Follows(f, g, {id}) && id in f.viewers && f.viewers[id] in f.pages
    requires f.pages[f.viewers[id]].sending.None? && Lost(f.pages[f.viewers[id]], f.historyStart, oldest)
    requires oldest.number <= f.changes[0].number
    ensures Follows(f, g, {})
  {
    assert Lost(f.pages[f.viewers[id]], g.historyStart, g.changes[0]);
  }

  lemma TurnSends(f: Facts, initial: StateChange, ids: set<Id>, id: Id)
    requires f.Core(initial) && id in f.viewers && f.pages[f.viewers[id]].sending.None?
    requires f.RestBut(ids + {id})
    requires !Lost(f.pages[f.viewers[id]], f.historyStart, f.changes[0])
    ensures var page := f.pages[f.viewers[id]];
            f.historyStart <= page.sentOffset <= f.historyStart + |f.history|
    ensures var push := NextPush(f.history, f.historyStart, f.changes, f.ended, f.pages[f.viewers[id]]);
            var g := Sending(f, id, push);
            g.Core(initial) && Follows(f, g, {}) && g.RestBut(ids)
  {
    var t := f.viewers[id];
    assert f.Fits(t);
    PageSends(f, t);
    var push := NextPush(f.history, f.historyStart, f.changes, f.ended, f.pages[t]);
    SendFollows(f, id, push);
    SendKeepsCore(f, initial, id, push);
    Basics(f, initial);
    SendRests(f, ids, id, push);
  }

  lemma SendRests(f: Facts, ids: set<Id>, id: Id, push: Option<Push>)
    requires f.RestBut(ids + {id}) && id in f.viewers && f.viewers[id] in f.pages
    requires forall other | other in f.viewers && other != id :: f.viewers[other] != f.viewers[id]
    requires push.None? ==> CaughtUp(f.all, f.output, f.pages[f.viewers[id]]) && !f.ended
    ensures Sending(f, id, push).RestBut(ids)
  {
  }

  // Where everyone is at rest, a viewer with nothing in flight isn't lost.
  lemma RestedIsNotLost(f: Facts, initial: StateChange, id: Id, oldest: StateChange)
    requires f.Core(initial) && f.Settled() && id in f.viewers && f.pages[f.viewers[id]].sending.None?
    requires oldest.number <= f.changes[0].number
    ensures !Lost(f.pages[f.viewers[id]], f.historyStart, oldest)
    ensures !Lost(f.pages[f.viewers[id]], f.historyStart, f.changes[0])
  {
    assert f.AtRest(id);
    assert f.changes[0] == f.all[|f.all| - |f.changes|];
  }

  lemma AllStillToRest(f: Facts)
    ensures f.RestBut(f.viewers.Keys)
  {
  }

  lemma StaysDropped(f: Facts, g: Facts, id: Id)
    requires Follows(f, g, {}) && id !in f.viewers
    ensures id !in g.viewers
  {
  }

  lemma KeepsChanges(f: Facts, g: Facts)
    requires Follows(f, g, {})
    ensures f.all <= g.all
  {
  }

  lemma AfterDrop(
    start: Facts, f: Facts, g: Facts, initial: StateChange, ids: set<Id>, id: Id, oldest: StateChange)
    requires Follows(start, f, {}) && Follows(f, g, {id})
    requires f.Core(initial) && id in f.viewers && f.pages[f.viewers[id]].sending.None?
    requires Lost(f.pages[f.viewers[id]], f.historyStart, oldest) && oldest.number <= f.changes[0].number
    requires oldest == f.changes[0] || f.Settled()
    requires f.Settled() ==> !Lost(f.pages[f.viewers[id]], f.historyStart, oldest)
    requires Dropping(f, id).RestBut(ids)
    requires g == Dropping(f, id) || g.Settled()
    ensures Follows(start, g, {}) && g.RestBut(ids) && g.changes != [] && oldest.number <= g.changes[0].number
    ensures oldest == g.changes[0] || g.Settled()
  {
    LostFollows(f, g, id, oldest);
    FollowsOn(start, f, g, {}, {});
    if g.Settled() { RestsEverywhere(g, ids); }
  }

  lemma AfterSend(start: Facts, f: Facts, initial: StateChange, ids: set<Id>, id: Id, oldest: StateChange)
    requires Follows(start, f, {}) && f.Core(initial)
    requires id in f.viewers && f.pages[f.viewers[id]].sending.None?
    requires !Lost(f.pages[f.viewers[id]], f.historyStart, oldest) && f.RestBut(ids + {id})
    requires oldest.number <= f.changes[0].number && (oldest == f.changes[0] || f.Settled())
    ensures var page := f.pages[f.viewers[id]];
            f.historyStart <= page.sentOffset <= f.historyStart + |f.history|
    ensures var g := Sending(f, id, NextPush(f.history, f.historyStart, f.changes, f.ended, f.pages[f.viewers[id]]));
            && g.Core(initial) && Follows(start, g, {}) && g.RestBut(ids)
            && (oldest == g.changes[0] || g.Settled())
  {
    hide NextPush;
    if f.Settled() { RestedIsNotLost(f, initial, id, oldest); }
    TurnSends(f, initial, ids, id);
    if f.Settled() {
      RestsEverywhere(f, {} + {id});
      TurnSends(f, initial, {}, id);
    }
    hide *;
    var push := NextPush(f.history, f.historyStart, f.changes, f.ended, f.pages[f.viewers[id]]);
    FollowsOn(start, f, Sending(f, id, push), {}, {});
  }

  // How far a flush that began with `start` has got: those of `ids` have yet to
  // have their turn.
  ghost predicate Flushing(start: Facts, f: Facts, ids: set<Id>, oldest: StateChange) {
    && Follows(start, f, {}) && OnlySends(start, f) && f.RestBut(ids)
    && f.changes != [] && oldest.number <= f.changes[0].number && (oldest == f.changes[0] || f.Settled())
  }

  lemma FlushStarts(f: Facts)
    requires f.changes != []
    ensures Flushing(f, f, f.viewers.Keys, f.changes[0])
  {
    hide Follows, OnlySends, Facts.RestBut;
    StartsFollowing(f);
    AllStillToRest(f);
    SendsNothing(f);
  }

  lemma FlushEnds(start: Facts, f: Facts, oldest: StateChange)
    requires Flushing(start, f, {}, oldest)
    ensures Follows(start, f, {}) && OnlySends(start, f) && f.Settled()
  {
    hide Follows, OnlySends;
  }

  // A session before anything has happened in it.
  function Beginning(initial: StateChange): Facts {
    Facts([], 0, [initial], map[], map[], false, Screen(0, 0, 0, [], map[]), [], [], [initial], map[], map[], map[], {})
  }

  lemma BeginningFits(initial: StateChange)
    requires initial.offset == 0 && initial.number == 0
    ensures Beginning(initial).Core(initial) && Beginning(initial).Settled()
  {
    var output: seq<Byte> := [];
    assert output[..0] == [] && LastBoundary(output) == 0;
  }

  // What flushing leaves alone.
  lemma FollowsSays(f: Facts, g: Facts, gone: set<Id>)
    requires Follows(f, g, gone)
    ensures g.delivered == f.delivered && g.origins == f.origins && g.output == f.output
    ensures g.ended == f.ended && g.told == f.told && f.log <= g.log && g.pages.Keys == f.pages.Keys
    ensures g.changes != []
    ensures forall id | id in f.viewers && id !in g.viewers && id !in gone ::
              f.viewers[id] in f.pages && Lost(f.pages[f.viewers[id]], g.historyStart, g.changes[0])
    ensures ScreenWaits(f.screen, g.screen) && f.all <= g.all
    ensures f.changes != [] && f.changes[0].number <= g.changes[0].number && g.historyStart == f.historyStart
    ensures g.viewers.Keys <= f.viewers.Keys
  {
  }

  lemma EndedRests(f: Facts)
    requires f.Settled() && f.ended
    ensures forall id | id in f.viewers :: f.viewers[id] in f.pages && f.pages[f.viewers[id]].sending.Some?
  {
  }

  // Of the viewers attached, but for `gone`, only those far behind go.
  ghost predicate DropsBehind(before: Facts, after: Facts, gone: set<Id>) {
    forall id | id in before.viewers && id !in gone ::
      if id in after.viewers then after.viewers[id] == before.viewers[id]
      else
        && before.viewers[id] in before.pages
        && FarBehind(before.pages[before.viewers[id]], after.output, after.all, after.changes)
  }

  lemma FollowsDrops(f: Facts, g: Facts, initial: StateChange, gone: set<Id>)
    requires Follows(f, g, gone) && g.Core(initial)
    ensures DropsBehind(f, g, gone)
  {
    hide FarBehind, Lost, Window, Facts.Core, Ordered, Follows;
    Windowed(g, initial);
    FollowsLeaves(f, g, gone);
    forall id | id in f.viewers && id !in g.viewers && id !in gone
      ensures && f.viewers[id] in f.pages
              && FarBehind(f.pages[f.viewers[id]], g.output, g.all, g.changes)
    {
      LostMeans(g.history, g.historyStart, g.changes, g.all, g.output, f.pages[f.viewers[id]]);
    }
  }

  lemma FollowsLeaves(f: Facts, g: Facts, gone: set<Id>)
    requires Follows(f, g, gone)
    ensures g.changes != [] && forall id | id in g.viewers :: id in f.viewers && g.viewers[id] == f.viewers[id]
    ensures forall id | id in f.viewers && id !in g.viewers && id !in gone ::
              f.viewers[id] in f.pages && Lost(f.pages[f.viewers[id]], g.historyStart, g.changes[0])
  {
    hide Lost;
  }

  // What is done before a flush changes nothing about who goes.
  lemma DropsAfter(a: Facts, b: Facts, c: Facts, gone: set<Id>)
    requires DropsBehind(b, c, gone)
    requires forall id | id in a.viewers && id !in gone ::
               && id in b.viewers && b.viewers[id] == a.viewers[id]
               && (b.viewers[id] in b.pages ==>
                     && b.viewers[id] in a.pages
                     && a.pages[a.viewers[id]].sentOffset <= b.pages[a.viewers[id]].sentOffset
                     && a.pages[a.viewers[id]].state.number <= b.pages[a.viewers[id]].state.number)
    ensures DropsBehind(a, c, gone)
  {
  }

  // Whoever joined stays where it did, and keeps what it has had.
  ghost predicate Keeps(before: Facts, after: Facts) {
    && before.log <= after.log
    && forall t | t in before.origins ::
         && t in after.origins && after.origins[t] == before.origins[t]
         && t in before.delivered && t in after.delivered && before.delivered[t] <= after.delivered[t]
  }

  lemma KeepsOn(a: Facts, b: Facts, c: Facts)
    requires Keeps(a, b) && Keeps(b, c)
    ensures Keeps(a, c)
  {
  }

  lemma AllTracked(f: Facts, initial: StateChange)
    requires f.Core(initial)
    ensures f.pages.Keys == f.origins.Keys == f.delivered.Keys
  {
  }

  // Control passes from `id`, if it had it, to nobody, at the output's end; if
  // not, the state stays as it was.
  ghost predicate Released(before: Facts, after: Facts, id: Id) {
    && before.changes != []
    && var current := before.changes[|before.changes| - 1];
       if current.active == Some(id) then
         before.all + [StateChange(None, current.cols, current.rows, |before.output|, current.number + 1)] <= after.all
       else after.all == before.all
  }

  lemma PartedSays(
    f: Facts, g: Facts, t: nat, page: Viewer, reached: Position, delivered: seq<Item>, told: bool)
    requires g == Moving(Dropping(f, page.id), t, page, reached, delivered, told) && t in f.pages
    requires forall id | id in f.viewers :: f.viewers[id] in f.pages && f.pages[f.viewers[id]].id == id
    requires page.id == f.pages[t].id
    ensures g.log == f.log && g.output == f.output && g.ended == f.ended && g.origins == f.origins && g.all == f.all
    ensures g.changes == f.changes && g.delivered == f.delivered[t := delivered] && g.pages.Keys == f.pages.Keys
    ensures (told ==> t in g.told) && g.viewers == f.viewers - {page.id}
    ensures forall o | o in g.viewers && g.viewers[o] in g.pages ::
              g.viewers[o] in f.pages && f.pages[g.viewers[o]] == g.pages[g.viewers[o]]
  {
  }

  lemma ReleasedSame(a: Facts, b: Facts, c: Facts, id: Id)
    requires Released(b, c, id) && b.changes == a.changes && b.all == a.all && b.output == a.output
    ensures Released(a, c, id)
  {
  }

  lemma DismissedDrops(a: Facts, b: Facts, c: Facts, id: Id)
    requires DropsBehind(b, c, {}) && b.viewers == a.viewers - {id}
    requires forall o | o in b.viewers && b.viewers[o] in b.pages ::
               b.viewers[o] in a.pages && a.pages[b.viewers[o]] == b.pages[b.viewers[o]]
    ensures DropsBehind(a, c, {id})
  {
  }

  lemma RestsDropped(f: Facts, id: Id)
    requires f.Settled()
    ensures Dropping(f, id).Settled()
  {
  }

  lemma RestsMoved(f: Facts, t: nat, page: Viewer, reached: Position, delivered: seq<Item>, told: bool)
    requires f.Settled() && forall id | id in f.viewers :: f.viewers[id] != t
    ensures Moving(f, t, page, reached, delivered, told).Settled()
  {
  }

  lemma DismissKeeps(
    f: Facts, initial: StateChange, t: nat, page: Viewer, reached: Position, delivered: seq<Item>, told: bool)
    requires f.Core(initial) && f.Settled() && t in f.pages && t !in f.told && page.id == f.pages[t].id
    requires PageFits(f.all, f.output, f.ended, page, f.origins[t], reached, delivered, told)
    ensures var g := Moving(Dropping(f, page.id), t, page, reached, delivered, told);
            g.Core(initial) && g.Settled() && g.changes != []
  {
    hide Facts.Core, PageFits, Facts.RestBut;
    Basics(f, initial);
    DropKeepsCore(f, initial, page.id);
    MoveKeepsCore(Dropping(f, page.id), initial, t, page, reached, delivered, told);
    RestsDropped(f, page.id);
    RestsMoved(Dropping(f, page.id), t, page, reached, delivered, told);
  }

  lemma PageOf(f: Facts, initial: StateChange, t: nat)
    requires f.Core(initial) && t in f.pages
    ensures t in f.origins && t in f.reached && t in f.delivered && Ordered(f.all, f.output)
    ensures PageFits(f.all, f.output, f.ended, f.pages[t], f.origins[t], f.reached[t], f.delivered[t], t in f.told)
    ensures f.pages[t].sending.Some? ==> t !in f.told
  {
    assert f.Fits(t);
  }

  lemma PushBrings(f: Facts, initial: StateChange, t: nat)
    requires f.Core(initial) && t in f.pages && f.pages[t].sending.Some?
    ensures !f.pages[t].sending.value.last ==> Shown(f.pages[t], f.pages[t].sending.value) != []
  {
    PageOf(f, initial, t);
  }

  lemma AnswerGoesOn(f: Facts, initial: StateChange, t: nat)
    requires f.Core(initial) && t in f.pages && f.pages[t].sending.Some?
    ensures var page := f.pages[t];
            && page.sentOffset <= page.sending.value.offset
            && page.state.number <= page.sending.value.state.number
  {
    PageOf(f, initial, t);
  }

  lemma TellsOrder(f: Facts, initial: StateChange, t: nat)
    requires f.Core(initial) && t in f.pages
    ensures t in f.delivered && t in f.origins && f.delivered[t] <= Feed(f.log, f.origins[t])
    ensures f.origins[t].offset <= |f.output|
    ensures t !in f.told ==>
              |f.delivered[t]| == f.pages[t].sentOffset - f.origins[t].offset
                + f.pages[t].state.number - f.origins[t].number
    ensures t in f.told ==> f.ended && OutputOf(f.delivered[t]) == f.output[f.origins[t].offset..]
  {
    PageOf(f, initial, t);
    hide Between, Feed, Ordered, Chronicle;
    SentIsPrefix(initial, f.log, f.origins[t], f.reached[t]);
    BetweenTells(f.all, f.output, f.origins[t], f.reached[t]);
    if t in f.told { WholeSuffix(f.output, f.origins[t].offset); }
  }

  // Of the changes at or before `start` only the last is kept, and all after.
  method KeptFrom(changes: seq<StateChange>, start: nat) returns (still: seq<StateChange>)
    requires changes != []
    ensures still == StillKept(changes, start)
  {
    still := changes;
    while |still| > 1 && still[1].offset <= start
      invariant still != [] && StillKept(still, start) == StillKept(changes, start)
    {
      still := still[1..];
    }
  }

  class Session {
    // The retained end of the output, which begins at `historyStart`.
    var history: seq<Byte>
    var historyStart: nat
    // The retained changes in order: never empty, the last is the state now.
    var changes: seq<StateChange>
    // The viewers attached, by attachment. A push in flight holds on to the
    // viewer it is for, attached still or not, so viewers are kept apart.
    var viewers: map<Id, nat>
    var pages: map<nat, Viewer>
    var nextPage: nat
    var ended: bool
    // The screen: what it has taken, and the writes it has yet to take.
    var parsedOffset: nat
    var resumeOffset: nat
    var appliedSeq: nat
    var writes: seq<Work>
    // Screens serialized for viewers still attaching.
    var snapshots: map<Id, Snapshot>
    const boundary: Boundary

    ghost const initial: StateChange
    ghost var log: seq<Item>              // all the session did, in order
    ghost var output: seq<Byte>
    ghost var all: seq<StateChange>
    ghost var origins: map<nat, Position> // where each viewer joined
    ghost var reached: map<nat, Position> // what each viewer has accepted
    ghost var delivered: map<nat, seq<Item>>
    ghost var told: set<nat>              // viewers told of the ending

    ghost function Seen(): Screen
      reads this`parsedOffset, this`resumeOffset, this`appliedSeq, this`writes, this`snapshots
    {
      Screen(parsedOffset, resumeOffset, appliedSeq, writes, snapshots)
    }

    ghost function Now(): Facts
      reads this
    {
      Facts(history, historyStart, changes, viewers, pages, ended, Seen(),
            log, output, all, origins, reached, delivered, told)
    }

    // What holds while a handler runs.
    ghost predicate Core()
      reads this, boundary
    {
      && Now().Core(initial) && boundary.Valid() && boundary.output == output
      && forall t | t in pages :: t < nextPage
    }

    // What holds between handlers.
    ghost predicate Valid()
      reads this, boundary
    {
      Core() && Now().Settled()
    }

    constructor (cols: nat, rows: nat)
      ensures Valid() && fresh(boundary)
      ensures log == [] && viewers == map[] && pages == map[] && !ended
      ensures Now() == Beginning(initial) && initial == StateChange(None, cols, rows, 0, 0)
    {
      hide Facts.Core, Facts.Settled;
      var first := StateChange(None, cols, rows, 0, 0);
      BeginningFits(first);
      boundary := new Boundary();
      history, historyStart, changes := [], 0, [first];
      viewers, pages, nextPage, ended := map[], map[], 0, false;
      parsedOffset, resumeOffset, appliedSeq, writes, snapshots := 0, 0, 0, [], map[];
      initial, log, output, all := first, [], [], [first];
      origins, reached, delivered, told := map[], map[], map[], {};
    }

    // What a viewer has been sent is a prefix of what it is owed from where it
    // joined: no byte lost or repeated, and each change once, in its place.
    lemma SentInOrder(t: nat)
      requires Valid() && t in pages
      ensures t in delivered && t in origins && delivered[t] <= Feed(log, origins[t])
      ensures t !in told ==>
                |delivered[t]| == pages[t].sentOffset - origins[t].offset + pages[t].state.number - origins[t].number
      // One told of the ending has had all the output there was.
      ensures origins[t].offset <= |output|
      ensures t in told ==> ended && OutputOf(delivered[t]) == output[origins[t].offset..]
    {
      hide Facts.Core, Facts.Settled;
      TellsOrder(Now(), initial, t);
    }

    // Leaves every viewer attached at rest, having dropped only those lost.
    method Flush()
      requires Core()
      modifies this
      ensures Core() && Now().Settled()
      ensures Follows(old(Now()), Now(), {}) && |viewers| <= old(|viewers|) && nextPage == old(nextPage)
      ensures OnlySends(old(Now()), Now()) && DropsBehind(old(Now()), Now(), {})
      decreases |viewers|, 2
    {
      hide Facts.Core, Flushing, Follows, DropsBehind;
      ghost var start := Now();
      Basics(start, initial);
      FlushStarts(start);
      var oldest := changes[0];
      var ids := viewers.Keys;
      while ids != {}
        invariant Core() && Flushing(start, Now(), ids, oldest)
        invariant |viewers| <= old(|viewers|) && nextPage == old(nextPage)
        decreases ids
      {
        ghost var left := ids;
        var id :| id in ids;
        ids := ids - {id};
        assert left == ids + {id};
        Turn(id, oldest, start, ids);
      }
      FlushEnds(start, Now(), oldest);
      FollowsDrops(start, Now(), initial, {});
    }

    // One viewer's turn in a flush.
    method Turn(id: Id, oldest: StateChange, ghost start: Facts, ghost ids: set<Id>)
      requires Core() && start.changes != [] && oldest == start.changes[0]
      requires Flushing(start, Now(), ids + {id}, oldest)
      modifies this
      ensures Core() && Flushing(start, Now(), ids, oldest)
      ensures |viewers| <= old(|viewers|) && nextPage == old(nextPage)
      decreases |viewers|, 1
    {
      hide Facts.Core, Facts.RestBut, Follows, NextPush, Lost, Dropping, NoneLost, Sending, Sends;
      ghost var before := Now();
      Basics(before, initial);
      if id !in viewers || pages[viewers[id]].sending.Some? {
        TurnSkips(before, ids, id);
        return;
      }
      var page := pages[viewers[id]];
      if before.Settled() { RestedIsNotLost(before, initial, id, oldest); }
      if Lost(page, historyStart, oldest) {
        // Nothing retained continues what it has had.
        TurnDrops(before, ids, id);
        if NoneLost(start) { NotLostYet(start, before, id); }
        DropViewer(id);
        AfterDrop(start, before, Now(), initial, ids, id, oldest);
        return;
      }
      AfterSend(start, before, initial, ids, id, oldest);
      var push := NextPush(history, historyStart, changes, ended, page);
      SendOnlySends(start, before, id, push);
      Send(id, push);
    }

    method Send(id: Id, push: Option<Push>)
      requires id in viewers && viewers[id] in pages
      modifies this`pages
      ensures Now() == Sending(old(Now()), id, push) && pages.Keys == old(pages).Keys
    {
      pages := pages[viewers[id] := pages[viewers[id]].(sending := push)];
    }

    method DropViewer(id: Id)
      requires Core()
      modifies this
      ensures Core() && id !in viewers
      ensures Follows(old(Now()), Now(), {id}) && |viewers| <= old(|viewers|) && nextPage == old(nextPage)
      ensures Now() == Dropping(old(Now()), id) || Now().Settled()
      ensures if id in old(viewers) then Released(old(Now()), Now(), id) else all == old(all)
      decreases |viewers|, 0
    {
      hide Facts.Core, Facts.RestBut, Follows, Dropping, Released;
      ghost var before := Now();
      Basics(before, initial);
      if id !in viewers {
        NobodyDropped(before, id);
        return;
      }
      Unseat(id);
      ReleaseControl(id);
      AfterUnseat(before, Now(), id);
    }

    method Unseat(id: Id)
      requires Core() && id in viewers
      modifies this`viewers
      ensures Core() && Now() == Dropping(old(Now()), id) && |viewers| < |old(viewers)|
    {
      hide Facts.Core;
      DropKeepsCore(Now(), initial, id);
      assert (viewers - {id}).Keys == viewers.Keys - {id};
      viewers := viewers - {id};
    }

    // If `id` has control, it is recorded as nobody's.
    method ReleaseControl(id: Id)
      requires Core()
      modifies this
      ensures Core()
      ensures Follows(old(Now()), Now(), {}) && |viewers| <= old(|viewers|) && nextPage == old(nextPage)
      ensures Now() == old(Now()) || Now().Settled()
      ensures Released(old(Now()), Now(), id)
      decreases |viewers|, 5
    {
      hide Facts.Core, Facts.RestBut, Follows;
      Basics(Now(), initial);
      StartsFollowing(Now());
      var current := changes[|changes| - 1];
      if current.active == Some(id) {
        var _ := Change(None, current.cols, current.rows);
      }
    }

    method RecordChange(next: StateChange)
      modifies this`changes, this`writes, this`log, this`all
      ensures Now() == AfterChange(old(Now()), next)
    {
      changes := changes + [next];
      if |changes| > MAX_STATE_CHANGES { changes := changes[1..]; }
      writes := writes + [Apply(next)];
      log, all := log + [Changed(next)], all + [next];
    }

    // A new state, unless it is the one there is, becomes the next change;
    // `number` is that of the state there is then.
    method Change(active: Option<Id>, cols: nat, rows: nat) returns (number: nat)
      requires Core()
      modifies this
      ensures Core()
      ensures Follows(old(Now()), Now(), {}) && |viewers| <= old(|viewers|) && nextPage == old(nextPage)
      ensures old(changes) != []
      ensures var current := old(changes[|changes| - 1]);
              if active == current.active && cols == current.cols && rows == current.rows then
                Now() == old(Now()) && number == current.number
              else
                && Now().Settled() && number == current.number + 1
                && old(all) + [StateChange(active, cols, rows, old(|output|), number)] <= all
                && OnlySends(AfterChange(old(Now()), StateChange(active, cols, rows, old(|output|), number)), Now())
      decreases |viewers|, 4
    {
      hide Facts.Core, Facts.RestBut, Follows, AfterChange, OnlySends;
      ghost var before := Now();
      Basics(before, initial);
      StartsFollowing(before);
      var current := changes[|changes| - 1];
      var next := StateChange(active, cols, rows, historyStart + |history|, current.number + 1);
      if next.active == current.active && next.cols == current.cols && next.rows == current.rows {
        return current.number;
      }
      Enact(next);
      return next.number;
    }

    // Records the next change, and tells it.
    method Enact(next: StateChange)
      requires Core() && changes != [] && next.offset == historyStart + |history|
      requires next.number == changes[|changes| - 1].number + 1
      modifies this
      ensures Core() && Now().Settled()
      ensures Follows(old(Now()), Now(), {}) && |viewers| <= old(|viewers|) && nextPage == old(nextPage)
      ensures old(all) + [next] <= all && OnlySends(AfterChange(old(Now()), next), Now())
      decreases |viewers|, 3
    {
      hide Facts.Core, Facts.RestBut, Follows, AfterChange, OnlySends, DropsBehind;
      ghost var before := Now();
      Basics(before, initial);
      ChangeKeepsCore(before, initial, next);
      ChangeFollows(before, next);
      RecordChange(next);
      ghost var changed := Now();
      Flush();
      FollowsOn(before, changed, Now(), {}, {});
      KeepsChanges(changed, Now());
    }

    method RecordOutput(chunk: seq<Byte>, overflow: nat, still: seq<StateChange>, resume: nat)
      requires overflow <= |history + chunk| && resume == LastBoundary(output + chunk)
      modifies this`history, this`historyStart, this`changes, this`writes, this`log, this`output
      ensures Now() == AfterOutput(old(Now()), chunk, overflow, still) && output == old(output) + chunk
    {
      hide LastBoundary, Outputs;
      Retain((history + chunk)[overflow..], historyStart + overflow, still);
      writes := writes + [Parse(|chunk|, resume)];
      log, output := log + Outputs(chunk), output + chunk;
    }

    method Retain(kept: seq<Byte>, start: nat, still: seq<StateChange>)
      modifies this`history, this`historyStart, this`changes
      ensures Now() == old(Now()).(history := kept, historyStart := start, changes := still)
    {
      history, historyStart, changes := kept, start, still;
    }

    // Takes in output, before it is pushed.
    method Take(chunk: seq<Byte>)
      requires Valid() && !ended
      modifies this`history, this`historyStart, this`changes, this`writes, this`log, this`output, boundary
      ensures Core() && old(changes) != [] && Now() == Taken(old(Now()), chunk)
    {
      hide Facts.Core, Facts.RestBut, LastBoundary, AfterOutput, StillKept, Overflow;
      ghost var before := Now();
      Basics(before, initial);
      var start := historyStart + |history|;
      var overflow := Overflow(|history + chunk|);
      OverflowWithin(|history + chunk|);
      // Of those the retained output starts after, only the last is kept.
      var still := KeptFrom(changes, historyStart + overflow);
      var resume := boundary.Advance(chunk, start);
      TakenKeepsCore(before, initial, chunk);
      RecordOutput(chunk, overflow, still, resume);
    }

    // The exec's socket received output.
    method Data(chunk: seq<Byte>)
      requires Valid() && !ended
      modifies this, boundary
      ensures Valid() && old(log) + Outputs(chunk) <= log && output == old(output) + chunk
      ensures !ended && origins == old(origins) && delivered == old(delivered)
      // Only a viewer that more output or changes came after than are kept goes.
      ensures changes != [] && DropsBehind(old(Now()), Now(), {})
      ensures pages.Keys == old(pages).Keys && ScreenWaits(old(Now()).screen, Now().screen)
      ensures StartsFrom(changes, old(all), historyStart)
      ensures old(changes) != [] && OnlySends(Taken(old(Now()), chunk), Now())
    {
      hide Facts.Core, Facts.RestBut, Follows, Taken, OnlySends, StartsFrom, ScreenWaits, Outputs, Window, Ordered,
        FarBehind;
      ghost var before := Now();
      Basics(before, initial);
      Take(chunk);
      ghost var taken := Now();
      TakenLeaves(before, chunk);
      Windowed(before, initial);
      TakenStarts(before, chunk);
      Flush();
      FollowsSays(taken, Now(), {});
      DropsAfter(before, taken, Now(), {});
      ScreenWaitsOn(before.screen, taken.screen, Now().screen);
      StartsLater(taken.changes, changes, before.all, historyStart);
    }

    method Move(t: nat, page: Viewer, ghost reach: Position, ghost has: seq<Item>, ghost over: bool)
      modifies this`pages, this`reached, this`delivered, this`told
      ensures Now() == Moving(old(Now()), t, page, reach, has, over)
    {
      pages := pages[t := page];
      reached, delivered := reached[t := reach], delivered[t := has];
      told := if over then told + {t} else told;
    }

    // A viewer answered its push, or didn't in time.
    method Answer(t: nat, accepted: bool)
      requires Valid() && t in pages && pages[t].sending.Some?
      modifies this
      ensures Valid() && old(log) <= log && output == old(output) && ended == old(ended)
      ensures origins == old(origins) && pages.Keys == old(pages).Keys
      ensures t in old(delivered)
      ensures var page := old(pages[t]);
              var shown := if accepted then Shown(page, page.sending.value) else [];
              delivered == old(delivered)[t := old(delivered)[t] + shown]
      ensures accepted && old(pages[t]).sending.value.last ==> t in told
      // Each push but the last brings something.
      ensures !old(pages[t]).sending.value.last ==> Shown(old(pages[t]), old(pages[t]).sending.value) != []
      ensures !accepted || old(pages[t]).sending.value.last ==> old(pages[t]).id !in viewers
      ensures !accepted || old(pages[t]).sending.value.last ==>
                if old(pages[t]).id in old(viewers) then Released(old(Now()), Now(), old(pages[t]).id)
                else all == old(all)
      ensures DropsBehind(old(Now()), Now(),
                          if !accepted || old(pages[t]).sending.value.last then {old(pages[t]).id} else {})
    {
      hide Facts.Core, Facts.RestBut, Facts.Settled, Follows, PageFits, Shown, Released, DropsBehind;
      ghost var before := Now();
      PageOf(before, initial, t);
      PushBrings(before, initial, t);
      if !accepted || pages[t].sending.value.last {
        Dismiss(t, accepted);
      } else {
        Accept(t);
      }
    }

    // A viewer that accepted its push has what it showed, and is sent more.
    method Accept(t: nat)
      requires Valid() && t in pages && pages[t].sending.Some? && !pages[t].sending.value.last
      modifies this
      ensures Valid() && old(log) <= log && output == old(output) && ended == old(ended)
      ensures origins == old(origins) && pages.Keys == old(pages).Keys
      ensures t in old(delivered)
      ensures var page := old(pages[t]);
              delivered == old(delivered)[t := old(delivered)[t] + Shown(page, page.sending.value)]
      ensures DropsBehind(old(Now()), Now(), {})
    {
      hide Facts.Core, Facts.RestBut, Follows, PageFits, Shown, Ordered, DropsBehind, FarBehind;
      ghost var before := Now();
      PageOf(before, initial, t);
      var page := pages[t];
      var push := page.sending.value;
      ghost var had := delivered[t] + Shown(page, push);
      AcceptFits(all, output, ended, page, origins[t], reached[t], delivered[t], false);
      ghost var next := page.(sentOffset := push.offset, state := push.state, sending := None);
      MoveKeepsCore(before, initial, t, next, next.At(), had, false);
      AnswerGoesOn(before, initial, t);
      Move(t, page.(sentOffset := push.offset, state := push.state, sending := None), next.At(), had, false);
      ghost var moved := Now();
      Flush();
      FollowsSays(moved, Now(), {});
      DropsAfter(before, moved, Now(), {});
    }

    // A viewer that refused its push, or has been told of the ending by it,
    // goes, whichever viewer holds its attachment now.
    method Dismiss(t: nat, accepted: bool)
      requires Valid() && t in pages && pages[t].sending.Some?
      requires accepted ==> pages[t].sending.value.last
      modifies this
      ensures Valid() && old(log) <= log && output == old(output) && ended == old(ended)
      ensures origins == old(origins) && pages.Keys == old(pages).Keys
      ensures t in old(delivered)
      ensures var page := old(pages[t]);
              var shown := if accepted then Shown(page, page.sending.value) else [];
              delivered == old(delivered)[t := old(delivered)[t] + shown]
      ensures accepted ==> t in told
      ensures if old(pages[t]).id in old(viewers) then Released(old(Now()), Now(), old(pages[t]).id)
              else all == old(all)
      ensures old(pages[t]).id !in viewers && DropsBehind(old(Now()), Now(), {old(pages[t]).id})
    {
      hide Facts.Core, Facts.Settled, PageFits, Shown, DropsBehind, Released, Moving, Dropping;
      ghost var before := Now();
      Basics(before, initial);
      var id, attached := pages[t].id, pages[t].id in viewers;
      ghost var reach, has := Part(t, accepted);
      ghost var moved := Now();
      PartedSays(before, moved, t, before.pages[t].(sending := None), reach, has, accepted);
      Leave(id, attached);
      DismissedDrops(before, moved, Now(), id);
      if attached { ReleasedSame(before, moved, Now(), id); }
    }

    // A viewer has gone, and with it its control, if it was `attached`.
    method Leave(id: Id, attached: bool)
      requires Core() && Now().Settled() && changes != []
      modifies this
      ensures Valid() && old(log) <= log && output == old(output) && ended == old(ended) && told == old(told)
      ensures origins == old(origins) && delivered == old(delivered) && pages.Keys == old(pages).Keys
      ensures viewers.Keys <= old(viewers).Keys && DropsBehind(old(Now()), Now(), {})
      ensures if attached then Released(old(Now()), Now(), id) else all == old(all)
    {
      hide Facts.Core, Facts.RestBut, Follows, DropsBehind, Released;
      ghost var before := Now();
      StartsFollowing(before);
      if attached { ReleaseControl(id); }
      FollowsSays(before, Now(), {});
      FollowsDrops(before, Now(), initial, {});
    }

    // Its push is over, and it is attached no more.
    method Part(t: nat, accepted: bool) returns (ghost reach: Position, ghost has: seq<Item>)
      requires Valid() && t in pages && pages[t].sending.Some?
      requires accepted ==> pages[t].sending.value.last
      modifies this`viewers, this`pages, this`reached, this`delivered, this`told
      ensures Core() && Now().Settled() && t in old(delivered) && changes != []
      ensures var page := old(pages[t]);
              && has == old(delivered)[t] + (if accepted then Shown(page, page.sending.value) else [])
              && Now() ==
                 Moving(Dropping(old(Now()), page.id), t, page.(sending := None), reach, has, accepted)
    {
      hide Facts.Core, Facts.RestBut, PageFits, Shown, Ordered;
      ghost var before := Now();
      Basics(before, initial);
      PageOf(before, initial, t);
      var page := pages[t];
      var push := page.sending.value;
      ghost var dropped, gone := Dropping(before, page.id), page.(sending := None);
      reach := if accepted then Position(push.offset, push.state.number) else reached[t];
      has := delivered[t] + if accepted then Shown(page, push) else [];
      EmptyTail(delivered[t]);
      if accepted {
        LastFits(all, output, ended, page, origins[t], reached[t], delivered[t], false);
      } else {
        UnsentFits(all, output, ended, page, origins[t], reached[t], delivered[t]);
      }
      DismissKeeps(before, initial, t, gone, reach, has, accepted);
      viewers := viewers - {page.id};
      assert Now() == dropped;
      Move(t, page.(sending := None), reach, has, accepted);
    }

    predicate AlreadyIs(active: Option<Id>, cols: nat, rows: nat)
      reads this`changes
    {
      changes != [] &&
      var current := changes[|changes| - 1];
      current.active == active && current.cols == cols && current.rows == rows
    }

    // A page asks for control, giving its window's size.
    method Claim(id: Id, cols: nat, rows: nat) returns (number: Option<nat>)
      requires Valid()
      modifies this
      ensures Valid() && old(log) <= log && output == old(output) && ended == old(ended)
      ensures origins == old(origins) && delivered == old(delivered) && pages.Keys == old(pages).Keys
      ensures ScreenWaits(old(Now()).screen, Now().screen)
      ensures number.Some? <==> id in old(viewers)
      ensures DropsBehind(old(Now()), Now(), {})
      ensures number.None? ==> Now() == old(Now())
      ensures number.Some? && !old(AlreadyIs(Some(id), cols, rows)) ==>
                old(changes) != [] && number.value == old(changes[|changes| - 1].number) + 1
      ensures number.Some? ==>
                && number.value < |all| && all[number.value].active == Some(id)
                && all[number.value].cols == cols && all[number.value].rows == rows
      ensures number.Some? && !old(AlreadyIs(Some(id), cols, rows)) ==>
                OnlySends(AfterChange(old(Now()), StateChange(Some(id), cols, rows, old(|output|), number.value)),
                          Now())
    {
      hide Facts.Core, Facts.RestBut, Follows, OnlySends, AfterChange, FarBehind;
      if id !in viewers { return None; }
      ghost var before := Now();
      Basics(before, initial);
      var seqNumber := Change(Some(id), cols, rows);
      FollowsSays(before, Now(), {});
      FollowsDrops(before, Now(), initial, {});
      number := Some(seqNumber);
    }

    method Detach(id: Id)
      requires Valid()
      modifies this
      ensures Valid() && id !in viewers && old(log) <= log && output == old(output) && ended == old(ended)
      ensures origins == old(origins) && delivered == old(delivered) && pages.Keys == old(pages).Keys
      ensures DropsBehind(old(Now()), Now(), {id})
      ensures if id in old(viewers) then Released(old(Now()), Now(), id) else all == old(all)
    {
      hide Facts.Core, Facts.RestBut, Follows, Released, DropsBehind;
      ghost var before := Now();
      RestsDropped(before, id);
      DropViewer(id);
      FollowsSays(before, Now(), {id});
      FollowsDrops(before, Now(), initial, {id});
    }

    // A viewer attaching asks for the screen, serialized once the writes
    // before it are done.
    method AskScreen(id: Id)
      requires Valid()
      modifies this`writes
      ensures Valid() && Now() == old(Now()).(screen := Asking(old(Now()).screen, id))
    {
      hide Facts.Core, Facts.Settled;
      AskKeepsCore(Now(), initial, id);
      writes := writes + [Serialize(id)];
    }

    // The screen gets to its next write.
    method TakeWrite()
      requires Valid() && writes != []
      modifies this`parsedOffset, this`resumeOffset, this`appliedSeq, this`writes, this`snapshots
      ensures Valid()
      ensures Now() == old(Now()).(screen := AfterWrite(old(Now()).screen, historyStart))
    {
      hide Facts.Core, Facts.Settled, AfterWrite;
      WriteKeepsCore(Now(), initial);
      var next := Redrawn();
      Draw(next);
    }

    // The screen as its next write leaves it.
    method Redrawn() returns (next: Screen)
      requires writes != []
      ensures next == AfterWrite(Now().screen, historyStart)
    {
      var rest := writes[1..];
      match writes[0] {
        case Parse(length, resume) =>
          next := Screen(parsedOffset + length, resume, appliedSeq, rest, snapshots);
        case Apply(change) =>
          next := Screen(parsedOffset, resumeOffset, change.number, rest, snapshots);
        case Serialize(id) =>
          var offset := if resumeOffset >= historyStart then resumeOffset else parsedOffset;
          next := Screen(parsedOffset, resumeOffset, appliedSeq, rest,
                         snapshots[id := Snapshot(parsedOffset, offset, appliedSeq)]);
      }
    }

    method Draw(next: Screen)
      modifies this`parsedOffset, this`resumeOffset, this`appliedSeq, this`writes, this`snapshots
      ensures Seen() == next
    {
      parsedOffset, resumeOffset, appliedSeq := next.parsed, next.resume, next.applied;
      writes, snapshots := next.writes, next.snapshots;
    }

    method Admit(t: nat, page: Viewer)
      modifies this
      ensures Now() == Admitting(old(Now()), t, page) && nextPage == old(nextPage) + 1
    {
      Seat(t, page);
      origins, reached, delivered := origins[t := page.At()], reached[t := page.At()], delivered[t := []];
    }

    method Seat(t: nat, page: Viewer)
      modifies this`viewers, this`pages, this`nextPage
      ensures Now() == old(Now()).(viewers := old(viewers)[page.id := t], pages := old(pages)[t := page])
      ensures nextPage == old(nextPage) + 1
    {
      nextPage := nextPage + 1;
      viewers, pages := viewers[page.id := t], pages[t := page];
    }

    // A viewer attaches with the screen it was given.
    method Join(id: Id) returns (t: nat)
      requires Valid() && id in snapshots
      modifies this
      ensures Valid() && old(log) <= log && output == old(output) && ended == old(ended)
      ensures t !in old(pages) && t in origins && old(changes) != []
      ensures origins == old(origins)[t := origins[t]] && delivered == old(delivered)[t := []] && old(all) <= all
      ensures var snapshot := old(snapshots[id]);
              origins[t] == Position(snapshot.offset, if snapshot.number >= old(changes[0].number) then snapshot.number
                                                      else old(changes[0].number))
      ensures DropsBehind(old(Now()), Now(), {id})
      ensures ScreenWaits(old(Now()).screen, Now().screen)
      ensures OnlySends(Admitting(old(Now()), t, Joining(id, old(snapshots[id]), old(changes))), Now())
    {
      hide Facts.Core, Facts.RestBut, Follows, PageFits, FindChange, NoneLost, FarBehind;
      ghost var before := Now();
      Basics(before, initial);
      JoinFits(before, initial, id);
      var page := Joining(id, snapshots[id], changes);
      t := nextPage;
      AdmitKeepsCore(before, initial, t, page);
      Admit(t, page);
      ghost var joined := Now();
      Flush();
      FollowsSays(joined, Now(), {});
      DropsAfter(before, joined, Now(), {id});
    }

    // The session has ended: viewers get the remaining output, then the ending.
    method Finish()
      requires Valid() && !ended
      modifies this
      ensures Valid() && ended && old(log) <= log && output == old(output)
      ensures origins == old(origins) && delivered == old(delivered) && pages.Keys == old(pages).Keys
      // Everyone attached is being sent more, or the ending.
      ensures forall id | id in viewers :: viewers[id] in pages && pages[viewers[id]].sending.Some?
      ensures changes != [] && DropsBehind(old(Now()), Now(), {})
    {
      hide Facts.Core, Facts.RestBut, Follows, FarBehind;
      ghost var before := Now();
      EndKeepsCore(before, initial);
      ended := true;
      ghost var over := Now();
      Flush();
      FollowsSays(over, Now(), {});
      DropsAfter(before, over, Now(), {});
      EndedRests(Now());
    }

    // One event of the session or its screen, if it can happen.
    method HandleOwn(event: Event)
      requires Valid()
      modifies this, boundary
      ensures Valid() && Keeps(old(Now()), Now())
      ensures event.Received? || event.Drawn? || event.Ended? || event.Asked? ==> Happens(event, old(Now()), Now())
    {
      hide Facts.Core, Facts.Settled, Follows, ScreenWaits, StartsFrom, Released, Shown, OnlySends, Taken, AfterChange,
        AfterWrite, Asking, Admitting, Joining, Lost, DropsBehind;
      AllTracked(Now(), initial);
      match event {
        case Received(chunk) => if !ended { Data(chunk); }
        case Drawn => if writes != [] { TakeWrite(); }
        case Ended => if !ended { Finish(); }
        case Asked(id) => AskScreen(id);
        case _ =>
      }
    }

    // One event of a viewer's control.
    method HandleControl(event: Event)
      requires Valid() && (event.Claimed? || event.Left?)
      modifies this
      ensures Valid() && Keeps(old(Now()), Now()) && Happens(event, old(Now()), Now())
    {
      hide Facts.Core, Facts.Settled, Follows, ScreenWaits, Released, OnlySends, AfterChange, DropsBehind;
      AllTracked(Now(), initial);
      match event {
        case Claimed(id, cols, rows) => var _ := Claim(id, cols, rows);
        case Left(id) => Detach(id);
      }
    }

    // One event of any kind, if it can happen.
    method Handle(event: Event)
      requires Valid()
      modifies this, boundary
      ensures Valid() && Keeps(old(Now()), Now()) && Happens(event, old(Now()), Now())
    {
      hide Facts.Core, Facts.Settled, Follows, ScreenWaits, StartsFrom, Released, Shown, OnlySends, Taken, AfterChange,
        AfterWrite, Asking, Admitting, Joining, Lost, DropsBehind;
      AllTracked(Now(), initial);
      match event {
        case Answered(t, accepted) => if t in pages && pages[t].sending.Some? { Answer(t, accepted); }
        case Claimed(_, _, _) => HandleControl(event);
        case Left(_) => HandleControl(event);
        case Joined(id) =>
          if id in snapshots {
            var t := Join(id);
            AllTracked(Now(), initial);
          }
        case _ => HandleOwn(event);
      }
    }

    // Whatever happens, in whatever order, every viewer there ever was stays
    // one, from where it joined, with what it has had, and that is a prefix of
    // what its session owes it from there.
    method Run(events: seq<Event>)
      requires Valid()
      modifies this, boundary
      ensures Valid() && Keeps(old(Now()), Now()) && old(pages).Keys <= pages.Keys
      ensures forall t | t in pages ::
                t in delivered && t in origins && delivered[t] <= Feed(log, origins[t])
    {
      hide Facts.Core, Facts.Settled, Feed, Keeps;
      ghost var start := Now();
      AllTracked(start, initial);
      KeepsItself(start, initial);
      for i := 0 to |events|
        invariant Valid() && Keeps(start, Now())
      {
        ghost var before := Now();
        Handle(events[i]);
        KeepsOn(start, before, Now());
      }
      AllTracked(Now(), initial);
      KeepsViewers(start, Now());
      forall t | t in pages ensures t in delivered && t in origins && delivered[t] <= Feed(log, origins[t]) {
        SentInOrder(t);
      }
    }
  }

  // What an event does, if it can happen.
  ghost predicate Happens(event: Event, before: Facts, after: Facts) {
    match event
    case Received(chunk) => before.ended || after.output == before.output + chunk
    case Answered(t, accepted) =>
      t in before.pages && t in before.delivered && before.pages[t].sending.Some? ==>
        t in after.delivered && after.delivered[t] == before.delivered[t] +
          if accepted then Shown(before.pages[t], before.pages[t].sending.value) else []
    case Claimed(id, cols, rows) =>
      id in before.viewers ==>
        exists change | change in after.all :: change.active == Some(id) && change.cols == cols && change.rows == rows
    case Left(id) => id !in after.viewers
    case Asked(id) => after.screen == Asking(before.screen, id)
    case Drawn => before.screen.writes != [] ==> after.screen == AfterWrite(before.screen, before.historyStart)
    case Joined(id) => id in before.screen.snapshots ==> exists t :: t in after.pages && t !in before.pages
    case Ended => after.ended
  }

  lemma KeepsItself(f: Facts, initial: StateChange)
    requires f.Core(initial)
    ensures Keeps(f, f)
  {
  }

  lemma KeepsViewers(f: Facts, g: Facts)
    requires Keeps(f, g)
    ensures f.origins.Keys <= g.origins.Keys
  {
  }

  datatype Event =
    | Received(chunk: seq<Byte>)
    | Answered(t: nat, accepted: bool)
    | Claimed(id: Id, cols: nat, rows: nat)
    | Left(id: Id)
    | Asked(id: Id)
    | Drawn
    | Joined(id: Id)
    | Ended
}
