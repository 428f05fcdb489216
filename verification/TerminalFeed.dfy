/** What a terminal session did, in order, and what one of its viewers is owed
    of it: the reference the fan-out in `TerminalSession` is held to. */
module TerminalFeed {
  import opened Options
  import opened SequenceBoundary
  import opened Sequences

  type Id = string

  // What every page shows beside the output: the session's size and the page
  // in control. `offset` is where in the output it takes effect.
  datatype StateChange =
    StateChange(active: Option<Id>, cols: nat, rows: nat, offset: nat, number: nat)

  datatype Item = Output(b: Byte) | Changed(change: StateChange)

  // Output before `offset` and changes up to `number` are behind it.
  datatype Position = Position(offset: nat, number: nat)

  function OutputOf(log: seq<Item>): (output: seq<Byte>)
    ensures |output| <= |log|
  {
    if log == [] then []
    else
      var before, last := OutputOf(log[..|log| - 1]), log[|log| - 1];
      if last.Output? then before + [last.b] else before
  }

  // Every change of a session, the state it began in first.
  function ChangesOf(initial: StateChange, log: seq<Item>): (changes: seq<StateChange>)
    ensures changes != []
  {
    if log == [] then [initial]
    else
      var before, last := ChangesOf(initial, log[..|log| - 1]), log[|log| - 1];
      if last.Changed? then before + [last.change] else before
  }

  // Changes are numbered in order from the initial state, and each carries the
  // end of the output as it was made.
  ghost predicate Chronicle(initial: StateChange, log: seq<Item>) {
    && (log == [] ==> initial.number == 0 && initial.offset == 0)
    && (log != [] ==>
          var before, last := log[..|log| - 1], log[|log| - 1];
          && Chronicle(initial, before)
          && (last.Changed? ==>
                && last.change.number == |ChangesOf(initial, before)|
                && last.change.offset == |OutputOf(before)|))
  }

  // What a viewer that joined at `from` is owed of a session: all that
  // happened, less what its snapshot already shows.
  function Feed(log: seq<Item>, from: Position): seq<Item> {
    if log == [] then []
    else
      var before, last := log[..|log| - 1], log[|log| - 1];
      var owed := match last
        case Output(_) => |OutputOf(before)| >= from.offset
        case Changed(change) => change.number > from.number;
      Feed(before, from) + if owed then [last] else []
  }

  ghost predicate Ordered(changes: seq<StateChange>, output: seq<Byte>) {
    && changes != []
    && (forall i | 0 <= i < |changes| :: changes[i].number == i && changes[i].offset <= |output|)
    && (forall i, j | 0 <= i < j < |changes| :: changes[i].offset <= changes[j].offset)
  }

  lemma {:induction false} ChronicleOrders(initial: StateChange, log: seq<Item>)
    requires Chronicle(initial, log)
    ensures Ordered(ChangesOf(initial, log), OutputOf(log))
  {
    if log != [] {
      ChronicleOrders(initial, log[..|log| - 1]);
    }
  }

  // A viewer can stand here: every change it has had since `from` applied by
  // its offset, and every one it hasn't had yet applies no earlier.
  ghost predicate Stands(changes: seq<StateChange>, output: seq<Byte>, from: Position, at: Position) {
    && from.offset <= at.offset <= |output|
    && from.number <= at.number < |changes|
    && (forall i | from.number < i < |changes| :: changes[i].offset >= from.offset)
    && (forall i | from.number < i <= at.number :: changes[i].offset <= at.offset)
    && (forall i | at.number < i < |changes| :: changes[i].offset >= at.offset)
  }

  // What lies between `from` and `to`, told from the output and the changes.
  function Between(changes: seq<StateChange>, output: seq<Byte>, from: Position, end: Position): seq<Item>
    requires from.offset <= end.offset <= |output| && from.number <= end.number < |changes|
    decreases end.offset + end.number
  {
    if end.number > from.number && (changes[end.number].offset >= end.offset || end.offset == from.offset) then
      Between(changes, output, from, end.(number := end.number - 1)) + [Changed(changes[end.number])]
    else if end.offset > from.offset then
      Between(changes, output, from, end.(offset := end.offset - 1)) + [Output(output[end.offset - 1])]
    else
      []
  }

  lemma {:induction false} BetweenLength(changes: seq<StateChange>, output: seq<Byte>, from: Position, end: Position)
    requires from.offset <= end.offset <= |output| && from.number <= end.number < |changes|
    ensures |Between(changes, output, from, end)| == end.offset - from.offset + end.number - from.number
    decreases end.offset + end.number
  {
    if end.number > from.number && (changes[end.number].offset >= end.offset || end.offset == from.offset) {
      BetweenLength(changes, output, from, end.(number := end.number - 1));
    } else if end.offset > from.offset {
      BetweenLength(changes, output, from, end.(offset := end.offset - 1));
    }
  }

  // More output and more changes add nothing to what came before them.
  lemma {:induction false} BetweenStays(
    changes: seq<StateChange>, output: seq<Byte>, from: Position, end: Position,
    moreChanges: seq<StateChange>, moreOutput: seq<Byte>)
    requires from.offset <= end.offset <= |output| && from.number <= end.number < |changes|
    ensures Between(changes + moreChanges, output + moreOutput, from, end) == Between(changes, output, from, end)
    decreases end.offset + end.number
  {
    if end.number > from.number && (changes[end.number].offset >= end.offset || end.offset == from.offset) {
      BetweenStays(changes, output, from, end.(number := end.number - 1), moreChanges, moreOutput);
    } else if end.offset > from.offset {
      BetweenStays(changes, output, from, end.(offset := end.offset - 1), moreChanges, moreOutput);
    }
  }

  // One change applied where a viewer stands.
  lemma BetweenChange(changes: seq<StateChange>, output: seq<Byte>, from: Position, at: Position)
    requires Stands(changes, output, from, at) && at.number + 1 < |changes|
    requires changes[at.number + 1].offset == at.offset
    ensures Between(changes, output, from, at.(number := at.number + 1)) ==
            Between(changes, output, from, at) + [Changed(changes[at.number + 1])]
  {
  }

  function Outputs(bytes: seq<Byte>): seq<Item> {
    seq(|bytes|, i requires 0 <= i < |bytes| => Output(bytes[i]))
  }

  // Output up to the next change a viewer standing here is owed.
  lemma {:induction false} BetweenOutput(
    changes: seq<StateChange>, output: seq<Byte>, from: Position, at: Position, until: nat)
    requires Stands(changes, output, from, at) && at.offset <= until <= |output|
    ensures Between(changes, output, from, at.(offset := until)) ==
            Between(changes, output, from, at) + Outputs(output[at.offset..until])
    decreases until
  {
    if until > at.offset {
      BetweenOutput(changes, output, from, at, until - 1);
      assert output[at.offset..until] == output[at.offset..until - 1] + [output[until - 1]];
    }
  }

  // Wherever a viewer stands, what it has had is the start of what it is owed.
  lemma {:induction false} StandingIsPrefix(
    changes: seq<StateChange>, output: seq<Byte>, from: Position, at: Position, end: Position)
    requires Ordered(changes, output)
    requires Stands(changes, output, from, at)
    requires at.offset <= end.offset <= |output| && at.number <= end.number < |changes|
    ensures Between(changes, output, from, at) <= Between(changes, output, from, end)
    decreases end.offset + end.number
  {
    if end != at {
      if end.number > from.number && (changes[end.number].offset >= end.offset || end.offset == from.offset) {
        assert at.number < end.number;
        StandingIsPrefix(changes, output, from, at, end.(number := end.number - 1));
      } else {
        assert at.offset < end.offset;
        StandingIsPrefix(changes, output, from, at, end.(offset := end.offset - 1));
      }
    }
  }

  lemma {:induction false} NothingOwedBefore(initial: StateChange, log: seq<Item>, from: Position)
    requires Chronicle(initial, log)
    requires |OutputOf(log)| < from.offset
    requires forall i | from.number < i < |ChangesOf(initial, log)| :: ChangesOf(initial, log)[i].offset >= from.offset
    ensures Feed(log, from) == []
  {
    if log != [] {
      var before, last := log[..|log| - 1], log[|log| - 1];
      ChronicleOrders(initial, log);
      assert forall i | 0 <= i < |ChangesOf(initial, before)| ::
        ChangesOf(initial, log)[i] == ChangesOf(initial, before)[i];
      NothingOwedBefore(initial, before, from);
      if last.Changed? {
        assert ChangesOf(initial, log)[last.change.number] == last.change;
      }
    }
  }

  lemma {:induction false} MoreOutput(changes: seq<StateChange>, output: seq<Byte>, b: Byte, from: Position)
    requires from.offset <= |output| && from.number < |changes|
    requires changes[|changes| - 1].offset <= |output|
    ensures Between(changes, output + [b], from, Position(|output| + 1, |changes| - 1)) ==
            Between(changes, output, from, Position(|output|, |changes| - 1)) + [Output(b)]
  {
    hide *;
    EndsInOutput(changes, output + [b], from);
    BetweenStays(changes, output, from, Position(|output|, |changes| - 1), [], [b]);
    EmptyTail(changes);
  }

  lemma {:induction false} EndsInOutput(changes: seq<StateChange>, output: seq<Byte>, from: Position)
    requires from.offset < |output| && from.number < |changes|
    requires changes[|changes| - 1].offset < |output|
    ensures Between(changes, output, from, Position(|output|, |changes| - 1)) ==
            Between(changes, output, from, Position(|output| - 1, |changes| - 1)) + [Output(output[|output| - 1])]
  {
  }

  lemma {:induction false} MoreChange(changes: seq<StateChange>, output: seq<Byte>, change: StateChange, from: Position)
    requires from.offset <= |output| && from.number < |changes| && change.offset == |output|
    ensures Between(changes + [change], output, from, Position(|output|, |changes|)) ==
            Between(changes, output, from, Position(|output|, |changes| - 1)) + [Changed(change)]
  {
    hide *;
    EndsInChange(changes + [change], output, from);
    BetweenStays(changes, output, from, Position(|output|, |changes| - 1), [change], []);
    EmptyTail(output);
  }

  lemma {:induction false} EndsInChange(changes: seq<StateChange>, output: seq<Byte>, from: Position)
    requires from.offset <= |output| && from.number < |changes| - 1
    requires changes[|changes| - 1].offset == |output|
    ensures Between(changes, output, from, Position(|output|, |changes| - 1)) ==
            Between(changes, output, from, Position(|output|, |changes| - 2)) + [Changed(changes[|changes| - 1])]
  {
  }

  // The two tellings agree: going through the session's log in order, leaving
  // out what the snapshot showed, is going from `from` to the session's end.
  lemma {:induction false} FeedIsBetween(initial: StateChange, log: seq<Item>, from: Position)
    requires Chronicle(initial, log)
    requires from.offset <= |OutputOf(log)| && from.number < |ChangesOf(initial, log)|
    requires forall i | from.number < i < |ChangesOf(initial, log)| :: ChangesOf(initial, log)[i].offset >= from.offset
    ensures Feed(log, from) ==
            Between(ChangesOf(initial, log), OutputOf(log), from,
                    Position(|OutputOf(log)|, |ChangesOf(initial, log)| - 1))
  {
    hide Between;
    if log == [] {
      NothingBetween([initial], [], from);
    } else {
      var before, last := log[..|log| - 1], log[|log| - 1];
      var changes, output := ChangesOf(initial, before), OutputOf(before);
      ChronicleOrders(initial, before);
      if last.Output? {
        if from.offset > |output| {
          NothingOwedBefore(initial, before, from);
          assert changes[|changes| - 1].offset <= |output|;
          assert from.number == |changes| - 1;
          NothingBetween(changes, output + [last.b], from);
        } else {
          FeedIsBetween(initial, before, from);
          MoreOutput(changes, output, last.b, from);
        }
      } else if from.number == |changes| {
        NoChangeOwed(initial, before, from);
        NoChangeBetween(changes + [last.change], output, from);
      } else {
        assert forall i | 0 <= i < |changes| :: ChangesOf(initial, log)[i] == changes[i];
        FeedIsBetween(initial, before, from);
        MoreChange(changes, output, last.change, from);
      }
    }
  }

  lemma {:induction false} NothingBetween(changes: seq<StateChange>, output: seq<Byte>, from: Position)
    requires from.offset == |output| && changes != [] && from.number == |changes| - 1
    ensures Between(changes, output, from, Position(|output|, |changes| - 1)) == []
  {
  }

  lemma {:induction false} NoChangeBetween(changes: seq<StateChange>, output: seq<Byte>, from: Position)
    requires changes != [] && from.number == |changes| - 1 && from.offset <= |output|
    ensures Between(changes, output, from, Position(|output|, from.number)) == Outputs(output[from.offset..])
  {
    assert Between(changes, output, from, from) == [];
    assert Stands(changes, output, from, from);
    hide *;
    BetweenOutput(changes, output, from, from, |output|);
    WholeSuffix(output, from.offset);
  }

  lemma {:induction false} NoChangeOwed(initial: StateChange, log: seq<Item>, from: Position)
    requires Chronicle(initial, log) && from.number >= |ChangesOf(initial, log)| - 1
    requires from.offset <= |OutputOf(log)|
    ensures Feed(log, from) == Outputs(OutputOf(log)[from.offset..])
  {
    if log != [] {
      var before, last := log[..|log| - 1], log[|log| - 1];
      ChronicleOrders(initial, log);
      if last.Output? && from.offset == |OutputOf(log)| {
        OnlyLaterOwed(initial, before, from);
      } else {
        NoChangeOwed(initial, before, from);
        if last.Output? {
          assert OutputOf(log)[from.offset..] == OutputOf(before)[from.offset..] + [last.b];
        }
      }
    }
  }

  lemma {:induction false} OnlyLaterOwed(initial: StateChange, log: seq<Item>, from: Position)
    requires Chronicle(initial, log) && from.number >= |ChangesOf(initial, log)| - 1
    requires |OutputOf(log)| < from.offset
    ensures Feed(log, from) == []
  {
    NothingOwedBefore(initial, log, from);
  }

  lemma Since(changes: seq<StateChange>, output: seq<Byte>, from: Position, at: Position)
    requires Stands(changes, output, from, at)
    ensures forall i | from.number < i < |changes| :: changes[i].offset >= from.offset
  {
  }

  lemma HadIsPrefix(changes: seq<StateChange>, output: seq<Byte>, from: Position, at: Position)
    requires Ordered(changes, output)
    requires Stands(changes, output, from, at)
    ensures var had := Between(changes, output, from, at);
            && had <= Between(changes, output, from, Position(|output|, |changes| - 1))
            && |had| == at.offset - from.offset + at.number - from.number
  {
    StandingIsPrefix(changes, output, from, at, Position(|output|, |changes| - 1));
    BetweenLength(changes, output, from, at);
  }

  // What a viewer standing at `at` has had is a prefix of what its session's
  // log owes it, this long.
  lemma {:induction false} SentIsPrefix(initial: StateChange, log: seq<Item>, from: Position, at: Position)
    requires Chronicle(initial, log)
    requires from.offset <= at.offset <= |OutputOf(log)|
    requires from.number <= at.number < |ChangesOf(initial, log)|
    requires Stands(ChangesOf(initial, log), OutputOf(log), from, at)
    ensures var had := Between(ChangesOf(initial, log), OutputOf(log), from, at);
            && had <= Feed(log, from)
            && |had| == at.offset - from.offset + at.number - from.number
  {
    hide *;
    Since(ChangesOf(initial, log), OutputOf(log), from, at);
    ChronicleOrders(initial, log);
    FeedIsBetween(initial, log, from);
    HadIsPrefix(ChangesOf(initial, log), OutputOf(log), from, at);
  }

  lemma {:induction false} OneMore(log: seq<Item>, item: Item)
    ensures OutputOf(log + [item]) == OutputOf(log) + if item.Output? then [item.b] else []
  {
    var whole := log + [item];
    assert whole[..|whole| - 1] == log;
    EmptyTail(OutputOf(log));
  }

  // The output told between two points is what lies between them.
  lemma {:induction false} BetweenTells(changes: seq<StateChange>, output: seq<Byte>, from: Position, end: Position)
    requires from.offset <= end.offset <= |output| && from.number <= end.number < |changes|
    ensures OutputOf(Between(changes, output, from, end)) == output[from.offset..end.offset]
    decreases end.offset + end.number
  {
    hide OutputOf;
    if end.number > from.number && (changes[end.number].offset >= end.offset || end.offset == from.offset) {
      var earlier := end.(number := end.number - 1);
      BetweenTells(changes, output, from, earlier);
      OneMore(Between(changes, output, from, earlier), Changed(changes[end.number]));
      EmptyTail(output[from.offset..end.offset]);
    } else if end.offset > from.offset {
      var earlier := end.(offset := end.offset - 1);
      BetweenTells(changes, output, from, earlier);
      OneMore(Between(changes, output, from, earlier), Output(output[end.offset - 1]));
      assert output[from.offset..end.offset] == output[from.offset..earlier.offset] + [output[end.offset - 1]];
    } else {
      NothingTold();
    }
  }

  lemma NothingTold()
    ensures OutputOf([]) == []
  {
  }

  lemma {:induction false} FeedLength(initial: StateChange, log: seq<Item>, from: Position)
    requires Chronicle(initial, log)
    requires from.offset <= |OutputOf(log)| && from.number < |ChangesOf(initial, log)|
    requires forall i | from.number < i < |ChangesOf(initial, log)| :: ChangesOf(initial, log)[i].offset >= from.offset
    ensures |Feed(log, from)| ==
            |OutputOf(log)| - from.offset + |ChangesOf(initial, log)| - 1 - from.number
  {
    hide *;
    FeedIsBetween(initial, log, from);
    BetweenLength(ChangesOf(initial, log), OutputOf(log), from,
                  Position(|OutputOf(log)|, |ChangesOf(initial, log)| - 1));
  }

  lemma {:induction false} StartsInitial(initial: StateChange, log: seq<Item>)
    ensures ChangesOf(initial, log)[0] == initial
  {
    if log != [] { StartsInitial(initial, log[..|log| - 1]); }
  }
}
