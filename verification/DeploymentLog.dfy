/** One deployment's log and those following it (`apps.ts`): lines keep their
    numbers as older ones are trimmed, and nobody sleeps through one. */
module DeploymentLog {
  import opened Options

  const MAX_DEPLOYMENT_LINES: nat := 5000
  const MAX_CONSOLE_HISTORY_CHARACTERS: nat := 16 * 1024 * 1024

  // A line's ID counts the lines before it, dropped or not.
  datatype Line = Line(number: nat, text: string)

  function TotalCharacters(lines: seq<Line>): nat {
    if lines == [] then 0 else |lines[0].text| + TotalCharacters(lines[1..])
  }

  lemma {:induction false} TotalAppends(lines: seq<Line>, line: Line)
    ensures TotalCharacters(lines + [line]) == TotalCharacters(lines) + |line.text|
  {
    if lines == [] {
      assert [] + [line] == [line];
    } else {
      assert (lines + [line])[1..] == lines[1..] + [line];
      TotalAppends(lines[1..], line);
    }
  }

  predicate Over(lines: seq<Line>) {
    |lines| > MAX_DEPLOYMENT_LINES || (TotalCharacters(lines) > MAX_CONSOLE_HISTORY_CHARACTERS && |lines| > 1)
  }

  // Where a follower is: about to look for lines, stopped with the line `next`
  // handed over, asleep until it is woken, or over.
  datatype Phase = Looking | Reading | Asleep | Ended

  datatype Follower = Follower(next: nat, phase: Phase, aborted: bool) {
    // Every line before this is behind it.
    function Reached(): nat {
      if phase == Reading then next + 1 else next
    }
  }

  ghost predicate Increasing(numbers: seq<nat>) {
    forall i, j | 0 <= i < j < |numbers| :: numbers[i] < numbers[j]
  }

  // A follower has been handed the lines it reached, in order, each once, but
  // for those trimmed first; and it sleeps unwoken only with none unread.
  ghost predicate FollowerFits(
    follower: Follower, seen: seq<nat>, dropped: nat, total: nat, waiting: bool, current: bool)
  {
    && Increasing(seen) && (forall k | k in seen :: k < follower.Reached())
    && (forall k: nat | k < follower.Reached() :: k in seen || k < dropped)
    && follower.Reached() <= total
    && (follower.aborted ==> !waiting)
    && (follower.phase == Asleep && waiting ==> follower.next == total && current)
  }

  lemma SeenNext(
    follower: Follower, seen: seq<nat>, next: nat, dropped: nat, total: nat, waiting: bool, current: bool, waits: bool)
    requires FollowerFits(follower, seen, dropped, total, waiting, current)
    requires follower.Reached() <= next < total && (next == follower.Reached() || next == dropped)
    requires follower.aborted ==> !waits
    ensures FollowerFits(follower.(next := next, phase := Reading), seen + [next], dropped, total, waits, current)
  {
    var more := seen + [next];
    forall k: nat | k < next + 1 ensures k in more || k < dropped {
      if k == next {
        assert more[|seen|] == next;
      } else if k in seen {
        var i :| 0 <= i < |seen| && seen[i] == k;
        assert more[i] == k;
      }
    }
    forall i, j | 0 <= i < j < |more| ensures more[i] < more[j] {
      if j == |seen| { assert seen[i] in seen; }
    }
  }

  lemma SeenAll(
    follower: Follower, seen: seq<nat>, phase: Phase, dropped: nat, total: nat, waiting: bool, current: bool,
    waits: bool)
    requires FollowerFits(follower, seen, dropped, total, waiting, current) && dropped <= total
    requires follower.Reached() == total || dropped == total
    requires phase == Ended || (phase == Asleep && current)
    requires follower.aborted ==> !waits
    ensures FollowerFits(follower.(next := total, phase := phase), seen, dropped, total, waits, current)
  {
  }

  lemma FitsLater(
    follower: Follower, seen: seq<nat>, dropped: nat, total: nat, waiting: bool, current: bool,
    droppedLater: nat, totalLater: nat, currentLater: bool)
    requires FollowerFits(follower, seen, dropped, total, waiting, current)
    requires dropped <= droppedLater && total <= totalLater
    ensures FollowerFits(follower, seen, droppedLater, totalLater, false, currentLater)
  {
  }

  lemma Shifts(log: seq<Line>, dropped: nat)
    requires dropped < |log|
    ensures log[dropped..][1..] == log[dropped + 1..]
    ensures TotalCharacters(log[dropped..]) == |log[dropped].text| + TotalCharacters(log[dropped + 1..])
  {
    assert log[dropped..][1..] == log[dropped + 1..];
  }

  class Deployment {
    var lines: seq<Line>
    var characters: int
    var dropped: nat
    var current: bool                   // it is its App's latest
    var waiters: set<nat>               // the followers to wake
    var followers: map<nat, Follower>
    ghost var log: seq<Line>            // every line there has been
    ghost var seen: map<nat, seq<nat>>  // the lines each follower was handed

    ghost predicate Logged()
      reads this
    {
      && dropped <= |log| && lines == log[dropped..] && characters == TotalCharacters(lines)
      && forall i | 0 <= i < |log| :: log[i].number == i
    }

    ghost predicate Follows(id: nat)
      requires id in followers
      reads this
    {
      id in seen && FollowerFits(followers[id], seen[id], dropped, |log|, id in waiters, current)
    }

    ghost predicate Valid()
      reads this
    {
      Logged() && !Over(lines) && forall id | id in followers :: Follows(id)
    }

    constructor ()
      ensures Valid() && log == [] && followers == map[] && current
    {
      lines, characters, dropped, current := [], 0, 0, true;
      waiters, followers, log, seen := {}, map[], [], map[];
      new;
      assert Logged();
    }

    method Append(text: string)
      requires Valid()
      modifies this
      ensures Valid() && log == old(log) + [Line(old(|log|), text)] && current == old(current)
      ensures waiters == {} && followers == old(followers) && seen == old(seen)
      ensures old(dropped) <= dropped && lines != [] && lines[|lines| - 1].text == text
      // Only as many lines are trimmed as must be.
      ensures dropped == old(dropped) || Over(log[dropped - 1..])
    {
      hide FollowerFits, Over, TotalCharacters;
      LineNumber();
      ghost var before, was, waited := dropped, |log|, waiters;
      var line := Line(dropped + |lines|, text);
      Push(line);
      ghost var grown := log;
      Trim();
      Wake();
      forall id | id in followers ensures Follows(id) {
        assert old(Follows(id));
        FitsLater(followers[id], seen[id], before, was, id in waited, current, dropped, |log|, current);
      }
    }

    lemma LineNumber()
      requires Logged()
      ensures dropped + |lines| == |log|
    {
    }

    method Push(line: Line)
      requires Logged() && line.number == |log|
      modifies this`lines, this`characters, this`log
      ensures Logged() && log == old(log) + [line] && lines == old(lines) + [line] && lines[|lines| - 1] == line
    {
      TotalAppends(lines, line);
      lines, characters, log := lines + [line], characters + |line.text|, log + [line];
    }

    // Shortens the log from its old end until it is in budget.
    method Trim()
      requires Logged() && lines != []
      modifies this`lines, this`characters, this`dropped
      ensures Logged() && !Over(lines) && old(dropped) <= dropped && lines != []
      ensures dropped == old(dropped) || Over(log[dropped - 1..])
    {
      hide TotalCharacters;
      while |lines| > MAX_DEPLOYMENT_LINES || (characters > MAX_CONSOLE_HISTORY_CHARACTERS && |lines| > 1)
        invariant Logged() && lines != [] && old(dropped) <= dropped && characters == TotalCharacters(lines)
        invariant dropped == old(dropped) || Over(log[dropped - 1..])
        decreases |lines|
      {
        Shifts(log, dropped);
        var line := lines[0];
        lines, characters, dropped := lines[1..], characters - |line.text|, dropped + 1;
      }
    }

    // Wakes everyone waiting.
    method Wake()
      modifies this`waiters
      ensures waiters == {}
    {
      while waiters != {}
        decreases |waiters|
      {
        var waiter :| waiter in waiters;
        waiters := waiters - {waiter};
      }
    }

    // What a follower was handed is strictly increasing, lacks only lines
    // trimmed before it reached them, and is all there is while it sleeps.
    lemma HandedInOrder(id: nat)
      requires Valid() && id in followers
      ensures id in seen && Increasing(seen[id])
      ensures forall line | line in lines && line.number < followers[id].Reached() :: line.number in seen[id]
      ensures followers[id].phase == Asleep && id in waiters ==> forall line | line in lines :: line.number in seen[id]
    {
      assert Follows(id);
      forall line | line in lines ensures dropped <= line.number < |log| {
        var i :| 0 <= i < |lines| && lines[i] == line;
        assert line == log[dropped + i];
      }
    }

    // Another deployment of the App starts.
    method Supersede()
      requires Valid()
      modifies this`current, this`waiters
      ensures Valid() && !current && waiters == {}
    {
      hide FollowerFits;
      ghost var was, waited := current, waiters;
      current := false;
      Wake();
      forall id | id in followers ensures Follows(id) {
        FitsLater(followers[id], seen[id], dropped, |log|, id in waited, was, dropped, |log|, current);
      }
    }

    method Follow(id: nat)
      requires Valid() && id !in followers
      modifies this`followers, this`seen
      ensures Valid() && followers == old(followers)[id := Follower(old(dropped), Looking, false)]
      ensures seen == old(seen)[id := []]
    {
      followers, seen := followers[id := Follower(dropped, Looking, false)], seen[id := []];
      forall o | o in followers ensures Follows(o) {
        if o != id { assert old(Follows(o)); }
      }
    }

    // Its browsers left: it is woken, to end.
    method Abort(id: nat)
      requires Valid() && id in followers
      modifies this`followers, this`waiters
      ensures Valid() && followers == old(followers)[id := old(followers)[id].(aborted := true)] && id !in waiters
    {
      ghost var waited := waiters;
      followers, waiters := followers[id := followers[id].(aborted := true)], waiters - {id};
      forall o | o in followers ensures Follows(o) {
        assert old(Follows(o));
      }
    }

    // What a follower can go on from: it looks for lines, is asked for the
    // next, or was woken.
    predicate CanResume(id: nat)
      requires id in followers
      reads this`followers, this`waiters
    {
      followers[id].phase in {Looking, Reading} || (followers[id].phase == Asleep && id !in waiters)
    }

    // A follower goes on until it has a line to hand over (`line`), or none
    // and sleeps, or its deployment is no longer the latest and it ends.
    method Resume(id: nat) returns (line: Option<Line>)
      requires Valid() && id in followers && CanResume(id)
      modifies this`followers, this`waiters, this`seen
      ensures Valid() && followers.Keys == old(followers).Keys
      ensures line.Some? ==>
                && followers[id].phase == Reading && line.value.number == followers[id].next
                && line.value in lines && seen == old(seen)[id := old(seen)[id] + [line.value.number]]
      ensures line.None? ==> seen == old(seen) && followers[id].phase in {Asleep, Ended}
      ensures followers[id].phase == Asleep && id in waiters ==> followers[id].next == |log|
      ensures followers[id].phase == Ended ==> old(followers[id].aborted) || (!current && followers[id].next == |log|)
      // It ends if it was aborted by the time it looks again; else it hands
      // over the oldest line kept that it hasn't reached, if there is one.
      ensures var over := old(followers[id].aborted) && old(followers[id].phase) != Reading;
              var reached := old(followers[id].Reached());
              var next := if reached < dropped then dropped else reached;
              && (over ==> line.None? && followers[id].phase == Ended && waiters == old(waiters))
              && (!over ==> (line.Some? <==> next < |log|))
              && (line.Some? ==> line.value == log[next])
              && (!over && line.None? ==> followers[id].phase == if current then Asleep else Ended)
              // As it looks afresh it waits to be woken from then on.
              && (!over ==> waiters == old(waiters) + if old(followers[id].phase) != Reading then {id} else {})
    {
      hide FollowerFits, Over, TotalCharacters;
      assert Follows(id);
      var follower := followers[id];
      if follower.phase != Reading && follower.aborted {
        EndsAborted(follower, seen[id], dropped, |log|, id in waiters, current);
        followers := followers[id := follower.(phase := Ended)];
        forall o | o in followers ensures Follows(o) {
          if o != id { assert old(Follows(o)); }
        }
        return None;
      }
      ghost var waiting := id in waiters;
      ReachedWithin(follower, seen[id], dropped, |log|, waiting, current);
      if follower.phase != Reading { waiters := waiters + {id}; }
      forall o | o in followers && o != id ensures Follows(o) {
        assert old(Follows(o));
      }
      line := Look(id, waiting);
    }

    // Where a follower goes on from, and what it finds there.
    method Look(id: nat, ghost waiting: bool) returns (line: Option<Line>)
      requires Logged() && !Over(lines) && id in followers && id in seen
      requires forall o | o in followers && o != id :: Follows(o)
      requires FollowerFits(followers[id], seen[id], dropped, |log|, waiting, current)
      requires followers[id].aborted ==> id !in waiters
      modifies this`followers, this`seen
      ensures Valid() && followers.Keys == old(followers).Keys
      ensures followers[id].aborted == old(followers[id].aborted)
      ensures if line.Some? then
                && followers[id].phase == Reading && line.value.number == followers[id].next
                && line.value in lines && seen == old(seen)[id := old(seen)[id] + [line.value.number]]
              else
                seen == old(seen) && followers[id].phase == (if current then Asleep else Ended) &&
                followers[id].next == |log|
      ensures var reached := old(followers[id].Reached());
              var next := if reached < dropped then dropped else reached;
              && (line.Some? <==> next < |log|)
              && (line.Some? ==> line.value == log[next])
    {
      hide FollowerFits, Over, TotalCharacters, Increasing;
      LineNumber();
      var follower := followers[id];
      var next := follower.Reached();
      if next < dropped { next := dropped; }
      ReachedWithin(follower, seen[id], dropped, |log|, waiting, current);
      if next < dropped + |lines| {
        SeenNext(follower, seen[id], next, dropped, |log|, waiting, current, id in waiters);
        followers, seen := followers[id := follower.(next := next, phase := Reading)], seen[id := seen[id] + [next]];
        line := Some(lines[next - dropped]);
      } else {
        var phase := if current then Asleep else Ended;
        SeenAll(follower, seen[id], phase, dropped, |log|, waiting, current, id in waiters);
        followers := followers[id := follower.(next := next, phase := phase)];
        line := None;
      }
      forall o | o in followers ensures Follows(o) {
        if o != id { assert old(Follows(o)); }
      }
    }
  }

  lemma EndsAborted(follower: Follower, seen: seq<nat>, dropped: nat, total: nat, waiting: bool, current: bool)
    requires FollowerFits(follower, seen, dropped, total, waiting, current) && follower.phase != Reading
    ensures FollowerFits(follower.(phase := Ended), seen, dropped, total, waiting, current)
  {
  }

  lemma ReachedWithin(follower: Follower, seen: seq<nat>, dropped: nat, total: nat, waiting: bool, current: bool)
    requires FollowerFits(follower, seen, dropped, total, waiting, current)
    ensures follower.Reached() <= total && (follower.aborted ==> !waiting)
  {
  }
}
