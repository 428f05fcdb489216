/** Restoring a server's files (`backup-restore.ts`): the swap of the restored
    tree for the original, the journal kept of it, and its recovery, through a
    crash or a failure at any step. */
module RestoreJournal {
  import opened Options

  // A directory tree at one of the restore's paths: the server's own, the
  // backup's, or what a removal or an extraction left midway.
  datatype Tree = Original | Restored | Remains

  datatype Path = Instance | Rollback | Staging

  datatype Phase = Extracting | Prepared | MovedOriginal | Installed

  // How the next thing asked of the disk goes. One that doesn't go through
  // may have got anywhere, if it isn't atomic.
  datatype Fate = Works | Throws(reached: Extent) | Crashes(reached: Extent)
  datatype Extent = Untouched | Midway | Finished

  datatype Outcome = Done | Threw | Crashed

  // Where a restore that isn't over can be, in the trees and in the journal.
  predicate OriginalInPlace(trees: map<Path, Tree>) {
    Instance in trees && trees[Instance] == Original && Rollback !in trees
  }

  predicate OriginalThere(trees: map<Path, Tree>) {
    Instance in trees && trees[Instance] == Original
  }

  predicate BetweenSwaps(trees: map<Path, Tree>) {
    Instance !in trees && Rollback in trees && trees[Rollback] == Original
    && Staging in trees && trees[Staging] == Restored
  }

  predicate RestoredInPlace(trees: map<Path, Tree>) {
    Instance in trees && trees[Instance] == Restored && Staging !in trees
  }

  predicate Recoverable(trees: map<Path, Tree>, journal: Phase) {
    || (OriginalInPlace(trees) && journal != Installed)
    || (BetweenSwaps(trees) && journal in {Prepared, MovedOriginal})
    || (RestoredInPlace(trees) && journal != Extracting)
  }

  // The phase a settling goes by is never behind what the trees show.
  predicate Settleable(trees: map<Path, Tree>, phase: Phase, preferComplete: bool) {
    if phase == Installed then RestoredInPlace(trees)
    else if preferComplete then Recoverable(trees, phase)
    else OriginalInPlace(trees) || BetweenSwaps(trees)
  }

  // The tree a settling leaves in place, by what it found.
  function Kept(trees: map<Path, Tree>, preferComplete: bool): Tree {
    if RestoredInPlace(trees) || (BetweenSwaps(trees) && preferComplete) then Restored else Original
  }

  // The trees once a restore has swapped its own in, with all to remove.
  const SWAPPED: map<Path, Tree> := map[Instance := Restored, Rollback := Original]

  // How the `i`th thing asked of the disk goes. All works after those told.
  function FateAt(fates: seq<Fate>, i: nat): Fate {
    if i < |fates| then fates[i] else Works
  }

  function OutcomeOf(fate: Fate): (outcome: Outcome)
    ensures outcome == Done <==> fate.Works?
    ensures outcome == Crashed <==> fate.Crashes?
  {
    match fate case Works => Done case Throws(_) => Threw case Crashes(_) => Crashed
  }

  function ReachedBy(fate: Fate): Extent {
    if fate.Works? then Finished else fate.reached
  }

  // All that was asked in between worked, but for the last, which went so.
  ghost predicate Went(fates: seq<Fate>, from: nat, until: nat, outcome: Outcome) {
    && from <= until && (outcome != Done ==> from < until)
    && (forall i | from <= i < until - 1 :: FateAt(fates, i).Works?)
    && (from < until ==> outcome == OutcomeOf(FateAt(fates, until - 1)))
  }

  lemma WentOn(fates: seq<Fate>, from: nat, via: nat, until: nat, outcome: Outcome)
    requires Went(fates, from, via, Done) && Went(fates, via, until, outcome)
    ensures Went(fates, from, until, outcome)
  {
  }

  lemma WentOnce(fates: seq<Fate>, from: nat)
    ensures Went(fates, from, from, Done) && Went(fates, from, from + 1, OutcomeOf(FateAt(fates, from)))
  {
  }

  // Something is left to go wrong only so long.
  function Ahead(fates: seq<Fate>, asked: nat): nat {
    if asked < |fates| then |fates| - asked else 0
  }

  lemma WentWrong(fates: seq<Fate>, from: nat, until: nat, outcome: Outcome)
    requires Went(fates, from, until, outcome)
    ensures Ahead(fates, until) <= Ahead(fates, from)
    ensures outcome != Done ==> Ahead(fates, until) < Ahead(fates, from)
  {
  }

  // The next `n` things asked of the disk work.
  predicate Calm(fates: seq<Fate>, from: nat, n: nat) {
    forall i | from <= i < from + n :: FateAt(fates, i) == Works
  }

  // And the Relay goes down as it asks the next.
  predicate CutAt(fates: seq<Fate>, from: nat, n: nat) {
    Calm(fates, from, n) && FateAt(fates, from + n) == Crashes(Untouched)
  }

  lemma IsSwapped(trees: map<Path, Tree>)
    requires RestoredInPlace(trees) && Rollback in trees && trees[Rollback] == Original
    ensures trees == SWAPPED
  {
    forall p | p in trees ensures p in SWAPPED {
      match p case Instance => case Rollback => case Staging =>
    }
  }

  // The trees with `from` moved, and with one removed as far as `reached`.
  function Moved(trees: map<Path, Tree>, from: Path, to': Path): map<Path, Tree>
    requires from in trees
  {
    (trees - {from})[to' := trees[from]]
  }

  function Removed(trees: map<Path, Tree>, path: Path, reached: Extent): map<Path, Tree> {
    if reached == Finished then trees - {path}
    else if reached == Midway && path in trees then trees[path := Remains]
    else trees
  }

  // How far an install has got, by how much of it was asked.
  function PhaseAfter(asked: nat): Phase {
    if asked <= 2 then Prepared else if asked <= 4 then MovedOriginal else Installed
  }

  class Disk {
    const fates: seq<Fate>   // how what is asked goes
    var asked: nat
    var trees: map<Path, Tree>
    var archive: bool
    var journal: Option<Phase>

    constructor (fates: seq<Fate>)
      ensures trees == map[Instance := Original] && !archive && journal == None && this.fates == fates && asked == 0
    {
      trees, archive, journal := map[Instance := Original], false, None;
      this.fates, asked := fates, 0;
    }

    // How what is asked next goes.
    function Next(): Fate
      reads this`asked
    {
      FateAt(fates, asked)
    }

    predicate Clean()
      reads this
    {
      Instance in trees && Rollback !in trees && Staging !in trees && !archive && journal == None
    }

    // Atomic: it happened or it didn't, and one that throws didn't.
    method Rename(from: Path, to': Path) returns (outcome: Outcome)
      requires from != to'
      modifies this`trees, this`asked
      ensures asked == old(asked) + 1
      ensures if from in old(trees) && to' !in old(trees) then
                && outcome == OutcomeOf(old(Next())) && Went(fates, old(asked), asked, outcome)
                && trees == if !old(Next()).Throws? && ReachedBy(old(Next())) == Finished
                            then Moved(old(trees), from, to') else old(trees)
              else
                outcome == (if old(Next()).Crashes? then Crashed else Threw) && trees == old(trees)
    {
      var fate := FateAt(fates, asked);
      asked := asked + 1;
      if fate.Throws? || from !in trees || to' in trees { return if fate.Crashes? then Crashed else Threw; }
      if fate.Works? || fate.reached == Finished { trees := (trees - {from})[to' := trees[from]]; }
      outcome := if fate.Works? then Done else Crashed;
    }

    // Removes a whole tree, if it's there, an entry at a time.
    method Remove(path: Path) returns (outcome: Outcome)
      modifies this`trees, this`asked
      ensures asked == old(asked) + 1 && outcome == OutcomeOf(old(Next())) && Went(fates, old(asked), asked, outcome)
      ensures trees == Removed(old(trees), path, ReachedBy(old(Next())))
    {
      var fate := FateAt(fates, asked);
      asked := asked + 1;
      var reached := if fate.Works? then Finished else fate.reached;
      if reached == Finished { trees := trees - {path}; }
      if reached == Midway && path in trees { trees := trees[path := Remains]; }
      outcome := OutcomeOf(fate);
    }

    method RemoveArchive() returns (outcome: Outcome)
      modifies this`archive, this`asked
      ensures asked == old(asked) + 1 && outcome == OutcomeOf(old(Next())) && Went(fates, old(asked), asked, outcome)
      ensures archive <==> old(archive) && ReachedBy(old(Next())) != Finished
    {
      var fate := FateAt(fates, asked);
      asked := asked + 1;
      if fate.Works? || fate.reached == Finished { archive := false; }
      outcome := OutcomeOf(fate);
    }

    // Written beside and renamed over: a failed write may have gone through.
    method WriteJournal(phase: Phase) returns (outcome: Outcome)
      modifies this`journal, this`asked
      ensures asked == old(asked) + 1 && outcome == OutcomeOf(old(Next())) && Went(fates, old(asked), asked, outcome)
      ensures journal == if ReachedBy(old(Next())) == Finished then Some(phase) else old(journal)
    {
      var fate := FateAt(fates, asked);
      asked := asked + 1;
      if fate.Works? || fate.reached == Finished { journal := Some(phase); }
      outcome := OutcomeOf(fate);
    }

    method RemoveJournal() returns (outcome: Outcome)
      modifies this`journal, this`asked
      ensures asked == old(asked) + 1 && outcome == OutcomeOf(old(Next())) && Went(fates, old(asked), asked, outcome)
      ensures journal == if ReachedBy(old(Next())) == Finished then None else old(journal)
    {
      var fate := FateAt(fates, asked);
      asked := asked + 1;
      if fate.Works? || fate.reached == Finished { journal := None; }
      outcome := OutcomeOf(fate);
    }

    method Look() returns (outcome: Outcome)
      modifies this`asked
      ensures asked == old(asked) + 1 && outcome == OutcomeOf(old(Next())) && Went(fates, old(asked), asked, outcome)
    {
      outcome, asked := OutcomeOf(FateAt(fates, asked)), asked + 1;
    }

    // Whether a settling by `phase` finds what a restore leaves.
    ghost predicate Expected(phase: Phase, preferComplete: bool)
      reads this
    {
      && Settleable(trees, phase, preferComplete)
      && (if journal.Some? then Recoverable(trees, journal.value) else Clean() && phase == Installed)
      && (preferComplete ==> journal == Some(phase))
    }

    // Puts the restored files in place, as far as they are there.
    method SettleInstalled() returns (outcome: Outcome, completed: bool)
      modifies this`trees, this`asked
      ensures Went(fates, old(asked), asked, outcome) && (outcome != Done ==> !completed)
      ensures outcome == Done ==>
                if Instance in old(trees) then
                  completed && trees == old(trees) - {Rollback} - {Staging} && asked == old(asked) + 2
                else if Staging in old(trees) then
                  completed && trees == Moved(old(trees), Staging, Instance) - {Rollback} && asked == old(asked) + 2
                else if Rollback in old(trees) then
                  !completed && trees == Moved(old(trees), Rollback, Instance) && asked == old(asked) + 1
                else
                  !completed && trees == old(trees) - {Staging} && asked == old(asked) + 1
      ensures RestoredInPlace(old(trees)) ==>
                RestoredInPlace(trees) && (Rollback !in old(trees) ==> trees == old(trees))
    {
      hide Went;
      completed := false;
      outcome := Done;
      if Instance in trees {
        outcome := Remove(Rollback);
        if outcome != Done { return; }
        ghost var via := asked;
        outcome := Remove(Staging);
        WentOn(fates, old(asked), via, asked, outcome);
        completed := outcome == Done;
      } else if Staging in trees {
        outcome := Rename(Staging, Instance);
        if outcome != Done { return; }
        ghost var via := asked;
        outcome := Remove(Rollback);
        WentOn(fates, old(asked), via, asked, outcome);
        completed := outcome == Done;
      } else if Rollback in trees {
        outcome := Rename(Rollback, Instance);
      } else {
        outcome := Remove(Staging);
      }
    }

    // The restored tree in, then the original gone.
    method FinishSwap() returns (outcome: Outcome)
      requires Staging in trees && Instance !in trees
      modifies this`trees, this`asked
      ensures Went(fates, old(asked), asked, outcome)
      ensures outcome == Done ==> trees == Moved(old(trees), Staging, Instance) - {Rollback} && asked == old(asked) + 2
      ensures BetweenSwaps(old(trees)) ==> BetweenSwaps(trees) || RestoredInPlace(trees)
    {
      hide Went;
      outcome := Rename(Staging, Instance);
      if outcome != Done { return; }
      ghost var via := asked;
      outcome := Remove(Rollback);
      WentOn(fates, old(asked), via, asked, outcome);
    }

    // What is beside the restored tree gone.
    method LetGo() returns (outcome: Outcome)
      modifies this`trees, this`asked
      ensures Went(fates, old(asked), asked, outcome)
      ensures outcome == Done ==> trees == old(trees) - {Rollback} - {Staging} && asked == old(asked) + 2
      ensures asked <= old(asked) + 2
      ensures RestoredInPlace(old(trees)) ==> RestoredInPlace(trees)
    {
      hide Went;
      outcome := Remove(Rollback);
      if outcome != Done { return; }
      ghost var via := asked;
      outcome := Remove(Staging);
      WentOn(fates, old(asked), via, asked, outcome);
    }

    // The original in place again, then the restored tree gone.
    method PutBack(instanceExists: bool) returns (outcome: Outcome)
      requires (instanceExists <==> Instance in trees) && Rollback in trees
      modifies this`trees, this`asked
      ensures Went(fates, old(asked), asked, outcome)
      ensures outcome == Done ==>
                && trees == Moved(old(trees) - {Instance}, Rollback, Instance) - {Staging}
                && asked == old(asked) + if instanceExists then 3 else 2
      ensures BetweenSwaps(old(trees)) ==> BetweenSwaps(trees) || OriginalInPlace(trees)
    {
      hide Went;
      if instanceExists {
        outcome := Remove(Instance);
        if outcome != Done { return; }
      }
      assert trees == old(trees) - {Instance};
      ghost var via := asked;
      outcome := Rename(Rollback, Instance);
      WentOn(fates, old(asked), via, asked, outcome);
      if outcome != Done { return; }
      via := asked;
      outcome := Remove(Staging);
      WentOn(fates, old(asked), via, asked, outcome);
    }

    // Puts wholly one tree or the other in place, and nothing beside it.
    method SettleTrees(phase: Phase, preferComplete: bool) returns (outcome: Outcome, completed: bool)
      modifies this`trees, this`asked
      ensures Went(fates, old(asked), asked, outcome) && old(asked) < asked
      ensures old(Expected(phase, preferComplete)) ==>
                && (outcome == Done ==> Instance in trees && Rollback !in trees && Staging !in trees)
                && (outcome == Done ==> trees[Instance] == Kept(old(trees), preferComplete))
                && (outcome == Done ==>
                      (completed <==> phase == Installed || (preferComplete && Rollback in old(trees))))
                && (if journal.Some? then Recoverable(trees, journal.value)
                    else Clean() && trees[Instance] == Kept(old(trees), preferComplete))
                && (preferComplete ==> Kept(trees, true) == Kept(old(trees), true))
      ensures phase == MovedOriginal && preferComplete && old(trees) == SWAPPED && outcome == Done ==>
                trees == map[Instance := Restored]
      ensures phase == MovedOriginal && preferComplete && old(trees) == SWAPPED ==>
                asked <= old(asked) + 3 && (outcome == Done ==> asked == old(asked) + 3)
    {
      hide Went;
      completed := false;
      outcome := Look();
      if outcome != Done { return; }
      ghost var via := asked;
      var instanceExists, rollbackExists, stagingExists := Instance in trees, Rollback in trees, Staging in trees;
      if phase == Installed {
        outcome, completed := SettleInstalled();
      } else if preferComplete && !instanceExists && rollbackExists && stagingExists {
        outcome := FinishSwap();
        completed := outcome == Done;
      } else if preferComplete && instanceExists && rollbackExists {
        outcome := LetGo();
        completed := outcome == Done;
      } else if !preferComplete && rollbackExists {
        outcome := PutBack(instanceExists);
      } else {
        outcome := Remove(Staging);
      }
      WentOn(fates, old(asked), via, asked, outcome);
    }

    // Settles a restore that didn't go through, finishing it or putting the
    // original back, and answers whether it is complete.
    method Settle(phase: Phase, preferComplete: bool) returns (outcome: Outcome, completed: bool)
      modifies this
      ensures Went(fates, old(asked), asked, outcome) && old(asked) < asked
      ensures old(Expected(phase, preferComplete)) ==>
                && (outcome == Done ==> Clean() && trees[Instance] == Kept(old(trees), preferComplete))
                && (outcome == Done ==>
                      (completed <==> phase == Installed || (preferComplete && Rollback in old(trees))))
                && (if journal.Some? then Recoverable(trees, journal.value) && journal == old(journal)
                    else Clean() && trees[Instance] == Kept(old(trees), preferComplete))
                // Cut short itself, it changes nothing of how a later one ends.
                && (preferComplete ==> Kept(trees, true) == Kept(old(trees), true))
                // Its answer differs from the tree in place exactly if the
                // rollback was gone already, and only that.
                && (outcome == Done ==>
                      ((completed <==> trees[Instance] != Restored) <==>
                       RestoredInPlace(old(trees)) && phase != Installed && Rollback !in old(trees)))
                && (outcome == Done && completed ==> trees[Instance] == Restored)
      ensures phase == MovedOriginal && preferComplete && old(trees) == SWAPPED && CutAt(fates, old(asked), 4) ==>
                outcome == Crashed && trees == map[Instance := Restored] && journal == old(journal)
                && asked == old(asked) + 5
    {
      hide Went, Calm;
      outcome, completed := SettleTrees(phase, preferComplete);
      CutThen(fates, old(asked), 4, asked, outcome);
      if outcome != Done { return; }
      ghost var via := asked;
      outcome := RemoveArchive();
      WentOn(fates, old(asked), via, asked, outcome);
      CutThen(fates, old(asked), 4, asked, outcome);
      if outcome != Done { return; }
      via := asked;
      outcome := RemoveJournal();
      WentOn(fates, old(asked), via, asked, outcome);
    }

    // Makes way for a restore and records that it began.
    method Prepare() returns (outcome: Outcome)
      requires OriginalThere(trees) && journal == None
      modifies this
      ensures Went(fates, old(asked), asked, outcome) && asked <= old(asked) + 4
      ensures OriginalThere(trees) && (journal == None || (journal == Some(Extracting) && OriginalInPlace(trees)))
      ensures outcome == Done ==>
                && trees == old(trees) - {Staging} - {Rollback} && OriginalInPlace(trees) && Staging !in trees
                && !archive && journal == Some(Extracting) && asked == old(asked) + 4
      ensures old(Clean()) && journal == None ==> Clean()
      ensures old(Clean()) ==> trees == old(trees)
    {
      hide Went;
      outcome := Remove(Staging);
      if outcome != Done { return; }
      ghost var via := asked;
      outcome := Remove(Rollback);
      WentOn(fates, old(asked), via, asked, outcome);
      if outcome != Done { return; }
      via := asked;
      outcome := RemoveArchive();
      WentOn(fates, old(asked), via, asked, outcome);
      if outcome != Done { return; }
      via := asked;
      outcome := WriteJournal(Extracting);
      WentOn(fates, old(asked), via, asked, outcome);
    }

    // Fetches the backup's archive and extracts it into staging.
    method Extract() returns (outcome: Outcome)
      requires Staging !in trees
      modifies this`trees, this`archive, this`asked
      ensures Went(fates, old(asked), asked, outcome) && old(asked) < asked <= old(asked) + 2
      ensures outcome == Done ==> asked == old(asked) + 2 && trees == old(trees)[Staging := Restored]
      ensures archive <==> old(archive) || ReachedBy(old(Next())) != Untouched
      ensures var reached := if asked == old(asked) + 1 then Untouched else ReachedBy(FateAt(fates, asked - 1));
              trees == if reached == Untouched then old(trees)
                       else old(trees)[Staging := if reached == Finished then Restored else Remains]
    {
      hide Went;
      WentOnce(fates, asked);
      WentOnce(fates, asked + 1);
      var fetched := FateAt(fates, asked);
      asked := asked + 1;
      if fetched.Works? || fetched.reached != Untouched { archive := true; }
      if !fetched.Works? {
        return OutcomeOf(fetched);
      }
      var fate := FateAt(fates, asked);
      asked := asked + 1;
      if fate.Works? || fate.reached == Finished {
        trees := trees[Staging := Restored];
      } else if fate.reached == Midway {
        trees := trees[Staging := Remains];
      }
      outcome := OutcomeOf(fate);
      WentOn(fates, old(asked), asked - 1, asked, outcome);
    }

    // From a prepared disk to the restored tree in place, unless the restore
    // was stopped first (`gateOpen`). `phase` is as far as it knows it got.
    method Install(gateOpen: bool) returns (outcome: Outcome, phase: Phase)
      requires OriginalInPlace(trees) && Staging in trees && trees[Staging] == Restored
      requires journal == Some(Extracting)
      modifies this
      ensures !gateOpen ==> outcome == Threw && trees == old(trees) && phase == Extracting && asked == old(asked)
      ensures gateOpen ==>
                && Went(fates, old(asked), asked, outcome) && old(asked) < asked <= old(asked) + 8
                && phase == PhaseAfter(asked - old(asked)) && (outcome == Done ==> asked == old(asked) + 8)
      ensures outcome == Done ==> Clean() && trees[Instance] == Restored && phase == Installed
      ensures outcome != Crashed ==> Settleable(trees, phase, false)
      ensures if journal.Some? then Recoverable(trees, journal.value)
              else Clean() && trees[Instance] == Restored && phase == Installed
      ensures !gateOpen ==> journal == old(journal)
      ensures gateOpen && CutAt(fates, old(asked), 4) ==>
                outcome == Crashed && trees == SWAPPED && journal == Some(MovedOriginal) && asked == old(asked) + 5
    {
      hide Went, Calm;
      phase := Extracting;
      if !gateOpen { return Threw, phase; }
      phase := Prepared;
      outcome := WriteJournal(phase);
      CutThen(fates, old(asked), 4, asked, outcome);
      if outcome != Done { return; }
      ghost var via := asked;
      outcome := Rename(Instance, Rollback);
      WentOn(fates, old(asked), via, asked, outcome);
      CutThen(fates, old(asked), 4, asked, outcome);
      if outcome != Done { return; }
      phase := MovedOriginal;
      via := asked;
      outcome := WriteJournal(phase);
      WentOn(fates, old(asked), via, asked, outcome);
      CutThen(fates, old(asked), 4, asked, outcome);
      if outcome != Done { return; }
      via := asked;
      outcome := Rename(Staging, Instance);
      WentOn(fates, old(asked), via, asked, outcome);
      CutThen(fates, old(asked), 4, asked, outcome);
      if outcome != Done { return; }
      phase := Installed;
      IsSwapped(trees);
      via := asked;
      outcome := WriteJournal(phase);
      WentOn(fates, old(asked), via, asked, outcome);
      if outcome != Done { return; }
      via := asked;
      outcome := Tidy();
      WentOn(fates, old(asked), via, asked, outcome);
    }

    // Once the restored tree is on record as installed, only it stays.
    method Tidy() returns (outcome: Outcome)
      requires RestoredInPlace(trees) && journal == Some(Installed)
      modifies this
      ensures Went(fates, old(asked), asked, outcome) && old(asked) < asked <= old(asked) + 3
      ensures RestoredInPlace(trees) && (journal == None || journal == old(journal))
      ensures outcome == Done ==> journal == None && asked == old(asked) + 3
      ensures journal == None ==> Clean()
    {
      hide Went;
      outcome := Remove(Rollback);
      if outcome != Done { return; }
      ghost var via := asked;
      outcome := RemoveArchive();
      WentOn(fates, old(asked), via, asked, outcome);
      if outcome != Done { return; }
      via := asked;
      outcome := RemoveJournal();
      WentOn(fates, old(asked), via, asked, outcome);
    }

    // A whole restore. One that fails is settled by what it knows: finished if
    // it had installed the files, undone otherwise.
    method Restore(gateOpen: bool) returns (answer: Answer, phase: Phase)
      requires OriginalThere(trees) && journal == None
      modifies this
      ensures answer == Succeeded ==> Clean() && trees[Instance] == Restored && phase == Installed
      ensures answer == Undone ==> Clean() && trees[Instance] == Original && phase != Installed
      ensures answer == Unprepared ==> OriginalThere(trees)
      ensures answer == Unsettled && journal == None ==> Clean()
      ensures answer != Down && !gateOpen ==> phase == Extracting && (journal == None ==> OriginalThere(trees))
      ensures if journal.Some? then Recoverable(trees, journal.value)
              else OriginalThere(trees) || (Clean() && trees[Instance] == Restored)
      ensures old(Clean()) && journal == None ==> Clean()
      // It goes down as what it asks does, and says no other failure ended it.
      ensures Answers(fates, old(asked), asked, answer, gateOpen)
      ensures old(Clean()) && gateOpen && CutAt(fates, old(asked), 10) ==>
                answer == Down && trees == SWAPPED && journal == Some(MovedOriginal) && asked == old(asked) + 11
    {
      hide Went, Calm, Answers;
      phase := Extracting;
      ghost var start := asked;
      CutParts(fates, start);
      var outcome := Prepare();
      if outcome != Done {
        PrepareAnswers(fates, start, asked, outcome, gateOpen);
        return if outcome == Threw then Unprepared else Down, phase;
      }
      ghost var via := asked;
      outcome := Extract();
      CalmThen(fates, via, 2, asked, outcome);
      WentOn(fates, start, via, asked, outcome);
      if outcome == Done {
        ghost var ready := asked;
        outcome, phase := Install(gateOpen);
        if gateOpen { WentOn(fates, start, ready, asked, outcome); }
      }
      InstallAnswers(fates, start, asked, outcome, gateOpen);
      if outcome == Done { return Succeeded, phase; }
      if outcome == Crashed { return Down, phase; }
      ghost var failed := asked;
      var settled, completed := Settle(phase, false);
      SettleAnswers(fates, start, failed, asked, settled, gateOpen);
      if settled == Crashed { return Down, phase; }
      if settled == Threw { return Unsettled, phase; }
      answer := if completed then Succeeded else Undone;
    }

    // Settles, as the Relay starts, a restore a crash cut short.
    method Recover() returns (outcome: Outcome, completed: bool)
      requires journal.Some? ==> Recoverable(trees, journal.value)
      modifies this
      ensures Went(fates, old(asked), asked, outcome) && (old(journal.Some?) ==> old(asked) < asked)
      ensures old(journal) == None ==> trees == old(trees) && journal == None && !completed && asked == old(asked)
      ensures completed ==> outcome == Done
      ensures old(journal.Some?) ==>
                && (if journal.Some? then Recoverable(trees, journal.value)
                    else Clean() && trees[Instance] == Kept(old(trees), true))
                && Kept(trees, true) == Kept(old(trees), true)
                && (outcome == Done ==> journal == None && (completed ==> trees[Instance] == Restored))
                && (outcome == Done ==> (completed <==> old(journal) == Some(Installed) || Rollback in old(trees)))
      ensures old(journal) == Some(MovedOriginal) && old(trees) == SWAPPED && CutAt(fates, old(asked), 4) ==>
                trees == map[Instance := Restored] && journal == old(journal) && asked == old(asked) + 5
                && outcome == Crashed
    {
      outcome, completed := Done, false;
      if journal.Some? {
        outcome, completed := Settle(journal.value, true);
        if outcome != Done { completed := false; }
      }
    }
  }

  // How a restore answers: it is in place; it was undone; it couldn't begin;
  // it couldn't be settled either; or the Relay went down.
  datatype Answer = Succeeded | Undone | Unprepared | Unsettled | Down

  // The Relay goes down exactly as the last thing asked does, and at none
  // before; a restore that can't begin, or be settled, ends with what failed;
  // and one of which all works, and that isn't stopped, succeeds.
  ghost predicate Answers(fates: seq<Fate>, from: nat, until: nat, answer: Answer, gateOpen: bool) {
    && from < until
    && (forall i | from <= i < until - 1 :: !FateAt(fates, i).Crashes?)
    && (answer == Down <==> FateAt(fates, until - 1).Crashes?)
    && (answer in {Unprepared, Unsettled} <==> FateAt(fates, until - 1).Throws?)
    && (answer == Unprepared ==> until <= from + 4)
    && (answer == Unprepared ==> Went(fates, from, until, Threw))
    && (answer != Unprepared && answer != Down ==> until > from + 4)
    && (gateOpen && Calm(fates, from, 14) ==> answer == Succeeded)
  }

  lemma CutThen(fates: seq<Fate>, from: nat, n: nat, until: nat, outcome: Outcome)
    requires Went(fates, from, until, outcome)
    ensures CutAt(fates, from, n) && until <= from + n ==> outcome == Done
    ensures CutAt(fates, from, n) && until == from + n + 1 ==> outcome == Crashed
    ensures CutAt(fates, from, n) && from <= until && until == from + n ==> FateAt(fates, until) == Crashes(Untouched)
  {
  }

  lemma CalmThen(fates: seq<Fate>, from: nat, n: nat, until: nat, outcome: Outcome)
    requires Went(fates, from, until, outcome)
    ensures Calm(fates, from, n) && until <= from + n ==> outcome == Done
  {
  }

  // How the fates of a whole restore fall to its parts.
  lemma CutParts(fates: seq<Fate>, from: nat)
    ensures CutAt(fates, from, 10) ==> Calm(fates, from, 4) && Calm(fates, from + 4, 2) && CutAt(fates, from + 6, 4)
  {
  }

  lemma PrepareAnswers(fates: seq<Fate>, from: nat, until: nat, outcome: Outcome, gateOpen: bool)
    requires Went(fates, from, until, outcome) && until <= from + 4 && outcome != Done
    ensures Answers(fates, from, until, if outcome == Threw then Unprepared else Down, gateOpen)
  {
  }

  lemma InstallAnswers(fates: seq<Fate>, from: nat, until: nat, outcome: Outcome, gateOpen: bool)
    requires from + 4 < until <= from + 14
    requires Went(fates, from, until, outcome) || (!gateOpen && outcome == Threw && Went(fates, from, until, Done))
    ensures outcome == Done ==> Answers(fates, from, until, Succeeded, gateOpen)
    ensures outcome == Crashed ==> Answers(fates, from, until, Down, gateOpen)
    ensures outcome == Threw ==>
              && (forall i | from <= i < until :: !FateAt(fates, i).Crashes?)
              && (gateOpen ==> !Calm(fates, from, 14))
  {
    if outcome == Threw && gateOpen { assert FateAt(fates, until - 1).Throws?; }
  }

  lemma SettleAnswers(fates: seq<Fate>, from: nat, failed: nat, until: nat, settled: Outcome, gateOpen: bool)
    requires from + 4 < failed < until && (forall i | from <= i < failed :: !FateAt(fates, i).Crashes?)
    requires (gateOpen ==> !Calm(fates, from, 14)) && Went(fates, failed, until, settled)
    ensures settled == Crashed ==> Answers(fates, from, until, Down, gateOpen)
    ensures settled == Threw ==> Answers(fates, from, until, Unsettled, gateOpen)
    ensures settled == Done ==>
              Answers(fates, from, until, Succeeded, gateOpen) && Answers(fates, from, until, Undone, gateOpen)
  {
  }

  // A restore, and recoveries of it for as long as the Relay goes down or
  // fails in them, through any fates: the server ends with wholly its own
  // files or wholly the restored ones, as the trees stood when the restore
  // stopped, nothing beside them is left, and one told it has the restored
  // ones has them.
  method Life(fates: seq<Fate>, gateOpen: bool)
    returns (answer: Answer, completed: bool, stopped: map<Path, Tree>, tree: Tree, leftovers: bool)
    ensures tree in {Original, Restored} && tree == Kept(stopped, true) && !leftovers
    ensures answer == Succeeded || completed ==> tree == Restored
    ensures answer == Undone ==> tree == Original && !completed
  {
    var disk := new Disk(fates);
    var phase: Phase;
    answer, phase := disk.Restore(gateOpen);
    completed, stopped := false, disk.trees;
    while disk.journal.Some?
      invariant fresh(disk)
      invariant if disk.journal.Some? then Recoverable(disk.trees, disk.journal.value) else disk.Clean()
      invariant Kept(disk.trees, true) == Kept(stopped, true)
      invariant disk.journal == None ==> disk.trees[Instance] == Kept(stopped, true)
      invariant completed ==> disk.journal == None && RestoredInPlace(disk.trees)
      invariant answer == Succeeded ==> disk.Clean() && disk.trees[Instance] == Restored
      invariant answer == Undone ==> disk.Clean() && disk.trees[Instance] == Original && !completed
      invariant disk.fates == fates
      decreases Ahead(fates, disk.asked), disk.journal.Some?
    {
      var outcome;
      ghost var before := disk.asked;
      outcome, completed := disk.Recover();
      WentWrong(fates, before, disk.asked, outcome);
    }
    tree := disk.trees[Instance];
    leftovers := !disk.Clean();
  }

  // A restore that goes down with the restored files in place but not on
  // record, and a recovery that goes down with only the journal left to
  // remove: the next one answers that the restore isn't complete.
  const LATE_CRASHES: seq<Fate> :=
    [Works, Works, Works, Works, Works, Works, Works, Works, Works, Works, Crashes(Untouched),
     Works, Works, Works, Works, Crashes(Untouched)]

  lemma LateCrashes()
    ensures CutAt(LATE_CRASHES, 0, 10) && CutAt(LATE_CRASHES, 11, 4)
  {
  }

  method FalseForRestored() returns (answer: Answer, first: bool, second: bool, tree: Tree)
    ensures answer == Down && !first && !second && tree == Restored
  {
    var disk := new Disk(LATE_CRASHES);
    var phase, outcome;
    LateCrashes();
    answer, phase := disk.Restore(true);
    outcome, first := disk.Recover();
    outcome, second := disk.Recover();
    tree := disk.trees[Instance];
  }
}
