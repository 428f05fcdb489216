/** A batch's stopped window (`#stoppedWindow` in `backups.ts`): its backups
    run at once, the first to need it stops the Apps, and the last to arrive
    or leave starts them again. Any step may come next. */
module BatchWindow {
  type Member = nat

  // Stopping the Apps, run once and its result shared.
  datatype Begin = NotBegun | Beginning(runner: Member) | Stopped | Unstopped

  // How far a backup has got: it prepares, waits for the Apps to stop, takes
  // its archive, waits for them to start, goes on, and is over.
  datatype Phase = Preparing | Waiting | Archiving(stopped: bool) | Arrived | Storing | Over

  datatype Window = Window(
    phases: map<Member, Phase>, begin: Begin, left: set<Member>, restarting: bool, done: bool,
    stops: nat,      // times the Apps were set to stop
    restarts: nat)   // times they were set to start again
  {
    // A member arrived or left, and starts the Apps again if it is the last.
    function Leaving(m: Member, phase: Phase): Window {
      var gone := left + {m};
      var last := !restarting && |gone| >= |phases.Keys|;
      this.(phases := phases[m := phase], left := gone, restarting := restarting || last,
            restarts := if last then restarts + 1 else restarts)
    }

    predicate Valid() {
      && left <= phases.Keys
      && (forall m | m in phases :: m in left <==> phases[m] in {Arrived, Storing, Over})
      && (restarting <==> left == phases.Keys)
      && (done ==> restarting)
      && (forall m | m in phases && phases[m] == Storing :: done)
      && restarts == (if restarting then 1 else 0) && stops == (if begin == NotBegun then 0 else 1)
      && (begin.Beginning? ==> begin.runner in phases && phases[begin.runner] == Waiting)
      && (forall m | m in phases && phases[m] == Waiting :: begin != NotBegun)
      && (forall m | m in phases && phases[m] == Archiving(true) :: begin == Stopped)
    }
  }

  datatype Step =
    // A member needs the Apps stopped, or doesn't, or fails before either.
    | Reach(m: Member)
    | Skip(m: Member)
    | Quit(m: Member)
    // The Apps stopped, or didn't all.
    | Stop(succeeded: bool)
    // A member that waited for it goes on, or fails as it did.
    | Proceed(m: Member)
    // Its archive is taken, or failed.
    | Archive(m: Member)
    // The Apps were started again, as far as they would.
    | Restart
    | Resume(m: Member)
    | Finish(m: Member)

  predicate Possible(w: Window, s: Step) {
    match s
    case Reach(m) => m in w.phases && w.phases[m] == Preparing
    case Skip(m) => m in w.phases && w.phases[m] == Preparing
    case Quit(m) => m in w.phases && w.phases[m] == Preparing
    case Stop(_) => w.begin.Beginning?
    case Proceed(m) => m in w.phases && w.phases[m] == Waiting && w.begin in {Stopped, Unstopped}
    case Archive(m) => m in w.phases && w.phases[m].Archiving?
    case Restart => w.restarting && !w.done
    case Resume(m) => m in w.phases && w.phases[m] == Arrived && w.done
    case Finish(m) => m in w.phases && w.phases[m] == Storing
  }

  function Next(w: Window, s: Step): Window
    requires Possible(w, s)
  {
    match s
    case Reach(m) =>
      var first := w.begin == NotBegun;
      w.(phases := w.phases[m := Waiting], begin := if first then Beginning(m) else w.begin,
         stops := if first then w.stops + 1 else w.stops)
    case Skip(m) => w.(phases := w.phases[m := Archiving(false)])
    case Quit(m) => w.Leaving(m, Over)
    case Stop(succeeded) => w.(begin := if succeeded then Stopped else Unstopped)
    case Proceed(m) => if w.begin == Stopped then w.(phases := w.phases[m := Archiving(true)]) else w.Leaving(m, Over)
    case Archive(m) => w.Leaving(m, Arrived)
    case Restart => w.(done := true)
    case Resume(m) => w.(phases := w.phases[m := Storing])
    case Finish(m) => w.(phases := w.phases[m := Over])
  }

  lemma SubsetSize(some: set<Member>, all: set<Member>)
    requires some <= all
    ensures |some| <= |all| && (|some| == |all| <==> some == all)
  {
    assert all == some + (all - some);
    assert |all| == |some| + |all - some|;
  }

  lemma LeavingKeeps(w: Window, m: Member, phase: Phase)
    requires w.Valid() && m in w.phases && m !in w.left && phase in {Arrived, Over}
    requires w.begin.Beginning? ==> w.begin.runner != m
    ensures w.Leaving(m, phase).Valid()
  {
    SubsetSize(w.left + {m}, w.phases.Keys);
    assert w.phases[m := phase].Keys == w.phases.Keys;
  }

  lemma NextKeeps(w: Window, s: Step)
    requires w.Valid() && Possible(w, s)
    ensures Next(w, s).Valid()
  {
    match s
    case Quit(m) => LeavingKeeps(w, m, Over);
    case Proceed(m) => if w.begin != Stopped { LeavingKeeps(w, m, Over); } else { SameKeys(w, m, Archiving(true)); }
    case Archive(m) => LeavingKeeps(w, m, Arrived);
    case Reach(m) => SameKeys(w, m, Waiting);
    case Skip(m) => SameKeys(w, m, Archiving(false));
    case Resume(m) => SameKeys(w, m, Storing);
    case Finish(m) => SameKeys(w, m, Over);
    case _ =>
  }

  lemma SameKeys(w: Window, m: Member, phase: Phase)
    requires m in w.phases
    ensures w.phases[m := phase].Keys == w.phases.Keys
  {
  }

  function Opened(members: set<Member>): Window {
    Window(map m | m in members :: Preparing, NotBegun, {}, false, false, 0, 0)
  }

  // The window after `steps`, any of which that can't happen doesn't.
  function Run(w: Window, steps: seq<Step>): Window
    decreases |steps|
  {
    if steps == [] then w
    else Run(if Possible(w, steps[0]) then Next(w, steps[0]) else w, steps[1..])
  }

  lemma {:induction false} RunKeeps(w: Window, steps: seq<Step>)
    requires w.Valid()
    ensures Run(w, steps).Valid() && Run(w, steps).phases.Keys == w.phases.Keys
    decreases |steps|
  {
    hide Window.Valid, Next;
    if steps != [] {
      if Possible(w, steps[0]) {
        NextKeeps(w, steps[0]);
        NextKeepsMembers(w, steps[0]);
        RunKeeps(Next(w, steps[0]), steps[1..]);
      } else {
        RunKeeps(w, steps[1..]);
      }
    }
  }

  lemma NextKeepsMembers(w: Window, s: Step)
    requires Possible(w, s)
    ensures Next(w, s).phases.Keys == w.phases.Keys
  {
  }

  // The Apps are taken as stopped, or not, only as stopping them went.
  lemma {:induction false} StoppedAsTold(w: Window, steps: seq<Step>)
    requires w.Valid()
    ensures var end := Run(w, steps);
            && (end.begin == Stopped && w.begin != Stopped ==> Stop(true) in steps)
            && (end.begin == Unstopped && w.begin != Unstopped ==> Stop(false) in steps)
    decreases |steps|
  {
    hide Window.Valid;
    if steps != [] {
      var next := if Possible(w, steps[0]) then Next(w, steps[0]) else w;
      if Possible(w, steps[0]) { NextKeeps(w, steps[0]); }
      StoppedAsTold(next, steps[1..]);
      assert forall s | s in steps[1..] :: s in steps;
    }
  }

  // In any run of a batch: the Apps start again only once no backup takes its
  // archive or has yet to, and are started at most once; they are set to stop
  // at most once; no backup that needs them stopped takes its archive before
  // they are, or if they didn't stop; and once every backup has arrived or
  // left, they are started.
  lemma {:induction false} WindowHolds(members: set<Member>, steps: seq<Step>)
    requires members != {}
    ensures var w := Run(Opened(members), steps);
            && w.stops <= 1 && w.restarts <= 1
            && (w.restarting ==> forall m | m in members :: m in w.phases && w.phases[m] in {Arrived, Storing, Over})
            && ((forall m | m in members :: m in w.left) ==> w.restarts == 1)
            && (forall m | m in members ::
                  m in w.phases && (w.phases[m] == Archiving(true) ==> Stop(true) in steps && !w.restarting))
            && (w.begin == Unstopped ==>
                  Stop(false) in steps && forall m | m in members :: w.phases[m] != Archiving(true))
  {
    var w := Opened(members);
    assert w.left != w.phases.Keys by {
      var m :| m in members;
      assert m in w.phases;
    }
    RunKeeps(w, steps);
    StoppedAsTold(w, steps);
    hide Run;
    assert w.phases.Keys == members;
  }

  // How much a backup, or the window, has yet to do.
  function Ahead(phase: Phase): nat {
    match phase
    case Preparing => 5
    case Waiting => 4
    case Archiving(_) => 3
    case Arrived => 2
    case Storing => 1
    case Over => 0
  }

  ghost function AheadOf(phases: map<Member, Phase>): nat
    decreases |phases|
  {
    if phases == map[] then 0
    else
      var m :| m in phases;
      Less(phases, m);
      Ahead(phases[m]) + AheadOf(phases - {m})
  }

  lemma Less(phases: map<Member, Phase>, m: Member)
    requires m in phases
    ensures |phases - {m}| < |phases|
  {
    assert (phases - {m}).Keys == phases.Keys - {m};
  }

  lemma {:induction false} AheadOfOne(phases: map<Member, Phase>, m: Member)
    requires m in phases
    ensures AheadOf(phases) == Ahead(phases[m]) + AheadOf(phases - {m})
    decreases |phases|
  {
    var o :| o in phases && AheadOf(phases) == Ahead(phases[o]) + AheadOf(phases - {o});
    if o != m {
      Less(phases, o);
      Less(phases, m);
      AheadOfOne(phases - {o}, m);
      AheadOfOne(phases - {m}, o);
      assert phases - {o} - {m} == phases - {m} - {o};
    }
  }

  lemma AheadOfMoved(phases: map<Member, Phase>, m: Member, phase: Phase)
    requires m in phases
    ensures AheadOf(phases[m := phase]) == AheadOf(phases) - Ahead(phases[m]) + Ahead(phase)
  {
    AheadOfOne(phases, m);
    AheadOfOne(phases[m := phase], m);
    assert phases[m := phase] - {m} == phases - {m};
  }

  ghost function StepsAhead(w: Window): nat {
    AheadOf(w.phases) + (if w.begin.NotBegun? then 2 else if w.begin.Beginning? then 1 else 0) + if w.done then 0 else 1
  }

  // Every step brings the batch nearer its end.
  lemma StepsRunOut(w: Window, s: Step)
    requires w.Valid() && Possible(w, s)
    ensures StepsAhead(Next(w, s)) < StepsAhead(w)
  {
    hide Window.Valid;
    match s
    case Reach(m) => AheadOfMoved(w.phases, m, Waiting);
    case Skip(m) => AheadOfMoved(w.phases, m, Archiving(false));
    case Quit(m) => AheadOfMoved(w.phases, m, Over);
    case Proceed(m) => AheadOfMoved(w.phases, m, if w.begin == Stopped then Archiving(true) else Over);
    case Archive(m) => AheadOfMoved(w.phases, m, Arrived);
    case Resume(m) => AheadOfMoved(w.phases, m, Storing);
    case Finish(m) => AheadOfMoved(w.phases, m, Over);
    case _ =>
  }

  // What can be done next for `m`, whatever the others do: its own step, or
  // the one it waits for.
  function Unblocking(w: Window, m: Member): Step
    requires m in w.phases
  {
    match w.phases[m]
    case Preparing => Reach(m)
    case Waiting => if w.begin.Beginning? then Stop(true) else Proceed(m)
    case Archiving(_) => Archive(m)
    case Arrived => if w.done then Resume(m) else Restart
    case Storing => Finish(m)
    case Over => Finish(m)
  }

  // No backup waits forever: while one isn't over, it can go on, or what it
  // waits for can happen, or another backup that it waits for can.
  lemma NeverStuck(w: Window, m: Member)
    requires w.Valid() && m in w.phases && w.phases[m] != Over
    ensures exists o | o in w.phases :: w.phases[o] != Over && Possible(w, Unblocking(w, o))
  {
    if w.phases[m] == Arrived && !w.restarting {
      var o :| o in w.phases && o !in w.left;
      assert w.phases[o] != Over && Possible(w, Unblocking(w, o));
    } else {
      assert Possible(w, Unblocking(w, m));
    }
  }

  // A batch can always be brought to its end, its Apps started again.
  lemma Settles(w: Window) returns (steps: seq<Step>)
    requires w.Valid() && w.phases != map[]
    ensures var end := Run(w, steps);
            end.done && end.restarts == 1 && forall m | m in w.phases :: m in end.phases && end.phases[m] == Over
    decreases StepsAhead(w)
  {
    if m :| m in w.phases && w.phases[m] != Over {
      NeverStuck(w, m);
      var o :| o in w.phases && w.phases[o] != Over && Possible(w, Unblocking(w, o));
      var step := Unblocking(w, o);
      NextKeeps(w, step);
      NextKeepsMembers(w, step);
      StepsRunOut(w, step);
      var rest := Settles(Next(w, step));
      steps := [step] + rest;
      assert steps[1..] == rest;
    } else if w.done {
      steps := [];
    } else {
      NextKeeps(w, Restart);
      steps := [Restart];
      assert Run(w, steps) == Run(Next(w, Restart), []);
    }
  }
}
