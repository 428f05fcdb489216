/** The Apps a stopped backup owes a start (`backups.ts`): the journal kept of
    them through failures and crashes, and what is started again. */
module StoppedApps {
  import opened Options

  type App = string
  type Task = string

  // An App as it was stopped: the revision of its power then.
  datatype Entry = Entry(app: App, revision: nat)

  // How the next thing asked goes. One that doesn't go through may have
  // (`reached`) taken effect. `changed` are the Apps whose power people change
  // meanwhile.
  datatype Fate = Works | Throws(reached: bool) | Crashes(reached: bool)
  datatype Turn = Turn(fate: Fate, changed: set<App>)

  datatype Outcome = Done | Threw | Crashed

  const WORKS := Turn(Works, {})

  // How the `i`th thing asked goes. All works after those told.
  function TurnAt(turns: seq<Turn>, i: nat): Turn {
    if i < |turns| then turns[i] else WORKS
  }

  // `count` things go well from then on, and nobody changes anything.
  predicate Calm(turns: seq<Turn>, from: nat, count: nat) {
    forall i | from <= i < from + count :: TurnAt(turns, i) == WORKS
  }

  // Of what was asked in between only the last crashed, if `crashed`.
  ghost predicate Asked(turns: seq<Turn>, from: nat, until: nat, crashed: bool) {
    && from <= until && (crashed ==> from < until)
    && forall i | from <= i < until :: TurnAt(turns, i).fate.Crashes? <==> crashed && i == until - 1
  }

  // Whether what is asked takes effect.
  predicate TakesEffect(turn: Turn) {
    turn.fate.Works? || turn.fate.reached
  }

  function Ended(turn: Turn): (outcome: Outcome)
    ensures outcome == Done <==> turn.fate.Works?
    ensures outcome == Crashed <==> turn.fate.Crashes?
  {
    if turn.fate.Works? then Done else if turn.fate.Throws? then Threw else Crashed
  }

  datatype Owed = Owed(task: Task, entry: Entry)

  // A start, the revision noted as the App was stopped, and its own then.
  datatype Start = AtRevision(entry: Entry, revision: nat)

  // How trying to start an App again went.
  datatype Attempt = Unowed | Started | Unread | Unstarted | Down

  function AppsOf(entries: seq<Entry>): set<App> {
    set entry | entry in entries :: entry.app
  }

  function AppsIn(apps: seq<App>): set<App> {
    set app | app in apps
  }

  // What `task` owes once it has stopped these.
  function OwedTo(task: Task, entries: seq<Entry>): set<Owed> {
    set entry | entry in entries :: Owed(task, entry)
  }

  // What is still owed once Apps of these have started.
  function StillOwing(owed: set<Owed>, apps: set<App>): set<Owed> {
    set o | o in owed && o.entry.app !in apps
  }

  lemma OneMore(task: Task, owed: set<Owed>, entries: seq<Entry>, i: nat)
    requires i < |entries|
    ensures entries[i] in entries && entries[..i + 1] == entries[..i] + [entries[i]]
    ensures AppsOf(entries[..i + 1]) == AppsOf(entries[..i]) + {entries[i].app}
    ensures OwedTo(task, entries[..i + 1]) == OwedTo(task, entries[..i]) + {Owed(task, entries[i])}
    ensures StillOwing(owed, AppsOf(entries[..i + 1])) ==
            StillOwing(StillOwing(owed, AppsOf(entries[..i])), {entries[i].app})
  {
  }

  // A batch's one App is found running and noted, won't stop, and then won't
  // start.
  const UNLUCKY: seq<Turn> := [WORKS, WORKS, WORKS, Turn(Throws(true), {}), WORKS, Turn(Throws(false), {})]

  // An App that won't stop, partly stopped, and then won't start again.
  ghost predicate Unlucky(turns: seq<Turn>, from: nat) {
    && TurnAt(turns, from) == Turn(Throws(true), {}) && TurnAt(turns, from + 1) == WORKS
    && TurnAt(turns, from + 2) == Turn(Throws(false), {})
    && TurnAt(turns, from + 3) == WORKS && TurnAt(turns, from + 4) == WORKS
  }

  // What there is of Apps' power, what has been asked, and what is owed.
  datatype Facts = Facts(asked: nat, revisions: map<App, nat>, running: set<App>, owed: set<Owed>) {
    function Revision(app: App): nat {
      if app in revisions then revisions[app] else 0
    }

    // Whether nobody has changed the App's power since.
    predicate StillOwed(entry: Entry) {
      Revision(entry.app) == entry.revision
    }

    predicate Noted(entries: seq<Entry>) {
      forall entry | entry in entries :: entry.revision <= Revision(entry.app)
    }

    predicate AllOwed(entries: seq<Entry>) {
      forall entry | entry in entries :: StillOwed(entry)
    }

    // No App the task owes a start, unchanged since, is missing of `entries`.
    ghost predicate OwedIn(task: Task, entries: seq<Entry>) {
      forall o | o in owed && o.task == task && StillOwed(o.entry) :: o.entry in entries
    }

    // The Apps that run, or are owed a start.
    ghost function Kept(): set<App> {
      running + set o | o in owed :: o.entry.app
    }

    ghost predicate Fits() {
      forall o | o in owed :: o.entry.revision <= Revision(o.entry.app)
    }
  }

  // Revisions only grow, so an App whose power changed stays changed.
  ghost predicate Since(a: Facts, b: Facts) {
    forall app :: a.Revision(app) <= b.Revision(app)
  }

  // What happens as Apps start: none that ran or is owed a start is forgotten.
  ghost predicate Starting(turns: seq<Turn>, a: Facts, b: Facts, crashed: bool) {
    && Since(a, b) && Asked(turns, a.asked, b.asked, crashed)
    && b.owed <= a.owed && a.running <= b.running && a.Kept() <= b.Kept()
  }

  lemma StartingOn(turns: seq<Turn>, a: Facts, b: Facts, c: Facts, crashed: bool)
    requires Starting(turns, a, b, false) && Starting(turns, b, c, crashed)
    ensures Starting(turns, a, c, crashed)
  {
    AskedOn(turns, a.asked, b.asked, c.asked, crashed);
  }

  lemma NotedStill(a: Facts, b: Facts, entries: seq<Entry>)
    requires Since(a, b) && a.Noted(entries)
    ensures b.Noted(entries)
  {
  }

  lemma SinceOn(a: Facts, b: Facts, c: Facts)
    requires Since(a, b) && Since(b, c)
    ensures Since(a, c)
  {
  }

  // Trying to start an App again. Its power is read first, and nobody is asked
  // to start one whose power had changed by then.
  ghost predicate Attempted(turns: seq<Turn>, a: Facts, b: Facts, entry: Entry, attempt: Attempt) {
    var read, next := TurnAt(turns, a.asked), TurnAt(turns, a.asked + 1);
    var revision := a.Revision(entry.app) + if entry.app in read.changed then 1 else 0;
    if !read.fate.Works? || revision != entry.revision then
      && b.running == a.running && b.owed == a.owed && b.asked == a.asked + 1
      && attempt == (if read.fate.Works? then Unowed else if read.fate.Throws? then Unread else Down)
      && (read.changed == {} ==> b.revisions == a.revisions)
      && (attempt == Unowed ==> !b.StillOwed(entry))
    else
      && b.asked == a.asked + 2
      && attempt == (if next.fate.Works? then Started else if next.fate.Throws? then Unstarted else Down)
      && b.running == (if TakesEffect(next) then a.running + {entry.app} else a.running)
      && b.owed == (if TakesEffect(next) then StillOwing(a.owed, {entry.app}) else a.owed)
      && (read.changed == {} && next.changed == {} ==> b.revisions == a.revisions)
  }

  lemma OwedNext(
    turns: seq<Turn>, a: Facts, b: Facts, task: Task, entries: seq<Entry>, i: nat, unstarted: seq<Entry>,
    attempt: Attempt)
    requires i < |entries| && a.OwedIn(task, unstarted + entries[i..]) && a.Fits() && Since(a, b)
    requires Attempted(turns, a, b, entries[i], attempt) && attempt in {Unowed, Started, Unstarted}
    ensures b.OwedIn(task, (if attempt == Unstarted then unstarted + [entries[i]] else unstarted) + entries[i + 1..])
  {
    EntryFirst(entries, i);
  }

  lemma OwedStill(a: Facts, b: Facts, task: Task, entries: seq<Entry>)
    requires a.OwedIn(task, entries) && a.Fits() && Since(a, b) && b.owed <= a.owed
    ensures b.OwedIn(task, entries)
  {
  }

  // As all these Apps are started, and nothing fails.
  ghost function AllStarted(a: Facts, entries: seq<Entry>): Facts {
    Facts(a.asked + 2 * |entries|, a.revisions, a.running + AppsOf(entries), StillOwing(a.owed, AppsOf(entries)))
  }

  lemma NoneStarted(a: Facts, entries: seq<Entry>)
    ensures entries[..0] == [] && AllStarted(a, []) == a && entries[..|entries|] == entries
  {
  }

  lemma StartedNext(turns: seq<Turn>, a: Facts, b: Facts, entries: seq<Entry>, i: nat, attempt: Attempt)
    requires i < |entries| && a.AllOwed(entries) && Calm(turns, a.asked, 2 * |entries| + 1)
    requires Attempted(turns, AllStarted(a, entries[..i]), b, entries[i], attempt)
    ensures attempt == Started && b == AllStarted(a, entries[..i + 1])
  {
    OneMore("", a.owed, entries, i);
    var from := a.asked + 2 * i;
    assert TurnAt(turns, from) == WORKS && TurnAt(turns, from + 1) == WORKS;
  }

  // The one App there is to start won't.
  predicate WontStart(turns: seq<Turn>, a: Facts, entries: seq<Entry>) {
    && |entries| == 1 && a.StillOwed(entries[0]) && TurnAt(turns, a.asked) == WORKS
    && TurnAt(turns, a.asked + 1) == Turn(Throws(false), {}) && TurnAt(turns, a.asked + 2) == WORKS
  }

  lemma WontStartThen(turns: seq<Turn>, a: Facts, b: Facts, entries: seq<Entry>, attempt: Attempt)
    requires WontStart(turns, a, entries) && Attempted(turns, a, b, entries[0], attempt)
    ensures attempt == Unstarted && b == Later(a, 2)
  {
  }

  // The same, with this much more asked.
  function Later(f: Facts, more: nat): Facts {
    f.(asked := f.asked + more)
  }

  // What happens in between, whatever it does to the Apps.
  ghost predicate Going(turns: seq<Turn>, a: Facts, b: Facts, crashed: bool) {
    Since(a, b) && Asked(turns, a.asked, b.asked, crashed)
  }

  lemma GoingOn(turns: seq<Turn>, a: Facts, b: Facts, c: Facts, crashed: bool)
    requires Going(turns, a, b, false) && Going(turns, b, c, crashed)
    ensures Going(turns, a, c, crashed)
  {
    SinceOn(a, b, c);
    AskedOn(turns, a.asked, b.asked, c.asked, crashed);
  }

  lemma GoingOnce(turns: seq<Turn>, a: Facts, b: Facts, c: Facts, crashed: bool)
    requires Going(turns, a, b, false) && Since(b, c)
    requires c.asked == b.asked + 1 && (crashed <==> TurnAt(turns, b.asked).fate.Crashes?)
    ensures Going(turns, a, c, crashed)
  {
    assert Asked(turns, b.asked, c.asked, crashed);
    GoingOn(turns, a, b, c, crashed);
  }

  lemma StartingGoes(turns: seq<Turn>, a: Facts, b: Facts, crashed: bool)
    requires Starting(turns, a, b, crashed)
    ensures Going(turns, a, b, crashed) && Since(a, b) && a.Kept() <= b.Kept() && b.owed <= a.owed
  {
  }

  lemma GoesNowhere(turns: seq<Turn>, a: Facts)
    ensures Going(turns, a, a, false)
  {
  }

  // As all these Apps are stopped, and owed a start if `restart`.
  ghost function AllStopped(f: Facts, task: Task, entries: seq<Entry>, restart: bool): Facts {
    Facts(f.asked + |entries|, f.revisions, f.running - AppsOf(entries),
          if restart then f.owed + OwedTo(task, entries) else f.owed)
  }

  lemma StoppedNext(
    turns: seq<Turn>, f: Facts, task: Task, entries: seq<Entry>, restart: bool, i: nat, owed: set<Owed>)
    requires i < |entries|
    requires owed == if restart then f.owed + OwedTo(task, entries[..i]) else f.owed
    ensures entries[i] in entries && entries[..i + 1] == entries[..i] + [entries[i]]
    ensures f.running - AppsOf(entries[..i + 1]) == f.running - AppsOf(entries[..i]) - {entries[i].app}
    ensures (if restart then f.owed + OwedTo(task, entries[..i + 1]) else f.owed) ==
            if restart then owed + {Owed(task, entries[i])} else owed
  {
    OneMore(task, f.owed, entries, i);
  }

  lemma CalmMore(turns: seq<Turn>, from: nat, i: nat, count: nat)
    ensures i < count && Calm(turns, from, count) ==> TurnAt(turns, from + i) == WORKS && Calm(turns, from, i + 1)
    ensures Calm(turns, from, i + 1) <==> Calm(turns, from, i) && TurnAt(turns, from + i) == WORKS
  {
  }

  lemma NoneStopped(f: Facts, task: Task, entries: seq<Entry>, restart: bool)
    ensures entries[..0] == [] && entries[..|entries|] == entries && AllStopped(f, task, [], restart) == f
  {
  }

  lemma CalmAt(turns: seq<Turn>, from: nat, count: nat, i: nat)
    requires Calm(turns, from, count) && i < count
    ensures TurnAt(turns, from + i) == WORKS
  {
  }

  // The parts of what goes well as Apps are found, noted and stopped.
  lemma {:induction false} CalmBefore(turns: seq<Turn>, from: nat, apps: seq<App>, running: set<App>, restart: bool)
    ensures Calm(turns, from, StopAsks(apps, running, restart)) ==>
              && Calm(turns, from, RunningAsks(apps, running))
              && Calm(turns, from + NotingAsks(apps, running, restart), |Among(apps, running)|)
              && (restart && Among(apps, running) != [] ==> TurnAt(turns, from + |apps| + 1) == WORKS)
    ensures Calm(turns, from, |apps| + 2) ==>
              Calm(turns, from, RunningAsks(apps, running)) && TurnAt(turns, from + |apps| + 1) == WORKS
  {
  }

  // Those of `apps` that run, in order.
  function Among(apps: seq<App>, running: set<App>): seq<App> {
    if apps == [] then []
    else
      var last := |apps| - 1;
      Among(apps[..last], running) + if apps[last] in running then [apps[last]] else []
  }

  lemma {:induction false} AmongAre(apps: seq<App>, running: set<App>)
    ensures AppsIn(Among(apps, running)) == AppsIn(apps) * running && |Among(apps, running)| <= |apps|
    ensures AppsIn(apps) <= running ==> Among(apps, running) == apps
  {
    if apps != [] {
      var last := |apps| - 1;
      AmongAre(apps[..last], running);
      assert AppsIn(apps) == AppsIn(apps[..last]) + {apps[last]};
      assert AppsIn(Among(apps, running)) ==
             AppsIn(Among(apps[..last], running)) + if apps[last] in running then {apps[last]} else {};
    }
  }

  // `entries` are those of `apps` that run, with their revisions.
  ghost predicate Notes(f: Facts, apps: seq<App>, entries: seq<Entry>) {
    && |entries| == |Among(apps, f.running)|
    && forall i | 0 <= i < |entries| ::
         entries[i] == Entry(Among(apps, f.running)[i], f.Revision(Among(apps, f.running)[i]))
  }

  lemma {:induction false} NotesSay(f: Facts, apps: seq<App>, entries: seq<Entry>)
    requires Notes(f, apps, entries)
    ensures AppsOf(entries) == AppsIn(apps) * f.running && |entries| == |Among(apps, f.running)| <= |apps|
    ensures AppsIn(apps) <= f.running ==>
              |entries| == |apps| && forall i | 0 <= i < |apps| :: entries[i] == Entry(apps[i], f.Revision(apps[i]))
    ensures f.Noted(entries) && f.AllOwed(entries) && f.running - AppsOf(entries) == f.running - AppsIn(apps)
  {
    var among := Among(apps, f.running);
    AmongAre(apps, f.running);
    hide Among;
    forall app ensures app in AppsOf(entries) <==> app in AppsIn(among) {
      if app in AppsIn(among) {
        var i :| 0 <= i < |among| && among[i] == app;
        assert entries[i] in entries;
      }
    }
  }

  // What is asked to find those that run, before any is stopped, and in all.
  function RunningAsks(apps: seq<App>, running: set<App>): nat {
    if Among(apps, running) == [] then |apps| else |apps| + 1
  }

  function NotingAsks(apps: seq<App>, running: set<App>, restart: bool): nat {
    if Among(apps, running) == [] then |apps| else |apps| + if restart then 2 else 1
  }

  function StopAsks(apps: seq<App>, running: set<App>, restart: bool): nat {
    NotingAsks(apps, running, restart) + |Among(apps, running)|
  }

  lemma {:induction false} AskedToStop(apps: seq<App>, running: set<App>, restart: bool)
    ensures StopAsks(apps, running, restart) == NotingAsks(apps, running, restart) + |Among(apps, running)|
    ensures AppsIn(Among(apps, running)) == AppsIn(apps) * running
  {
    AmongAre(apps, running);
  }

  // The App stopped after `k` others won't stop; and then all goes well.
  ghost predicate WontStop(turns: seq<Turn>, from: nat, k: nat) {
    && Calm(turns, from, k) && TurnAt(turns, from + k).fate.Throws? && TurnAt(turns, from + k).changed == {}
    && Calm(turns, from + k + 1, 2 * (k + 1) + 1)
  }

  // `f` is `start` with `k` Apps of `entries` stopped, and the next too if
  // `partly`, and `g` that with all of these started.
  lemma StartedBack(start: Facts, f: Facts, g: Facts, task: Task, entries: seq<Entry>, k: nat, partly: bool)
    requires k < |entries|
    requires var all := entries[..if partly then k + 1 else k];
             f.running == start.running - AppsOf(all) && f.owed == start.owed + OwedTo(task, all)
    ensures g == Later(AllStarted(f, entries[..k + 1]), 1) && AppsOf(entries) <= start.running ==>
              g.running == start.running && g.owed <= start.owed
  {
    OneMore(task, start.owed, entries, k);
    assert AppsOf(entries[..k + 1]) <= AppsOf(entries);
  }

  predicate Working(turns: seq<Turn>, from: nat, count: nat) {
    forall i | from <= i < from + count :: TurnAt(turns, i).fate.Works?
  }

  lemma WorkingOn(turns: seq<Turn>, from: nat, i: nat)
    ensures Working(turns, from, 0)
    ensures Working(turns, from, i + 1) <==> Working(turns, from, i) && TurnAt(turns, from + i).fate.Works?
  {
  }

  lemma UnluckyEnds(turns: seq<Turn>, from: nat)
    requires Unlucky(turns, from)
    ensures TurnAt(turns, from + 4) == WORKS
  {
  }

  // The same once as many Apps have been found to run, and noted.
  ghost predicate WontStopAfter(turns: seq<Turn>, from: nat, count: nat, k: nat) {
    WontStop(turns, from + count + 2, k)
  }

  lemma CalmSays(turns: seq<Turn>, from: nat, count: nat, i: nat)
    ensures Calm(turns, from, count) && i < count ==> TurnAt(turns, from + i) == WORKS
  {
  }

  lemma WorkingSays(turns: seq<Turn>, from: nat, count: nat, i: nat)
    ensures Working(turns, from, count) && i < count ==> TurnAt(turns, from + i).fate.Works?
  {
  }

  // Where stopping Apps ends.
  lemma HowStopped(turns: seq<Turn>, from: nat, i: nat, count: nat)
    requires Working(turns, from, i) && i <= count
    requires i < count ==> !TurnAt(turns, from + i).fate.Works?
    ensures forall k: nat | k < count && WontStop(turns, from, k) ::
              && k == i && TurnAt(turns, from + i).fate.Throws? && TurnAt(turns, from + i).changed == {}
              && Calm(turns, from, i) && Calm(turns, from + i + 1, 2 * (i + 1) + 1)
    ensures Calm(turns, from, count) ==> i == count
    ensures Unlucky(turns, from) && count > 0 ==> i == 0 && TurnAt(turns, from) == Turn(Throws(true), {})
    ensures Calm(turns, from, 0)
  {
    assert Calm(turns, from, count) ==> Working(turns, from, count);
    forall k: nat ensures k < count && WontStop(turns, from, k) ==> k == i {
      CalmSays(turns, from, k, i);
      WorkingSays(turns, from, i, k);
    }
  }

  // What is owed is what was, and what has been stopped.
  lemma OwedToIn(f: Facts, owed: set<Owed>, task: Task, entries: seq<Entry>)
    requires f.owed <= owed + OwedTo(task, entries) && forall o | o in owed :: o.task != task
    ensures f.OwedIn(task, entries)
  {
  }

  lemma NotedSome(f: Facts, entries: seq<Entry>, i: nat)
    requires i <= |entries|
    ensures f.Noted(entries) ==> f.Noted(entries[..i])
    ensures f.AllOwed(entries) ==> f.AllOwed(entries[..i])
  {
  }

  lemma NoneOwed(f: Facts)
    ensures f.AllOwed([]) && f.Noted([])
  {
  }

  lemma KeptSame(a: Facts, b: Facts)
    requires a.running == b.running && a.owed == b.owed
    ensures a.Kept() == b.Kept()
  {
  }

  lemma SameRevisions(a: Facts, b: Facts, entries: seq<Entry>)
    requires a.revisions == b.revisions
    ensures a.AllOwed(entries) <==> b.AllOwed(entries)
  {
  }

  lemma UnluckyTurns(turns: seq<Turn>, f: Facts, g: Facts, entries: seq<Entry>)
    requires Unlucky(turns, f.asked) && |entries| == 1 && f.StillOwed(entries[0]) && f.revisions == g.revisions
    requires g.asked == f.asked + 1
    ensures WontStart(turns, g, entries)
  {
  }

  // The archives made meanwhile, which may fail.
  ghost predicate Archiving(turns: seq<Turn>, from: nat, count: nat) {
    forall i | from <= i < from + count :: !TurnAt(turns, i).fate.Crashes? && TurnAt(turns, i).changed == {}
  }

  lemma ArchivingOn(turns: seq<Turn>, from: nat, count: nat, i: nat)
    requires Archiving(turns, from, count) && i < count
    ensures !TurnAt(turns, from + i).fate.Crashes? && TurnAt(turns, from + i).changed == {}
  {
  }

  // All goes well from then on, and nobody changes anything.
  predicate Quiet(turns: seq<Turn>, from: nat) {
    forall i | from <= i < |turns| :: turns[i] == WORKS
  }

  lemma QuietIsCalm(turns: seq<Turn>, from: nat, later: nat, count: nat)
    requires Quiet(turns, from) && from <= later
    ensures Calm(turns, later, count) && Quiet(turns, later) && TurnAt(turns, later) == WORKS
  {
  }

  // The Apps of these that nobody has changed.
  function Due(f: Facts, entries: seq<Entry>): set<App> {
    set entry | entry in entries && f.StillOwed(entry) :: entry.app
  }

  lemma DueNext(f: Facts, entries: seq<Entry>, i: nat)
    requires i < |entries|
    ensures Due(f, entries[..i + 1]) == Due(f, entries[..i]) + if f.StillOwed(entries[i]) then {entries[i].app} else {}
    ensures Due(f, []) == {} && entries[..0] == [] && entries[..|entries|] == entries
  {
    assert entries[..i + 1] == entries[..i] + [entries[i]];
  }

  lemma QuietAttempt(turns: seq<Turn>, from: nat, a: Facts, b: Facts, entry: Entry, attempt: Attempt)
    requires Quiet(turns, from) && from <= a.asked && Attempted(turns, a, b, entry, attempt)
    ensures attempt in {Unowed, Started} && b.revisions == a.revisions
    ensures b.running == a.running + if a.StillOwed(entry) then {entry.app} else {}
  {
    QuietIsCalm(turns, from, a.asked, 2);
    QuietIsCalm(turns, from, a.asked + 1, 1);
  }

  lemma DueSame(a: Facts, b: Facts, entries: seq<Entry>)
    requires a.revisions == b.revisions
    ensures Due(a, entries) == Due(b, entries)
  {
  }

  // All that was due a start, but for `left`'s, and nothing else, has started.
  ghost predicate DueStarted(start: Facts, journal: map<Task, seq<Entry>>, left: set<Task>, running: set<App>) {
    && (forall task | task in journal && task !in left :: Due(start, journal[task]) <= running)
    && forall app | app in running && app !in start.running ::
         exists task :: task in journal && app in Due(start, journal[task])
  }

  lemma DueStartedNone(start: Facts, journal: map<Task, seq<Entry>>)
    ensures DueStarted(start, journal, journal.Keys, start.running)
  {
  }

  lemma DueStartedNext(start: Facts, journal: map<Task, seq<Entry>>, left: set<Task>, task: Task, running: set<App>)
    requires DueStarted(start, journal, left + {task}, running) && task in journal
    ensures DueStarted(start, journal, left, running + Due(start, journal[task]))
  {
    hide Due;
  }

  class Power {
    const turns: seq<Turn>        // how what is asked goes
    var asked: nat                // how much has been asked
    var revisions: map<App, nat>
    var running: set<App>
    var journal: map<Task, seq<Entry>>
    ghost var owed: set<Owed>     // the Apps stopped and not started again
    ghost var starts: seq<Start>

    constructor (revisions: map<App, nat>, running: set<App>, turns: seq<Turn>)
      ensures Valid() && owed == {} && journal == map[] && starts == [] && asked == 0
      ensures this.revisions == revisions && this.running == running && this.turns == turns
    {
      this.revisions, this.running, this.turns, asked := revisions, running, turns, 0;
      journal, owed, starts := map[], {}, [];
    }

    // How what is asked next goes.
    function Next(): Turn
      reads this`asked
    {
      TurnAt(turns, asked)
    }

    ghost function Now(): Facts
      reads this
    {
      Facts(asked, revisions, running, owed)
    }

    function Revision(app: App): nat
      reads this`revisions
    {
      if app in revisions then revisions[app] else 0
    }

    predicate StillOwed(entry: Entry)
      reads this`revisions
    {
      Revision(entry.app) == entry.revision
    }

    ghost predicate Journaled(o: Owed)
      reads this`journal
    {
      o.task in journal && o.entry in journal[o.task]
    }

    // Every App stopped and not started again is in its task's journal, unless
    // its power has changed since, and none was started after it had.
    ghost predicate Covered()
      reads this`journal, this`owed, this`revisions
    {
      forall o | o in owed && StillOwed(o.entry) :: Journaled(o)
    }

    ghost predicate Valid()
      reads this
    {
      && Covered() && (forall task | task in journal :: Now().Noted(journal[task])) && Now().Fits()
      && (forall s | s in starts :: s.revision == s.entry.revision)
    }

    // People's changes, and how what is asked goes.
    method Ask() returns (turn: Turn)
      requires Valid()
      modifies this`revisions, this`asked
      ensures Valid() && Since(old(Now()), Now()) && turn == old(Next()) && asked == old(asked) + 1
      ensures forall app :: Revision(app) == old(Revision(app)) + if app in turn.changed then 1 else 0
      ensures turn.changed == {} ==> revisions == old(revisions)
    {
      turn, asked := TurnAt(turns, asked), asked + 1;
      ghost var before := revisions;
      revisions := revisions + map app | app in turn.changed :: Revision(app) + 1;
      assert turn.changed == {} ==> revisions == before;
    }

    // A write that replaces a task's journal whole, or doesn't happen.
    method WriteJournal(task: Task, entries: seq<Entry>) returns (outcome: Outcome)
      requires Valid() && Now().Noted(entries) && Now().OwedIn(task, entries)
      modifies this`revisions, this`asked, this`journal
      ensures Valid() && Since(old(Now()), Now()) && asked == old(asked) + 1 && outcome == Ended(old(Next()))
      ensures journal == if TakesEffect(old(Next())) then old(journal)[task := entries] else old(journal)
      ensures old(Next()).changed == {} ==> revisions == old(revisions)
    {
      var turn := Ask();
      if TakesEffect(turn) { journal := journal[task := entries]; }
      outcome := Ended(turn);
    }

    method RemoveJournal(task: Task) returns (outcome: Outcome)
      requires Valid()
      modifies this`revisions, this`asked, this`journal
      ensures Since(old(Now()), Now()) && asked == old(asked) + 1 && outcome == Ended(old(Next()))
      ensures journal == if TakesEffect(old(Next())) then old(journal) - {task} else old(journal)
      ensures old(Next()).changed == {} ==> revisions == old(revisions)
      // The Apps owed a start stay so exactly if the journal holds none whose
      // power is unchanged, or isn't removed after all.
      ensures Valid() <==> journal == old(journal) || forall o | o in owed && o.task == task :: !StillOwed(o.entry)
    {
      var turn := Ask();
      if TakesEffect(turn) {
        journal := journal - {task};
        if o :| o in owed && o.task == task && StillOwed(o.entry) {
          assert !Journaled(o);
        }
      }
      outcome := Ended(turn);
    }

    // The journal as `entries`, or gone if there are none, or left as it was.
    method KeepStopped(task: Task, entries: seq<Entry>) returns (outcome: Outcome)
      requires Valid() && Now().Noted(entries) && Now().OwedIn(task, entries)
      modifies this`revisions, this`asked, this`journal
      ensures Valid() && Since(old(Now()), Now()) && asked == old(asked) + 1
      ensures outcome == if Ended(old(Next())) == Crashed then Crashed else Done
      ensures journal == if !TakesEffect(old(Next())) then old(journal)
                         else if entries != [] then old(journal)[task := entries]
                         else old(journal) - {task}
      ensures old(Next()).changed == {} ==> revisions == old(revisions)
    {
      if entries != [] {
        outcome := WriteJournal(task, entries);
      } else {
        outcome := RemoveJournal(task);
      }
      if outcome == Threw { outcome := Done; }
    }

    // Stops an App; one that fails to stop may be partly stopped.
    method Stop(task: Task, entry: Entry, restart: bool) returns (outcome: Outcome)
      requires Valid() && entry.revision <= Revision(entry.app)
      requires restart ==> task in journal && entry in journal[task]
      modifies this`revisions, this`asked, this`running, this`owed
      ensures Valid() && Since(old(Now()), Now()) && asked == old(asked) + 1 && outcome == Ended(old(Next()))
      ensures running == if TakesEffect(old(Next())) then old(running) - {entry.app} else old(running)
      ensures owed == if TakesEffect(old(Next())) && restart then old(owed) + {Owed(task, entry)} else old(owed)
      ensures old(Next()).changed == {} ==> revisions == old(revisions)
      ensures restart ==> old(Now()).Kept() <= Now().Kept()
    {
      var turn := Ask();
      if TakesEffect(turn) {
        running := running - {entry.app};
        if restart {
          owed := owed + {Owed(task, entry)};
          assert Owed(task, entry) in owed;
        }
      }
      outcome := Ended(turn);
    }

    // Asks for an App to be started.
    method Start(entry: Entry) returns (turn: Turn)
      requires Valid() && StillOwed(entry)
      modifies this`revisions, this`asked, this`running, this`owed, this`starts
      ensures Valid() && Since(old(Now()), Now()) && asked == old(asked) + 1 && turn == old(Next())
      ensures starts == old(starts) + [AtRevision(entry, entry.revision)]
      ensures running == if TakesEffect(turn) then old(running) + {entry.app} else old(running)
      ensures owed == if TakesEffect(turn) then StillOwing(old(owed), {entry.app}) else old(owed)
      ensures turn.changed == {} ==> revisions == old(revisions)
    {
      starts := starts + [AtRevision(entry, Revision(entry.app))];
      turn := Ask();
      if TakesEffect(turn) {
        running := running + {entry.app};
        owed := StillOwing(owed, {entry.app});
      }
    }

    // Starts an App again, if it is still owed that.
    method StartIfOwed(entry: Entry) returns (attempt: Attempt)
      requires Valid() && entry.revision <= Revision(entry.app)
      modifies this`revisions, this`asked, this`running, this`owed, this`starts
      ensures Valid() && Starting(turns, old(Now()), Now(), attempt == Down)
      ensures Attempted(turns, old(Now()), Now(), entry, attempt)
      ensures attempt == Unread ==> asked == old(asked) + 1 && TurnAt(turns, old(asked)).fate.Throws?
      ensures starts ==
              old(starts) + if asked == old(asked) + 1 then [] else [AtRevision(entry, entry.revision)]
    {
      hide Power.Covered;
      ghost var before := Now();
      var read := Ask();
      if !read.fate.Works? { return if read.fate.Throws? then Unread else Down; }
      if !StillOwed(entry) { return Unowed; }
      var turn := Start(entry);
      StartKeeps(before, Now(), entry);
      attempt := if turn.fate.Works? then Started else if turn.fate.Throws? then Unstarted else Down;
    }

    // Starts the Apps a backup stopped again, all but those whose power people
    // changed since. Those that won't start stay in its journal.
    method StartApps(task: Task, entries: seq<Entry>) returns (outcome: Outcome, warnings: nat)
      requires Valid() && Now().Noted(entries) && Now().OwedIn(task, entries)
      modifies this`revisions, this`asked, this`running, this`journal, this`owed, this`starts
      ensures Valid() && Starting(turns, old(Now()), Now(), outcome == Crashed)
      ensures journal - {task} == old(journal) - {task}
      ensures outcome == Done && warnings == 0 ==> Now().OwedIn(task, [])
      ensures outcome == Threw ==> old(asked) < asked && TurnAt(turns, asked - 1).fate.Throws?
      ensures Calm(turns, old(asked), 2 * |entries| + 1) && old(Now()).AllOwed(entries) ==>
                && outcome == Done && warnings == 0 && journal == old(journal) - {task}
                && Now() == Later(AllStarted(old(Now()), entries), 1)
      ensures WontStart(turns, old(Now()), entries) ==>
                outcome == Done && warnings == 1 && Now() == Later(old(Now()), 3)
    {
      hide Power.Valid, Asked, Starting, Since, AllStarted, Facts.OwedIn, Facts.Noted, Attempted, WontStart,
        Facts.AllOwed, Calm, Facts.Fits;
      ghost var start := Now();
      var attempt, unstarted := StartEach(task, entries);
      warnings := |unstarted|;
      if attempt == Unread { return Threw, warnings; }
      if attempt == Down { return Crashed, warnings; }
      ghost var before := Now();
      ValidFits();
      AfterwardsCalm(turns, start, entries);
      outcome := KeepStopped(task, unstarted);
      LaterOnce(turns, start, before, Now(), outcome == Crashed);
      if unstarted == [] { OwedStill(before, Now(), task, []); }
    }

    // And keeps none in the journal yet.
    method StartEach(task: Task, entries: seq<Entry>) returns (attempt: Attempt, unstarted: seq<Entry>)
      requires Valid() && Now().Noted(entries) && Now().OwedIn(task, entries)
      modifies this`revisions, this`asked, this`running, this`owed, this`starts
      ensures Valid() && Starting(turns, old(Now()), Now(), attempt == Down)
      ensures attempt == Unread ==> old(asked) < asked && TurnAt(turns, asked - 1).fate.Throws?
      ensures attempt !in {Unread, Down} ==> Now().Noted(unstarted) && Now().OwedIn(task, unstarted)
      ensures Calm(turns, old(asked), 2 * |entries| + 1) && old(Now()).AllOwed(entries) ==>
                attempt == Started && unstarted == [] && Now() == AllStarted(old(Now()), entries)
      ensures WontStart(turns, old(Now()), entries) ==>
                attempt == Started && |unstarted| == 1 && Now() == Later(old(Now()), 2)
    {
      hide Power.Valid, Asked, Starting, Since, AllStarted, Facts.OwedIn, Facts.Noted, Attempted, WontStart,
        Facts.AllOwed, Calm, Facts.Fits, TurnAt;
      unstarted := [];
      ghost var start := Now();
      ghost var calm := Calm(turns, asked, 2 * |entries| + 1) && start.AllOwed(entries);
      StartsNothing(turns, start);
      NoneStarted(start, entries);
      NotedNone(start, entries);
      if WontStart(turns, start, entries) { WontStartOne(turns, start, entries); }
      for i := 0 to |entries|
        invariant Valid() && Starting(turns, start, Now(), false)
        invariant Now().OwedIn(task, unstarted + entries[i..]) && Now().Noted(entries) && Now().Noted(unstarted)
        invariant i == 0 ==> Now() == start && unstarted == []
        invariant WontStart(turns, start, entries) && i == 1 ==> Now() == Later(start, 2) && |unstarted| == 1
        invariant calm ==> Now() == AllStarted(start, entries[..i]) && unstarted == []
      {
        ghost var before := Now();
        NotedAt(before, entries, i);
        ValidFits();
        attempt := StartIfOwed(entries[i]);
        StartedOne(turns, start, before, Now(), task, entries, i, unstarted, attempt);
        if attempt == Unread || attempt == Down { return; }
        if attempt == Unstarted { unstarted := unstarted + [entries[i]]; }
      }
      assert unstarted + entries[|entries|..] == unstarted;
      attempt := Started;
    }

    lemma ValidFits()
      requires Valid()
      ensures Now().Fits() && Now() == Facts(asked, revisions, running, owed)
    {
    }

    // Those of `apps` that run, as they are.
    method RunningOf(apps: seq<App>) returns (outcome: Outcome, entries: seq<Entry>)
      requires Valid()
      modifies this`revisions, this`asked
      ensures Valid() && Going(turns, old(Now()), Now(), outcome == Crashed)
      ensures outcome == Done ==> Notes(Now(), apps, entries)
      ensures Calm(turns, old(asked), RunningAsks(apps, running)) ==>
                outcome == Done && Now() == Later(old(Now()), RunningAsks(apps, running))
    {
      hide Power.Valid, Asked, Since, Calm, Going;
      ghost var start := Now();
      GoesNowhere(turns, start);
      var candidates := [];
      entries := [];
      for i := 0 to |apps|
        invariant Valid() && Going(turns, start, Now(), false)
        invariant candidates == Among(apps[..i], running)
        invariant Calm(turns, start.asked, RunningAsks(apps, running)) ==> Now() == Later(start, i)
      {
        ghost var before := Now();
        if Calm(turns, start.asked, RunningAsks(apps, running)) {
          CalmAt(turns, start.asked, RunningAsks(apps, running), i);
        }
        assert apps[..i + 1][..i] == apps[..i];
        var turn := Ask();
        GoingOnce(turns, start, before, Now(), turn.fate.Crashes?);
        if !turn.fate.Works? { return Ended(turn), []; }
        if apps[i] in running { candidates := candidates + [apps[i]]; }
      }
      assert apps[..|apps|] == apps;
      if candidates == [] { return Done, []; }
      ghost var before := Now();
      if Calm(turns, start.asked, |apps| + 1) { CalmAt(turns, start.asked, |apps| + 1, |apps|); }
      var read := Ask();
      GoingOnce(turns, start, before, Now(), read.fate.Crashes?);
      if !read.fate.Works? { return Ended(read), []; }
      outcome := Done;
      entries := Note(candidates);
    }

    // Apps with their revisions.
    method Note(apps: seq<App>) returns (entries: seq<Entry>)
      ensures |entries| == |apps| && forall i | 0 <= i < |apps| :: entries[i] == Entry(apps[i], Revision(apps[i]))
    {
      entries := [];
      for i := 0 to |apps|
        invariant |entries| == i && forall j | 0 <= j < i :: entries[j] == Entry(apps[j], Revision(apps[j]))
      {
        entries := entries + [Entry(apps[i], Revision(apps[i]))];
      }
    }

    // Stops those that run, journaled beforehand if they are owed a start.
    // When one won't stop, it and those before it are started at once.
    method StopApps(task: Task, apps: seq<App>, restart: bool) returns (outcome: Outcome, stopped: seq<Entry>)
      requires Valid() && forall o | o in owed :: o.task != task
      modifies this
      ensures Valid() && Going(turns, old(Now()), Now(), outcome == Crashed)
      ensures restart ==> old(Now()).Kept() <= Now().Kept()
      ensures !restart ==> owed == old(owed) && journal == old(journal) && starts == old(starts)
      ensures journal - {task} == old(journal) - {task}
      ensures outcome == Done ==>
                && Now().Noted(stopped) && Now().OwedIn(task, stopped) && running == old(running) - AppsIn(apps)
                && AppsOf(stopped) == AppsIn(apps) * old(running) && |stopped| == |Among(apps, old(running))|
                && journal == if restart && stopped != [] then old(journal)[task := stopped] else old(journal)
      ensures Calm(turns, old(asked), StopAsks(apps, old(running), restart)) ==>
                && outcome == Done && Now().AllOwed(stopped)
                && Now() ==
                   AllStopped(Later(old(Now()), NotingAsks(apps, old(running), restart)), task, stopped, restart)
      // A sole App that won't stop, and won't start again, is still owed that.
      ensures restart && |apps| == 1 && apps[0] in old(running) && Calm(turns, old(asked), 3)
              && Unlucky(turns, old(asked) + 3) ==>
                && outcome == Threw && revisions == old(revisions) && asked == old(asked) + 7
                && Owed(task, Entry(apps[0], Revision(apps[0]))) in owed
      // As one that won't stop is started again, and those before it, they run.
      ensures forall k: nat | restart && k < |apps| && AppsIn(apps) <= old(running) &&
                              Calm(turns, old(asked), |apps| + 2) && WontStopAfter(turns, old(asked), |apps|, k) ::
                outcome == Threw && running == old(running) && owed <= old(owed) && journal == old(journal) - {task}
    {
      hide Power.Valid, Asked, Since, Calm, Going, Facts.OwedIn, Facts.Noted, Facts.AllOwed, Unlucky, WontStop,
        Facts.Kept, Notes;
      ghost var start := Now();
      stopped := [];
      var entries;
      CalmBefore(turns, start.asked, apps, running, restart);
      outcome, entries := RunningOf(apps);
      KeptSame(start, Now());
      if outcome != Done { return; }
      ghost var noted := Now();
      NotesSay(noted, apps, entries);
      assert entries == [] <==> Among(apps, running) == [];
      if entries == [] {
        NoneStopped(noted, task, [], restart);
        NoneOwed(noted);
        OwedToIn(noted, owed, task, []);
        return;
      }
      if restart {
        outcome := WriteJournal(task, entries);
        GoingOnce(turns, start, noted, Now(), outcome == Crashed);
        KeptSame(start, Now());
        if outcome != Done { return; }
        NotedStill(noted, Now(), entries);
      }
      ghost var before := Now();
      if before.revisions == noted.revisions { SameRevisions(noted, before, entries); }
      outcome, stopped := StopEach(task, entries, restart);
      if Now().revisions == noted.revisions { SameRevisions(noted, Now(), entries); }
      GoingOn(turns, start, before, Now(), outcome == Crashed);
    }

    // Starts Apps again as another couldn't be stopped.
    method StartBack(task: Task, entries: seq<Entry>) returns (outcome: Outcome)
      requires Valid() && Now().Noted(entries) && Now().OwedIn(task, entries)
      modifies this`revisions, this`asked, this`running, this`journal, this`owed, this`starts
      ensures Valid() && Starting(turns, old(Now()), Now(), outcome == Crashed) && outcome != Done
      ensures journal - {task} == old(journal) - {task}
      ensures Calm(turns, old(asked), 2 * |entries| + 1) && old(Now()).AllOwed(entries) ==>
                && outcome == Threw && journal == old(journal) - {task}
                && Now() == Later(AllStarted(old(Now()), entries), 1)
      ensures WontStart(turns, old(Now()), entries) ==>
                outcome == Threw && Now() == Later(old(Now()), 3)
    {
      hide Power.Valid, Starting, Calm, Facts.OwedIn, Facts.Noted, Facts.AllOwed, WontStart, AllStarted;
      var restarted, warnings := StartApps(task, entries);
      outcome := if restarted == Crashed then Crashed else Threw;
    }

    method StopEach(task: Task, entries: seq<Entry>, restart: bool) returns (outcome: Outcome, stopped: seq<Entry>)
      requires Valid() && Now().Noted(entries) && forall o | o in owed :: o.task != task
      requires restart ==> task in journal && journal[task] == entries
      modifies this
      ensures Valid() && Going(turns, old(Now()), Now(), outcome == Crashed)
      ensures restart ==> old(Now()).Kept() <= Now().Kept()
      ensures !restart ==> owed == old(owed) && journal == old(journal) && starts == old(starts)
      ensures journal - {task} == old(journal) - {task}
      ensures outcome == Done ==>
                && stopped == entries && Now().OwedIn(task, entries) && Now().Noted(entries)
                && journal == old(journal) && running == old(running) - AppsOf(entries)
      ensures Calm(turns, old(asked), |entries|) ==>
                outcome == Done && Now() == AllStopped(old(Now()), task, entries, restart)
      ensures restart && |entries| == 1 && old(Now()).StillOwed(entries[0]) && Unlucky(turns, old(asked)) ==>
                && outcome == Threw && revisions == old(revisions) && asked == old(asked) + 4
                && Owed(task, entries[0]) in owed
      ensures forall k: nat | restart && k < |entries| && AppsOf(entries) <= old(running) &&
                              old(Now()).AllOwed(entries) && WontStop(turns, old(asked), k) ::
                outcome == Threw && running == old(running) && owed <= old(owed) && journal == old(journal) - {task}
    {
      hide Power.Valid, Asked, Since, Calm, Going, Facts.OwedIn, Facts.Noted, Facts.AllOwed, Unlucky, WontStop,
        Facts.Kept, Starting, WontStart, Working, TurnAt, AllStarted;
      ghost var start := Now();
      var count;
      outcome, count := StopSome(task, entries, restart);
      stopped := entries[..count];
      ghost var stopping := Now();
      assert entries[..|entries|] == entries;
      HowStopped(turns, start.asked, count, |entries|);
      OwedToIn(stopping, start.owed, task, entries);
      if outcome == Threw && restart {
        NotedSome(stopping, entries, count + 1);
        OneMore(task, start.owed, entries, count);
        OwedToIn(stopping, start.owed, task, entries[..count + 1]);
        outcome := StartBack(task, entries[..count + 1]);
        StartingGoes(turns, stopping, Now(), outcome == Crashed);
        GoingOn(turns, start, stopping, Now(), outcome == Crashed);
        BackAgain(turns, start, stopping, Now(), task, entries, count, outcome);
      }
    }

    // Stops Apps, until one won't.
    method StopSome(task: Task, entries: seq<Entry>, restart: bool) returns (outcome: Outcome, count: nat)
      requires Valid() && Now().Noted(entries) && forall o | o in owed :: o.task != task
      requires restart ==> task in journal && journal[task] == entries
      modifies this`revisions, this`asked, this`running, this`owed
      ensures Valid() && Going(turns, old(Now()), Now(), outcome == Crashed) && Now().Noted(entries)
      ensures restart ==> old(Now()).Kept() <= Now().Kept()
      ensures count <= |entries| && Working(turns, old(asked), count) && (outcome == Done <==> count == |entries|)
      ensures asked == old(asked) + count + if outcome == Done then 0 else 1
      ensures outcome != Done ==> outcome == Ended(TurnAt(turns, old(asked) + count))
      ensures var partly := outcome != Done && TakesEffect(TurnAt(turns, old(asked) + count));
              var all := entries[..if partly then count + 1 else count];
              && running == old(running) - AppsOf(all)
              && owed == if restart then old(owed) + OwedTo(task, all) else old(owed)
      ensures Calm(turns, old(asked), count) && (outcome == Done || TurnAt(turns, old(asked) + count).changed == {}) ==>
                revisions == old(revisions)
    {
      hide Power.Valid, Asked, Since, Calm, Going, Facts.OwedIn, Facts.Noted, Facts.Kept, Working, TurnAt;
      ghost var start := Now();
      GoesNowhere(turns, start);
      NoneStopped(start, task, entries, restart);
      WorkingOn(turns, start.asked, 0);
      outcome, count := Done, 0;
      while count < |entries|
        invariant outcome == Done && count <= |entries|
        invariant Valid() && Going(turns, start, Now(), false) && Now().Noted(entries)
        invariant running == start.running - AppsOf(entries[..count])
        invariant owed == if restart then start.owed + OwedTo(task, entries[..count]) else start.owed
        invariant restart ==> start.Kept() <= Now().Kept()
        invariant asked == start.asked + count && Working(turns, start.asked, count)
        invariant Calm(turns, start.asked, count) ==> revisions == start.revisions
      {
        ghost var before := Now();
        StoppedNext(turns, start, task, entries, restart, count, owed);
        NotedAt(before, entries, count);
        CalmMore(turns, start.asked, count, |entries|);
        WorkingOn(turns, start.asked, count);
        outcome := Stop(task, entries[count], restart);
        GoingOnce(turns, start, before, Now(), outcome == Crashed);
        NotedStill(before, Now(), entries);
        if outcome != Done { return; }
        count := count + 1;
      }
    }

    // A stopped backup on its own: the Apps start again however its archive
    // went, but for a final backup, which starts nothing it stopped.
    method CreateTar(task: Task, apps: seq<App>, final: bool) returns (outcome: Outcome, warnings: nat)
      requires Valid() && forall o | o in owed :: o.task != task
      modifies this
      ensures Valid() && Going(turns, old(Now()), Now(), outcome == Crashed)
      ensures outcome == Done && warnings == 0 ==> Now().OwedIn(task, [])
      ensures final ==> owed == old(owed) && journal == old(journal) && starts == old(starts)
      ensures final && outcome == Done ==> running == old(running) - AppsIn(apps)
      ensures !final ==> old(Now()).Kept() <= Now().Kept()
      ensures journal - {task} == old(journal) - {task}
      // All that ran runs again, though the archive fail.
      ensures var among := Among(apps, old(running));
              var archive := old(asked) + StopAsks(apps, old(running), true);
              !final && Calm(turns, old(asked), StopAsks(apps, old(running), true)) && Archiving(turns, archive, 1)
              && Calm(turns, archive + 1, 2 * |among| + 1) ==>
                && outcome == Ended(TurnAt(turns, archive)) && warnings == 0
                && running == old(running) && owed <= old(owed)
                && journal == if among == [] then old(journal) else old(journal) - {task}
    {
      hide Power.Valid, Asked, Since, Calm, Going, Facts.OwedIn, Facts.Noted, Facts.AllOwed, Unlucky, WontStop,
        Facts.Kept, Starting, WontStart, TurnAt, StopAsks, NotingAsks, Among, Archiving;
      ghost var start := Now();
      AskedToStop(apps, running, !final);
      warnings := 0;
      var stopped;
      outcome, stopped := StopApps(task, apps, !final);
      if outcome != Done { return; }
      ghost var before := Now();
      ArchiveNext(turns, asked);
      ValidFits();
      var archived := Ask();
      GoingOnce(turns, start, before, Now(), archived.fate.Crashes?);
      KeptSame(before, Now());
      if archived.fate.Crashes? { return Crashed, 0; }
      ghost var archive := Now();
      NotedStill(before, archive, stopped);
      OwedStill(before, archive, task, stopped);
      if final { OwedToIn(archive, start.owed, task, []); }
      if stopped != [] && !final {
        if archive.revisions == before.revisions { SameRevisions(before, archive, stopped); }
        outcome, warnings := StartApps(task, stopped);
        StartingGoes(turns, archive, Now(), outcome == Crashed);
        GoingOn(turns, start, archive, Now(), outcome == Crashed);
        if outcome != Done { return; }
      }
      outcome := Ended(archived);
    }

    // A batch's stopped window, its archives between; `stopping` is how
    // stopping its Apps went, and `starting` how starting them again did.
    method RunBatch(leader: Task, apps: seq<App>, archives: nat)
      returns (outcome: Outcome, warnings: nat, ghost stopping: Outcome, ghost starting: Outcome)
      requires Valid() && forall o | o in owed :: o.task != leader
      modifies this
      ensures Since(old(Now()), Now()) && journal - {leader} == old(journal) - {leader}
      ensures stopping != Threw ==> Valid() && Going(turns, old(Now()), Now(), outcome == Crashed)
      ensures old(Now()).Kept() <= Now().Kept()
      ensures outcome == Threw <==> stopping == Threw
      // The Apps start again, however the archives went.
      ensures outcome == Done && starting == Done && warnings == 0 ==> Now().OwedIn(leader, [])
      ensures outcome == Done && starting != Done ==>
                old(asked) < asked && TurnAt(turns, asked - 1).fate.Throws?
      ensures var asks := old(asked) + StopAsks(apps, old(running), true);
              Calm(turns, old(asked), StopAsks(apps, old(running), true)) && Archiving(turns, asks, archives)
              && Calm(turns, asks + archives, 2 * |Among(apps, old(running))| + 1) ==>
                && outcome == Done && warnings == 0 && running == old(running) && owed <= old(owed)
                && journal == old(journal) - {leader}
      // One that couldn't stop its Apps forgets those still owed a start.
      ensures stopping == Threw ==>
                (Valid() <==> leader in journal || forall o | o in owed && o.task == leader :: !StillOwed(o.entry))
      ensures |apps| == 1 && apps[0] in old(running) && Calm(turns, old(asked), 3) && Unlucky(turns, old(asked) + 3) ==>
                !Covered()
    {
      hide Power.Valid, Asked, Since, Calm, Going, Facts.OwedIn, Facts.Noted, Facts.AllOwed, Unlucky, WontStop,
        Facts.Kept, Starting, WontStart, TurnAt, StopAsks, NotingAsks, Among, Archiving;
      ghost var start := Now();
      AskedToStop(apps, running, true);
      warnings, starting := 0, Done;
      var stopped;
      outcome, stopped := StopApps(leader, apps, true);
      stopping := outcome;
      ghost var before := Now();
      GoingSays(turns, start, before, outcome == Crashed);
      if outcome == Crashed { return; }
      if outcome == Threw {
        if Unlucky(turns, start.asked + 3) { UnluckyEnds(turns, start.asked + 3); }
        var finished := FinishUnstopped(leader);
        SinceOn(start, before, Now());
        return;
      }
      outcome, warnings, starting := FinishBatch(leader, stopped, archives);
      GoingOn(turns, start, before, Now(), outcome == Crashed);
      GoingSays(turns, start, Now(), outcome == Crashed);
    }

    // The rest of a batch whose Apps were stopped.
    method FinishBatch(leader: Task, stopped: seq<Entry>, archives: nat)
      returns (outcome: Outcome, warnings: nat, ghost starting: Outcome)
      requires Valid() && Now().OwedIn(leader, stopped) && Now().Noted(stopped)
      modifies this
      ensures Valid() && Going(turns, old(Now()), Now(), outcome == Crashed) && outcome != Threw
      ensures journal - {leader} == old(journal) - {leader} && old(Now()).Kept() <= Now().Kept()
      ensures outcome == Done && starting == Done && warnings == 0 ==> Now().OwedIn(leader, [])
      ensures outcome == Done && starting != Done ==>
                old(asked) < asked && TurnAt(turns, asked - 1).fate.Throws?
      ensures old(Now()).AllOwed(stopped) && Archiving(turns, old(asked), archives)
              && Calm(turns, old(asked) + archives, 2 * |stopped| + 1) ==>
                && outcome == Done && warnings == 0 && journal == old(journal) - {leader}
                && running == AllStarted(old(Now()), stopped).running
                && owed == AllStarted(old(Now()), stopped).owed
    {
      hide Power.Valid, Asked, Since, Calm, Going, Facts.OwedIn, Facts.Noted, Facts.AllOwed, Facts.Kept, Starting,
        WontStart, TurnAt, Archiving;
      ghost var start := Now();
      warnings, starting := 0, Done;
      outcome := Archive(leader, stopped, archives);
      ghost var ready := Now();
      KeptSame(start, ready);
      if outcome == Crashed { return; }
      if ready.revisions == start.revisions { SameRevisions(start, ready, stopped); }
      GoingSays(turns, start, ready, false);
      outcome, warnings := StartApps(leader, stopped);
      starting := outcome;
      StartingGoes(turns, ready, Now(), outcome == Crashed);
      GoingOn(turns, start, ready, Now(), outcome == Crashed);
      if outcome == Threw { outcome := Done; }
    }

    // The archives of a batch, while what `task` stopped is owed a start.
    method Archive(task: Task, stopped: seq<Entry>, count: nat) returns (outcome: Outcome)
      requires Valid() && Now().OwedIn(task, stopped) && Now().Noted(stopped)
      modifies this`revisions, this`asked
      ensures Valid() && Now().OwedIn(task, stopped) && Now().Noted(stopped)
      ensures Going(turns, old(Now()), Now(), outcome == Crashed) && outcome != Threw
      ensures outcome == Done ==> asked == old(asked) + count
      ensures Archiving(turns, old(asked), count) ==> outcome == Done && revisions == old(revisions)
    {
      hide Power.Valid, Asked, Since, Going, Facts.OwedIn, Facts.Noted, TurnAt, Archiving;
      ghost var start := Now();
      GoesNowhere(turns, start);
      for i := 0 to count
        invariant Valid() && Going(turns, start, Now(), false) && Now().OwedIn(task, stopped) && Now().Noted(stopped)
        invariant asked == start.asked + i && (Archiving(turns, start.asked, count) ==> revisions == start.revisions)
      {
        ghost var last := Now();
        ValidFits();
        if Archiving(turns, start.asked, count) { ArchivingOn(turns, start.asked, count, i); }
        var archived := Ask();
        GoingOnce(turns, start, last, Now(), archived.fate.Crashes?);
        NotedStill(last, Now(), stopped);
        OwedStill(last, Now(), task, stopped);
        if archived.fate.Crashes? { return Crashed; }
      }
      outcome := Done;
    }

    // What the last of a batch's backups to leave does when its Apps weren't
    // all stopped: it starts none, and forgets the journal, with whatever Apps
    // were stopped and wouldn't start again.
    method FinishUnstopped(leader: Task) returns (outcome: Outcome)
      requires Valid()
      modifies this`revisions, this`asked, this`journal
      ensures Since(old(Now()), Now()) && asked == old(asked) + 1 && Now().Kept() == old(Now()).Kept()
      ensures journal == if TakesEffect(old(Next())) then old(journal) - {leader} else old(journal)
      ensures Valid() <==> leader in journal || forall o | o in owed && o.task == leader :: !StillOwed(o.entry)
      ensures outcome == if old(Next()).fate.Crashes? then Crashed else Done
      ensures old(Next()).changed == {} ==> revisions == old(revisions)
      ensures Covered() ==> leader in journal || forall o | o in owed && o.task == leader :: !StillOwed(o.entry)
    {
      hide Facts.Kept;
      ghost var before := Now();
      ValidFits();
      outcome := RemoveJournal(leader);
      KeptSame(before, Now());
      if outcome == Threw { outcome := Done; }
    }

    // As the Relay starts, starts the Apps its tasks' journals still owe it.
    method RestartStoppedApps() returns (outcome: Outcome)
      requires Valid()
      modifies this
      ensures Valid() && Starting(turns, old(Now()), Now(), outcome == Crashed)
      ensures Quiet(turns, old(asked)) ==>
                outcome == Done && journal == map[] && forall o | o in owed :: !StillOwed(o.entry)
      ensures Quiet(turns, old(asked)) ==> DueStarted(old(Now()), old(journal), {}, running)
    {
      hide Power.Valid, Asked, Since, Starting, Due, Quiet, Facts.OwedIn, DueStarted, TurnAt, Facts.StillOwed;
      ghost var start := Now();
      StartsNothing(turns, start);
      if Quiet(turns, asked) { QuietIsCalm(turns, asked, asked, 1); }
      DueStartedNone(start, journal);
      var read := Ask();
      LaterOnce(turns, start, start, Now(), read.fate.Crashes?);
      if !read.fate.Works? { return if read.fate.Crashes? then Crashed else Done; }
      outcome := Done;
      var tasks := journal.Keys;
      while tasks != {}
        invariant Valid() && Starting(turns, start, Now(), false) && outcome == Done
        invariant tasks <= journal.Keys
        invariant forall task | task in tasks :: task in old(journal) && journal[task] == old(journal)[task]
        invariant Quiet(turns, start.asked) ==> journal.Keys == tasks && revisions == start.revisions
        invariant Quiet(turns, start.asked) ==> DueStarted(start, old(journal), tasks, running)
        decreases |tasks|
      {
        var task :| task in tasks;
        assert tasks == tasks - {task} + {task};
        tasks := tasks - {task};
        ghost var kept, before := journal, Now();
        StartingAsked(turns, start, before, false);
        if Quiet(turns, start.asked) {
          DueStartedNext(start, old(journal), tasks, task, running);
          QuietIsCalm(turns, start.asked, asked, 1);
          DueSame(start, before, journal[task]);
        }
        outcome := RestartTask(task);
        OthersSame(kept, journal, task, tasks);
        StartingOn(turns, start, before, Now(), outcome == Crashed);
        if outcome == Crashed { return; }
      }
      if journal == map[] { NothingJournaled(); }
    }

    method RestartTask(task: Task) returns (outcome: Outcome)
      requires Valid() && task in journal
      modifies this
      ensures Valid() && Starting(turns, old(Now()), Now(), outcome == Crashed) && outcome != Threw
      ensures journal - {task} == old(journal) - {task}
      ensures Quiet(turns, old(asked)) ==>
                && outcome == Done && revisions == old(revisions) && journal == old(journal) - {task}
                && running == old(running) + Due(old(Now()), old(journal)[task])
    {
      hide Power.Valid, Asked, Since, Starting, Due, Quiet, Facts.OwedIn, Facts.Noted, Attempted, Facts.Fits,
        Facts.StillOwed;
      var entries, unstarted := journal[task], [];
      ghost var start := Now();
      StartsNothing(turns, start);
      ValidJournal(task);
      DueNone(start, entries);
      NotedNone(start, entries);
      for i := 0 to |entries|
        invariant Valid() && Starting(turns, start, Now(), false) && journal == old(journal)
        invariant Now().OwedIn(task, unstarted + entries[i..]) && Now().Noted(entries) && Now().Noted(unstarted)
        invariant Quiet(turns, start.asked) ==>
                    && unstarted == [] && revisions == start.revisions
                    && running == start.running + Due(start, entries[..i])
      {
        ghost var before := Now();
        NotedAt(before, entries, i);
        ValidFits();
        DueNext(start, entries, i);
        var attempt := StartIfOwed(entries[i]);
        if Quiet(turns, start.asked) {
          StartingAsked(turns, start, before, false);
          QuietAttempt(turns, start.asked, before, Now(), entries[i], attempt);
          OwedSame(start, before, entries[i]);
        }
        StartingOn(turns, start, before, Now(), attempt == Down);
        StartingSays(turns, before, Now(), attempt == Down);
        NotedStill(before, Now(), entries);
        NotedStill(before, Now(), unstarted);
        NotedMore(Now(), unstarted, entries, i);
        OwedNextUnread(turns, before, Now(), task, entries, i, unstarted, attempt);
        if attempt == Down { return Crashed; }
        if attempt == Unstarted || attempt == Unread { unstarted := unstarted + [entries[i]]; }
      }
      assert unstarted + entries[|entries|..] == unstarted && entries[..|entries|] == entries;
      ghost var before := Now();
      if Quiet(turns, start.asked) {
        StartingAsked(turns, start, before, false);
        QuietIsCalm(turns, start.asked, asked, 1);
      }
      outcome := KeepStopped(task, unstarted);
      LaterOnce(turns, start, before, Now(), outcome == Crashed);
    }

    lemma NothingJournaled()
      requires Valid() && journal == map[]
      ensures forall o | o in owed :: !StillOwed(o.entry)
    {
    }

    lemma ValidJournal(task: Task)
      requires Valid() && task in journal
      ensures Now().Noted(journal[task]) && Now().OwedIn(task, journal[task])
    {
    }
  }

  // A batch that stopped an App it couldn't start again forgets it, though
  // the App's power is unchanged.
  method FailedBatchForgets() returns (power: Power, outcome: Outcome)
    ensures fresh(power) && !power.Covered()
  {
    power := new Power(map[], {"app"}, UNLUCKY);
    var warnings;
    ghost var stopping, starting;
    UnluckyIs();
    outcome, warnings, stopping, starting := power.RunBatch("leader", ["app"], 0);
  }

  lemma UnluckyIs()
    ensures Calm(UNLUCKY, 0, 3) && Unlucky(UNLUCKY, 3)
  {
  }

  lemma GoingSays(turns: seq<Turn>, a: Facts, b: Facts, crashed: bool)
    requires Going(turns, a, b, crashed)
    ensures Since(a, b) && a.asked <= b.asked
  {
  }

  // One App's turn among those to start.
  lemma StartedOne(
    turns: seq<Turn>, start: Facts, a: Facts, b: Facts, task: Task, entries: seq<Entry>, i: nat, unstarted: seq<Entry>,
    attempt: Attempt)
    requires i < |entries| && Starting(turns, start, a, false) && Starting(turns, a, b, attempt == Down) && a.Fits()
    requires Attempted(turns, a, b, entries[i], attempt)
    requires a.OwedIn(task, unstarted + entries[i..]) && a.Noted(entries) && a.Noted(unstarted)
    ensures Starting(turns, start, b, attempt == Down) && start.asked <= a.asked
    ensures attempt in {Unowed, Started, Unstarted} ==>
              var next := if attempt == Unstarted then unstarted + [entries[i]] else unstarted;
              b.OwedIn(task, next + entries[i + 1..]) && b.Noted(entries) && b.Noted(next)
    ensures start.AllOwed(entries) && Calm(turns, start.asked, 2 * |entries| + 1)
            && a == AllStarted(start, entries[..i]) ==>
              attempt == Started && b == AllStarted(start, entries[..i + 1])
    ensures WontStart(turns, start, entries) && a == start ==> attempt == Unstarted && b == Later(start, 2)
  {
    StartingOn(turns, start, a, b, attempt == Down);
    StartingSays(turns, a, b, attempt == Down);
    StartingAsked(turns, start, a, false);
    hide Starting;
    NotedStill(a, b, entries);
    NotedStill(a, b, unstarted);
    NotedMore(b, unstarted, entries, i);
    if attempt in {Unowed, Started, Unstarted} { OwedNext(turns, a, b, task, entries, i, unstarted, attempt); }
    if start.AllOwed(entries) && Calm(turns, start.asked, 2 * |entries| + 1) && a == AllStarted(start, entries[..i]) {
      StartedNext(turns, start, b, entries, i, attempt);
    }
    if WontStart(turns, start, entries) && a == start {
      WontStartOne(turns, start, entries);
      WontStartThen(turns, start, b, entries, attempt);
    }
  }

  // Once an App wouldn't stop, and those stopped before it, and it, were asked
  // to start.
  lemma BackAgain(
    turns: seq<Turn>, start: Facts, f: Facts, g: Facts, task: Task, entries: seq<Entry>, count: nat, outcome: Outcome)
    requires count < |entries| && Working(turns, start.asked, count) && f.asked == start.asked + count + 1
    requires !TurnAt(turns, start.asked + count).fate.Works?
    requires var all := entries[..if TakesEffect(TurnAt(turns, start.asked + count)) then count + 1 else count];
             f.running == start.running - AppsOf(all) && f.owed == start.owed + OwedTo(task, all)
    requires Calm(turns, start.asked, count) && TurnAt(turns, start.asked + count).changed == {} ==>
               f.revisions == start.revisions
    requires Calm(turns, f.asked, 2 * (count + 1) + 1) && f.AllOwed(entries[..count + 1]) ==>
               outcome == Threw && g == Later(AllStarted(f, entries[..count + 1]), 1)
    requires WontStart(turns, f, entries[..count + 1]) ==> outcome == Threw && g == Later(f, 3)
    ensures forall k: nat | k < |entries| && AppsOf(entries) <= start.running && start.AllOwed(entries) &&
                            WontStop(turns, start.asked, k) ::
              outcome == Threw && g.running == start.running && g.owed <= start.owed
              && Calm(turns, f.asked, 2 * (count + 1) + 1) && f.AllOwed(entries[..count + 1])
    ensures |entries| == 1 && start.StillOwed(entries[0]) && Unlucky(turns, start.asked) ==>
              && outcome == Threw && g.revisions == start.revisions && g.asked == start.asked + 4
              && Owed(task, entries[0]) in g.owed
  {
    hide Calm, WontStop, Unlucky, Working, WontStart, Facts.AllOwed, TurnAt, AllStarted;
    HowStopped(turns, start.asked, count, |entries|);
    if f.revisions == start.revisions { SameRevisions(start, f, entries); }
    NotedSome(f, entries, count + 1);
    assert |entries| == 1 ==> entries[..1] == entries;
    StartedBack(start, f, g, task, entries, count, TakesEffect(TurnAt(turns, start.asked + count)));
    if |entries| == 1 && start.StillOwed(entries[0]) && Unlucky(turns, start.asked) {
      UnluckyTurns(turns, start, f, entries);
      OneMore(task, start.owed, entries, 0);
    }
  }

  lemma DueNone(f: Facts, entries: seq<Entry>)
    ensures Due(f, []) == {} && entries[..0] == [] && entries[..|entries|] == entries
  {
  }

  lemma StartingAsked(turns: seq<Turn>, a: Facts, b: Facts, crashed: bool)
    requires Starting(turns, a, b, crashed)
    ensures a.asked <= b.asked
  {
  }

  lemma OwedSame(a: Facts, b: Facts, entry: Entry)
    requires a.revisions == b.revisions
    ensures a.StillOwed(entry) <==> b.StillOwed(entry)
  {
  }

  // As `OwedNext`, and one whose power couldn't be read is kept too.
  lemma OwedNextUnread(
    turns: seq<Turn>, a: Facts, b: Facts, task: Task, entries: seq<Entry>, i: nat, unstarted: seq<Entry>,
    attempt: Attempt)
    requires i < |entries| && a.OwedIn(task, unstarted + entries[i..]) && a.Fits() && Since(a, b)
    requires Attempted(turns, a, b, entries[i], attempt) && b.owed <= a.owed
    ensures attempt in {Unread, Unstarted} ==> b.OwedIn(task, unstarted + [entries[i]] + entries[i + 1..])
    ensures attempt in {Unowed, Started} ==> b.OwedIn(task, unstarted + entries[i + 1..])
  {
    EntryFirst(entries, i);
  }

  lemma OthersSame(before: map<Task, seq<Entry>>, after: map<Task, seq<Entry>>, task: Task, others: set<Task>)
    requires after - {task} == before - {task} && task !in others && others <= before.Keys
    ensures forall other | other in others :: other in after && after[other] == before[other]
    ensures task !in after ==> after.Keys == before.Keys - {task}
  {
    forall other | other in others ensures other in after && after[other] == before[other] {
      assert other in before - {task};
      assert (after - {task})[other] == (before - {task})[other];
    }
    assert (after - {task}).Keys == (before - {task}).Keys;
  }

  lemma ArchiveNext(turns: seq<Turn>, from: nat)
    ensures Archiving(turns, from, 1) ==> !TurnAt(turns, from).fate.Crashes? && TurnAt(turns, from).changed == {}
  {
  }

  lemma StartKeeps(a: Facts, b: Facts, entry: Entry)
    requires || (b.running == a.running + {entry.app} && b.owed == StillOwing(a.owed, {entry.app}))
             || (b.running == a.running && b.owed == a.owed)
    ensures b.owed <= a.owed && a.Kept() <= b.Kept()
  {
  }

  lemma NotedAt(f: Facts, entries: seq<Entry>, i: nat)
    requires i < |entries| && f.Noted(entries)
    ensures entries[i].revision <= f.Revision(entries[i].app)
  {
  }

  lemma NotedNone(f: Facts, entries: seq<Entry>)
    ensures f.Noted([]) && [] + entries[0..] == entries
  {
  }

  lemma NotedMore(f: Facts, noted: seq<Entry>, entries: seq<Entry>, i: nat)
    requires i < |entries| && f.Noted(entries) && f.Noted(noted)
    ensures f.Noted(noted + [entries[i]])
  {
  }

  lemma StartingSays(turns: seq<Turn>, a: Facts, b: Facts, crashed: bool)
    requires Starting(turns, a, b, crashed)
    ensures Since(a, b) && b.owed <= a.owed
  {
  }

  // One more thing asked that leaves the Apps alone.
  lemma LaterOnce(turns: seq<Turn>, a: Facts, b: Facts, c: Facts, crashed: bool)
    requires Starting(turns, a, b, false) && Since(b, c) && c.running == b.running && c.owed == b.owed
    requires c.asked == b.asked + 1 && (crashed <==> TurnAt(turns, b.asked).fate.Crashes?)
    ensures Starting(turns, a, c, crashed)
  {
    assert Asked(turns, b.asked, c.asked, crashed);
    SinceOn(a, b, c);
    AskedOn(turns, a.asked, b.asked, c.asked, crashed);
  }

  lemma WontStartOne(turns: seq<Turn>, f: Facts, entries: seq<Entry>)
    requires WontStart(turns, f, entries)
    ensures |entries| == 1 && TurnAt(turns, f.asked + 2) == WORKS
  {
  }

  lemma AfterwardsCalm(turns: seq<Turn>, f: Facts, entries: seq<Entry>)
    ensures Calm(turns, f.asked, 2 * |entries| + 1) ==> TurnAt(turns, AllStarted(f, entries).asked) == WORKS
    ensures WontStart(turns, f, entries) ==> TurnAt(turns, Later(f, 2).asked) == WORKS
    ensures forall g: Facts, more: nat :: Later(g, more) == g.(asked := g.asked + more)
  {
  }

  lemma StartsNothing(turns: seq<Turn>, a: Facts)
    ensures Starting(turns, a, a, false)
  {
  }

  lemma AskedOn(turns: seq<Turn>, from: nat, via: nat, until: nat, crashed: bool)
    requires Asked(turns, from, via, false) && Asked(turns, via, until, crashed)
    ensures Asked(turns, from, until, crashed)
  {
  }

  lemma EntryFirst(entries: seq<Entry>, i: nat)
    requires i < |entries|
    ensures forall entry :: entry in entries[i..] <==> entry == entries[i] || entry in entries[i + 1..]
  {
    assert entries[i..] == [entries[i]] + entries[i + 1..];
  }
}
