/** Database jobs in worker processes (`database-browser.ts`,
    `database-browser-worker.ts`): a worker asks before it commits, and a job
    whose commit wasn't granted can be stopped. Any step may come next. */
module CommitHandshake {
  import opened Options

  type JobId = nat
  type WorkerId = nat

  datatype Stage = Queued | Running | Committing | Cancelled

  // What a job came to, as its worker or the Relay answers it.
  datatype Reply = Saved | NotSaved | Lost

  // What its caller was told: that it timed out or was interrupted, with
  // nothing saved, or its reply.
  datatype Told = TimedOut | Interrupted | Told(reply: Reply)

  datatype Job = Job(stage: Stage, worker: Option<WorkerId>, reply: Option<Reply>, told: Option<Told>)

  // What a worker is at, for a job.
  datatype Activity = Idle | Working(job: JobId) | Asking(job: JobId) | Granted(job: JobId) | Done(job: JobId) | Dead

  // A worker, the bytes and the answer under way between it and the Relay, the
  // job the Relay has it hold, whether it has been killed and may be running
  // still, and whether the Relay has it no more.
  datatype Worker = Worker(
    activity: Activity, request: bool, grant: bool, response: Option<Reply>,
    holder: Option<JobId>, doomed: bool, dropped: bool)
  {
    predicate Busy() {
      activity.Working? || activity.Asking? || activity.Granted? || activity.Done?
    }
  }

  datatype State = State(
    jobs: map<JobId, Job>, workers: map<WorkerId, Worker>, granted: set<JobId>, committed: set<JobId>)
  {
    predicate Holds(j: JobId, w: WorkerId) {
      j in jobs && jobs[j].worker == Some(w) && jobs[j].reply.None? && jobs[j].stage != Queued
    }

    ghost predicate WorkerFits(w: WorkerId)
      requires w in workers
    {
      var worker := workers[w];
      && (worker.holder.Some? ==> !worker.dropped && Holds(worker.holder.value, w))
      && (worker.Busy() ==> worker.response.None? && (worker.holder == Some(worker.activity.job) || worker.dropped))
      && (worker.Busy() ==> worker.activity.job in jobs && jobs[worker.activity.job].worker == Some(w))
      && ((worker.activity.Working? || worker.activity.Asking?) ==> worker.activity.job !in committed)
      && (worker.activity.Granted? ==> worker.activity.job in granted && worker.activity.job !in committed)
      && (worker.activity.Done? ==> worker.activity.job in committed)
      && (worker.request ==> !worker.grant && (worker.activity.Asking? || worker.activity.Dead?))
      && (worker.grant ==> (worker.activity.Asking? && worker.activity.job in granted) || worker.activity.Dead?)
      && (worker.response.Some? ==> !worker.request && !worker.grant && (worker.holder.Some? || worker.dropped))
      && (worker.holder.Some? && worker.response == Some(Saved) ==> worker.holder.value in committed)
      && (worker.holder.Some? && worker.response == Some(NotSaved) ==> worker.holder.value !in committed)
      && worker.response != Some(Lost)
      && (worker.holder.None? && !worker.dropped ==>
            !worker.request && !worker.grant && (worker.activity.Idle? || worker.activity.Dead?))
    }

    ghost predicate JobFits(j: JobId)
      requires j in jobs
    {
      var job := jobs[j];
      && (job.stage == Queued ==> job.worker.None? && job.reply.None?)
      && (job.stage in {Running, Committing} ==> job.worker.Some?)
      && (j in granted <==> job.stage == Committing)
      && (job.worker.None? ==> j !in committed)
      && (job.worker.Some? ==>
            job.worker.value in workers && (job.reply.None? ==> workers[job.worker.value].holder == Some(j)))
      && (job.told == Some(TimedOut) ==> job.stage == Cancelled)
      && (job.told == Some(Interrupted) ==> job.stage in {Cancelled, Committing})
      && (job.told.Some? && job.told.value.Told? ==> job.reply == Some(job.told.value.reply))
      && (job.reply == Some(Saved) ==> j in committed)
      && (job.reply == Some(NotSaved) ==>
            j !in committed && forall w | w in workers && workers[w].Busy() :: workers[w].activity.job != j)
    }

    ghost predicate Valid() {
      && (forall w | w in workers :: WorkerFits(w))
      && (forall j | j in jobs :: JobFits(j))
      && committed <= granted <= jobs.Keys
    }
  }

  datatype Step =
    | Submit(j: JobId)
    | Spawn(w: WorkerId)
    // The pool gives a job a worker, which it sends its request.
    | Take(j: JobId, w: WorkerId)
    // The worker's own steps.
    | Ask(w: WorkerId)
    | Finish(w: WorkerId)
    | ReadGrant(w: WorkerId)
    | Commit(w: WorkerId, succeeds: bool)
    | Respond(w: WorkerId)
    | Die(w: WorkerId)
    // What the Relay hears of it.
    | HearRequest(w: WorkerId)
    | HearResponse(w: WorkerId)
    | HearExit(w: WorkerId)
    | HearError(w: WorkerId)
    // Its caller's.
    | Timeout(j: JobId)
    | Interrupt(j: JobId)
    | Tell(j: JobId)

  predicate Possible(s: State, e: Step) {
    match e
    case Submit(j) => j !in s.jobs
    case Spawn(w) => w !in s.workers
    case Take(j, w) =>
      && j in s.jobs && s.jobs[j].stage in {Queued, Cancelled} && s.jobs[j].worker.None? && s.jobs[j].reply.None?
      && w in s.workers && s.workers[w].holder.None? && !s.workers[w].dropped
    case Ask(w) => w in s.workers && s.workers[w].activity.Working?
    case Finish(w) => w in s.workers && s.workers[w].activity.Working?
    case ReadGrant(w) => w in s.workers && s.workers[w].activity.Asking? && s.workers[w].grant
    case Commit(w, _) => w in s.workers && s.workers[w].activity.Granted?
    case Respond(w) => w in s.workers && s.workers[w].activity.Done?
    case Die(w) => w in s.workers && !s.workers[w].activity.Dead?
    case HearRequest(w) => w in s.workers && s.workers[w].request
    case HearResponse(w) => w in s.workers && s.workers[w].response.Some?
    case HearExit(w) => w in s.workers && s.workers[w].activity.Dead? && !s.workers[w].dropped
    case HearError(w) => w in s.workers && !s.workers[w].dropped
    case Timeout(j) => j in s.jobs && s.jobs[j].told.None? && s.jobs[j].reply.None?
    case Interrupt(j) => j in s.jobs && s.jobs[j].told.None?
    case Tell(j) => j in s.jobs && s.jobs[j].told.None? && s.jobs[j].reply.Some?
  }

  function WithWorker(s: State, w: WorkerId, worker: Worker): State {
    s.(workers := s.workers[w := worker])
  }

  function WithJob(s: State, j: JobId, job: Job): State {
    s.(jobs := s.jobs[j := job])
  }

  // The Relay drops a worker, and the job it held, if any, is lost.
  function Dropped(s: State, w: WorkerId): State
    requires w in s.workers && (s.workers[w].holder.Some? ==> s.workers[w].holder.value in s.jobs)
  {
    var worker := s.workers[w];
    var t := WithWorker(s, w, worker.(holder := None, dropped := true));
    if worker.holder.None? then t
    else WithJob(t, worker.holder.value, s.jobs[worker.holder.value].(reply := Some(Lost)))
  }

  // Stops a job, unless its commit was granted, killing its worker.
  function Stopped(s: State, j: JobId): State
    requires j in s.jobs
  {
    var job := s.jobs[j];
    if job.stage == Committing then s
    else
      var t := WithJob(s, j, job.(stage := Cancelled));
      if job.worker.Some? && job.worker.value in s.workers then
        WithWorker(t, job.worker.value, s.workers[job.worker.value].(doomed := true))
      else t
  }

  ghost function Next(s: State, e: Step): State
    requires s.Valid() && Possible(s, e)
  {
    HoldersHold(s);
    match e
    case Submit(j) => WithJob(s, j, Job(Queued, None, None, None))
    case Spawn(w) => WithWorker(s, w, Worker(Idle, false, false, None, None, false, false))
    case Take(j, w) =>
      if s.jobs[j].stage == Cancelled then WithJob(s, j, s.jobs[j].(reply := Some(NotSaved)))
      else
        var worker := s.workers[w];
        WithWorker(WithJob(s, j, s.jobs[j].(stage := Running, worker := Some(w))), w,
                   worker.(holder := Some(j), activity := if worker.activity.Dead? then Dead else Working(j)))
    case Ask(w) => WithWorker(s, w, s.workers[w].(activity := Asking(s.workers[w].activity.job), request := true))
    case Finish(w) => WithWorker(s, w, s.workers[w].(activity := Idle, response := Some(NotSaved)))
    case ReadGrant(w) => WithWorker(s, w, s.workers[w].(activity := Granted(s.workers[w].activity.job), grant := false))
    case Commit(w, succeeds) =>
      var j := s.workers[w].activity.job;
      if succeeds then WithWorker(s, w, s.workers[w].(activity := Done(j))).(committed := s.committed + {j})
      else WithWorker(s, w, s.workers[w].(activity := Idle, response := Some(NotSaved)))
    case Respond(w) => WithWorker(s, w, s.workers[w].(activity := Idle, response := Some(Saved)))
    case Die(w) => WithWorker(s, w, s.workers[w].(activity := Dead))
    case HearRequest(w) =>
      var worker := s.workers[w];
      var heard := WithWorker(s, w, worker.(request := false));
      if worker.holder.Some? && s.jobs[worker.holder.value].stage == Running then
        var j := worker.holder.value;
        WithJob(WithWorker(s, w, worker.(request := false, grant := true)), j, s.jobs[j].(stage := Committing))
          .(granted := s.granted + {j})
      else heard
    case HearResponse(w) =>
      var worker := s.workers[w];
      var t := WithWorker(s, w, worker.(response := None, holder := None));
      if worker.holder.None? then t
      else WithJob(t, worker.holder.value, s.jobs[worker.holder.value].(reply := worker.response))
    case HearExit(w) => Dropped(s, w)
    case HearError(w) => Dropped(s, w)
    case Timeout(j) =>
      var t := Stopped(s, j);
      if s.jobs[j].stage == Committing then t else WithJob(t, j, t.jobs[j].(told := Some(TimedOut)))
    case Interrupt(j) => var t := Stopped(s, j); WithJob(t, j, t.jobs[j].(told := Some(Interrupted)))
    case Tell(j) => WithJob(s, j, s.jobs[j].(told := Some(Told(s.jobs[j].reply.value))))
  }

  lemma HoldersHold(s: State)
    requires s.Valid()
    ensures forall w | w in s.workers && s.workers[w].holder.Some? :: s.workers[w].holder.value in s.jobs
  {
    forall w | w in s.workers && s.workers[w].holder.Some? ensures s.workers[w].holder.value in s.jobs {
      assert s.WorkerFits(w);
    }
  }

  predicate WorkersOwn(e: Step) {
    e.Spawn? || e.Ask? || e.Finish? || e.ReadGrant? || e.Commit? || e.Respond? || e.Die?
  }

  predicate Heard(e: Step) {
    e.HearRequest? || e.HearResponse? || e.HearExit? || e.HearError?
  }

  lemma ComeAndGoKeepWorkers(s: State, e: Step)
    requires s.Valid() && Possible(s, e) && (e.Spawn? || e.Die?)
    ensures var t := Next(s, e); forall w | w in t.workers :: t.WorkerFits(w)
  {
    var t := Next(s, e);
    forall w | w in t.workers ensures t.WorkerFits(w) {
      if w in s.workers { assert s.WorkerFits(w); }
    }
  }

  lemma GrantKeepsWorkers(s: State, e: Step)
    requires s.Valid() && Possible(s, e) && (e.Ask? || e.ReadGrant?)
    ensures var t := Next(s, e); forall w | w in t.workers :: t.WorkerFits(w)
  {
    var t := Next(s, e);
    forall w | w in t.workers ensures t.WorkerFits(w) {
      if w in s.workers { assert s.WorkerFits(w); }
    }
  }

  lemma AnswerKeepsWorkers(s: State, e: Step)
    requires s.Valid() && Possible(s, e) && (e.Finish? || e.Respond?)
    ensures var t := Next(s, e); forall w | w in t.workers :: t.WorkerFits(w)
  {
    var t := Next(s, e);
    forall w | w in t.workers ensures t.WorkerFits(w) {
      if w in s.workers { assert s.WorkerFits(w); }
    }
  }

  lemma CommitKeepsWorkers(s: State, e: Step)
    requires s.Valid() && Possible(s, e) && e.Commit?
    ensures var t := Next(s, e); forall w | w in t.workers :: t.WorkerFits(w)
  {
    hide State.WorkerFits, State.JobFits;
    forall w | w in Next(s, e).workers ensures Next(s, e).WorkerFits(w) {
      CommitKeepsWorker(s, e, w);
    }
  }

  lemma CommitKeepsWorker(s: State, e: Step, w: WorkerId)
    requires s.Valid() && Possible(s, e) && e.Commit? && w in s.workers
    ensures w in Next(s, e).workers && Next(s, e).WorkerFits(w)
  {
    hide State.JobFits;
    assert s.WorkerFits(w) && s.WorkerFits(e.w);
  }

  lemma WorkerStepKeepsWorkers(s: State, e: Step)
    requires s.Valid() && Possible(s, e) && WorkersOwn(e)
    ensures var t := Next(s, e); forall w | w in t.workers :: t.WorkerFits(w)
  {
    hide Next, Possible, State.Valid, State.WorkerFits;
    if e.Spawn? || e.Die? {
      ComeAndGoKeepWorkers(s, e);
    } else if e.Ask? || e.ReadGrant? {
      GrantKeepsWorkers(s, e);
    } else if e.Commit? {
      CommitKeepsWorkers(s, e);
    } else {
      AnswerKeepsWorkers(s, e);
    }
  }

  lemma WorkerStepKeepsJobs(s: State, e: Step)
    requires s.Valid() && Possible(s, e) && WorkersOwn(e)
    ensures var t := Next(s, e); (forall j | j in t.jobs :: t.JobFits(j)) && t.committed <= t.granted <= t.jobs.Keys
  {
    var t := Next(s, e);
    if e.w in s.workers { assert s.WorkerFits(e.w); }
    forall j | j in t.jobs ensures t.JobFits(j) {
      if j in s.jobs { assert s.JobFits(j); }
    }
  }

  lemma HearRequestKeepsWorkers(s: State, e: Step)
    requires s.Valid() && e.HearRequest? && Possible(s, e)
    ensures var t := Next(s, e); forall w | w in t.workers :: t.WorkerFits(w)
  {
    var t := Next(s, e);
    assert s.WorkerFits(e.w);
    forall w | w in t.workers ensures t.WorkerFits(w) {
      if w in s.workers { assert s.WorkerFits(w); }
    }
  }

  lemma HearResponseKeepsWorkers(s: State, e: Step)
    requires s.Valid() && e.HearResponse? && Possible(s, e)
    ensures var t := Next(s, e); forall w | w in t.workers :: t.WorkerFits(w)
  {
    var t := Next(s, e);
    assert s.WorkerFits(e.w);
    forall w | w in t.workers ensures t.WorkerFits(w) {
      if w in s.workers { assert s.WorkerFits(w); }
    }
  }

  lemma DropKeepsWorkers(s: State, e: Step)
    requires s.Valid() && (e.HearExit? || e.HearError?) && Possible(s, e)
    ensures var t := Next(s, e); forall w | w in t.workers :: t.WorkerFits(w)
  {
    var t := Next(s, e);
    assert s.WorkerFits(e.w);
    forall w | w in t.workers ensures t.WorkerFits(w) {
      if w in s.workers { assert s.WorkerFits(w); }
    }
  }

  lemma HeardKeepsWorkers(s: State, e: Step)
    requires s.Valid() && Heard(e) && Possible(s, e)
    ensures var t := Next(s, e); forall w | w in t.workers :: t.WorkerFits(w)
  {
    hide Next, Possible, State.Valid, State.WorkerFits;
    if e.HearRequest? {
      HearRequestKeepsWorkers(s, e);
    } else if e.HearResponse? {
      HearResponseKeepsWorkers(s, e);
    } else {
      DropKeepsWorkers(s, e);
    }
  }

  lemma HeardKeepsJobs(s: State, e: Step)
    requires s.Valid() && Heard(e) && Possible(s, e)
    ensures var t := Next(s, e); (forall j | j in t.jobs :: t.JobFits(j)) && t.committed <= t.granted <= t.jobs.Keys
  {
    var t := Next(s, e);
    assert s.WorkerFits(e.w);
    forall j | j in t.jobs ensures t.JobFits(j) {
      if j in s.jobs { assert s.JobFits(j); }
    }
  }

  lemma TakeKeepsWorkers(s: State, e: Step)
    requires s.Valid() && Possible(s, e) && e.Take?
    ensures var t := Next(s, e); forall w | w in t.workers :: t.WorkerFits(w)
  {
    var t := Next(s, e);
    forall w | w in t.workers ensures t.WorkerFits(w) {
      if w in s.workers { assert s.WorkerFits(w); }
    }
  }

  lemma AskedKeepsWorkers(s: State, e: Step)
    requires s.Valid() && Possible(s, e) && (e.Submit? || e.Tell?)
    ensures var t := Next(s, e); forall w | w in t.workers :: t.WorkerFits(w)
  {
    var t := Next(s, e);
    forall w | w in t.workers ensures t.WorkerFits(w) {
      if w in s.workers { assert s.WorkerFits(w); }
    }
  }

  // Being told changes nothing a worker rests on.
  lemma ToldFits(s: State, j: JobId, told: Option<Told>, w: WorkerId)
    requires j in s.jobs && w in s.workers && s.WorkerFits(w)
    ensures WithJob(s, j, s.jobs[j].(told := told)).WorkerFits(w)
  {
  }

  // Nor does being cancelled, or doomed.
  lemma CancelledFits(s: State, j: JobId, w: WorkerId)
    requires j in s.jobs && w in s.workers && s.WorkerFits(w)
    ensures WithJob(s, j, s.jobs[j].(stage := Cancelled)).WorkerFits(w)
  {
  }

  lemma DoomedFits(s: State, doomed: WorkerId, w: WorkerId)
    requires doomed in s.workers && w in s.workers && s.WorkerFits(w)
    ensures WithWorker(s, doomed, s.workers[doomed].(doomed := true)).WorkerFits(w)
  {
  }

  lemma StopKeepsWorkers(s: State, e: Step)
    requires s.Valid() && Possible(s, e) && (e.Timeout? || e.Interrupt?)
    ensures var t := Next(s, e); forall w | w in t.workers :: t.WorkerFits(w)
  {
    hide State.WorkerFits, State.JobFits;
    var j, t := e.j, Stopped(s, e.j);
    forall w | w in s.workers ensures w in t.workers && t.WorkerFits(w) {
      var job := s.jobs[j];
      if job.stage != Committing {
        CancelledFits(s, j, w);
        if job.worker.Some? && job.worker.value in s.workers {
          DoomedFits(WithJob(s, j, job.(stage := Cancelled)), job.worker.value, w);
        }
      }
    }
    forall w | w in t.workers ensures Next(s, e).WorkerFits(w) {
      ToldFits(t, j, Some(if e.Timeout? then TimedOut else Interrupted), w);
    }
  }

  lemma CallerStepKeepsWorkers(s: State, e: Step)
    requires s.Valid() && Possible(s, e) && !WorkersOwn(e) && !Heard(e) && !e.Take?
    ensures var t := Next(s, e); forall w | w in t.workers :: t.WorkerFits(w)
  {
    hide Next, Possible, State.Valid, State.WorkerFits;
    if e.Submit? || e.Tell? { AskedKeepsWorkers(s, e); } else { StopKeepsWorkers(s, e); }
  }

  lemma TimeoutKeepsJobs(s: State, e: Step)
    requires s.Valid() && Possible(s, e) && e.Timeout?
    ensures var t := Next(s, e); (forall j | j in t.jobs :: t.JobFits(j)) && t.committed <= t.granted <= t.jobs.Keys
  {
    var t := Next(s, e);
    forall j | j in t.jobs ensures t.JobFits(j) {
      if j in s.jobs { assert s.JobFits(j); }
    }
  }

  lemma InterruptKeepsJobs(s: State, e: Step)
    requires s.Valid() && Possible(s, e) && e.Interrupt?
    ensures var t := Next(s, e); (forall j | j in t.jobs :: t.JobFits(j)) && t.committed <= t.granted <= t.jobs.Keys
  {
    hide State.WorkerFits, State.JobFits;
    forall j | j in Next(s, e).jobs ensures Next(s, e).JobFits(j) {
      InterruptKeepsJob(s, e, j);
    }
  }

  lemma InterruptKeepsJob(s: State, e: Step, j: JobId)
    requires s.Valid() && Possible(s, e) && e.Interrupt? && j in s.jobs
    ensures j in Next(s, e).jobs && Next(s, e).JobFits(j)
  {
    hide State.WorkerFits;
    assert s.JobFits(j);
  }

  lemma TakeKeepsJobs(s: State, e: Step)
    requires s.Valid() && Possible(s, e) && (e.Submit? || e.Take? || e.Tell?)
    ensures var t := Next(s, e); (forall j | j in t.jobs :: t.JobFits(j)) && t.committed <= t.granted <= t.jobs.Keys
  {
    var t := Next(s, e);
    forall j | j in t.jobs ensures t.JobFits(j) {
      if j in s.jobs { assert s.JobFits(j); }
    }
  }

  lemma CallerStepKeepsJobs(s: State, e: Step)
    requires s.Valid() && Possible(s, e) && !WorkersOwn(e) && !Heard(e)
    ensures var t := Next(s, e); (forall j | j in t.jobs :: t.JobFits(j)) && t.committed <= t.granted <= t.jobs.Keys
  {
    hide Next, Possible, State.Valid, State.JobFits;
    if e.Timeout? {
      TimeoutKeepsJobs(s, e);
    } else if e.Interrupt? {
      InterruptKeepsJobs(s, e);
    } else {
      TakeKeepsJobs(s, e);
    }
  }

  lemma NextKeeps(s: State, e: Step)
    requires s.Valid() && Possible(s, e)
    ensures Next(s, e).Valid()
  {
    hide Next, Possible, State.WorkerFits, State.JobFits;
    if WorkersOwn(e) {
      WorkerStepKeepsWorkers(s, e);
      WorkerStepKeepsJobs(s, e);
    } else if Heard(e) {
      HeardKeepsWorkers(s, e);
      HeardKeepsJobs(s, e);
    } else {
      if e.Take? { TakeKeepsWorkers(s, e); } else { CallerStepKeepsWorkers(s, e); }
      CallerStepKeepsJobs(s, e);
    }
  }

  // A job stopped stays stopped, and one answered keeps its answer.
  lemma NextStays(s: State, e: Step, j: JobId)
    requires s.Valid() && Possible(s, e) && j in s.jobs
    ensures var t := Next(s, e);
            && j in t.jobs && (s.jobs[j].stage == Cancelled ==> t.jobs[j].stage == Cancelled)
            && (s.jobs[j].reply.Some? ==> t.jobs[j].reply == s.jobs[j].reply)
  {
    if Heard(e) { assert s.WorkerFits(e.w); }
  }

  const NOTHING := State(map[], map[], {}, {})

  // The Relay after `steps`, any of which that can't happen doesn't.
  ghost function Run(s: State, steps: seq<Step>): (end: State)
    requires s.Valid()
    ensures end.Valid()
    decreases |steps|
  {
    if steps == [] then s
    else if !Possible(s, steps[0]) then Run(s, steps[1..])
    else
      NextKeeps(s, steps[0]);
      Run(Next(s, steps[0]), steps[1..])
  }

  lemma {:induction false} RunStays(s: State, steps: seq<Step>, j: JobId)
    requires s.Valid() && j in s.jobs
    ensures var t := Run(s, steps);
            && j in t.jobs && (s.jobs[j].stage == Cancelled ==> t.jobs[j].stage == Cancelled)
            && (s.jobs[j].reply.Some? ==> t.jobs[j].reply == s.jobs[j].reply)
    decreases |steps|
  {
    hide Next, Possible, State.Valid;
    if steps != [] {
      if Possible(s, steps[0]) {
        NextKeeps(s, steps[0]);
        NextStays(s, steps[0], j);
        RunStays(Next(s, steps[0]), steps[1..], j);
      } else {
        RunStays(s, steps[1..], j);
      }
    }
  }

  // A job that times out, or is interrupted before its commit is granted,
  // never commits, whatever comes after.
  lemma {:induction false} StoppedNeverCommits(before: seq<Step>, j: JobId, after: seq<Step>)
    ensures NOTHING.Valid()
    ensures var s := Run(NOTHING, before);
            && (Possible(s, Timeout(j)) && j !in s.granted ==>
                  Next(s, Timeout(j)).Valid() && j !in Run(Next(s, Timeout(j)), after).committed)
            && (Possible(s, Interrupt(j)) && j !in s.granted ==>
                  Next(s, Interrupt(j)).Valid() && j !in Run(Next(s, Interrupt(j)), after).committed)
  {
    var s := Run(NOTHING, before);
    if j in s.jobs && j !in s.granted {
      assert s.JobFits(j);
      if Possible(s, Timeout(j)) { CancelledNeverCommits(s, Timeout(j), j, after); }
      if Possible(s, Interrupt(j)) { CancelledNeverCommits(s, Interrupt(j), j, after); }
    }
  }

  lemma {:induction false} CancelledNeverCommits(s: State, e: Step, j: JobId, after: seq<Step>)
    requires s.Valid() && Possible(s, e) && e in {Timeout(j), Interrupt(j)} && s.jobs[j].stage != Committing
    ensures Next(s, e).Valid() && j !in Run(Next(s, e), after).committed
  {
    NextKeeps(s, e);
    RunStays(Next(s, e), after, j);
    assert Run(Next(s, e), after).JobFits(j);
  }

  // What a caller is told of what was saved is so, then and ever after.
  lemma {:induction false} ToldTruly(before: seq<Step>, j: JobId, after: seq<Step>)
    ensures NOTHING.Valid()
    ensures var s := Run(NOTHING, before);
            j in s.jobs && s.jobs[j].told.Some? ==>
              && (s.jobs[j].told.value in {TimedOut, Told(NotSaved)} ==> j !in Run(s, after).committed)
              && (s.jobs[j].told.value == Told(Saved) ==> j in Run(s, after).committed)
  {
    var s := Run(NOTHING, before);
    if j in s.jobs && s.jobs[j].told.Some? {
      assert s.JobFits(j);
      RunStays(s, after, j);
      assert Run(s, after).JobFits(j);
    }
  }

  // A job that times out is killed alone: no worker committing for another is.
  // One interrupted just as its reply arrives may take its worker's next job
  // with it.
  lemma KillsItsOwn(s: State, e: Step, j: JobId, w: WorkerId)
    requires s.Valid() && Possible(s, e) && e in {Timeout(j), Interrupt(j)} && w in s.workers
    requires s.workers[w].holder.Some? && s.workers[w].holder.value in s.granted
    requires !s.workers[w].doomed
    ensures w in Next(s, e).workers
    ensures Next(s, e).workers[w].doomed <==> j !in s.granted && s.jobs[j].worker == Some(w)
    ensures Next(s, e).workers[w].doomed ==> s.jobs[j].reply.Some? && e == Interrupt(j)
  {
    assert s.JobFits(j);
    assert s.WorkerFits(w);
  }

  lemma {:induction false} NextOf(s: State, steps: seq<Step>, i: nat)
    requires s.Valid() && i < |steps| && Possible(s, steps[i])
    ensures Next(s, steps[i]).Valid() && Run(s, steps[i..]) == Run(Next(s, steps[i]), steps[i + 1..])
  {
    NextKeeps(s, steps[i]);
    assert steps[i..][1..] == steps[i + 1..];
  }

  lemma {:induction false} RunNone(s: State)
    requires s.Valid()
    ensures Run(s, []) == s
  {
  }

  // A worker at `activity` for `j`, which nobody has stopped.
  ghost predicate At(s: State, j: JobId, w: WorkerId, activity: Activity, stage: Stage, response: Option<Reply>) {
    && j in s.jobs && s.jobs[j] == Job(stage, Some(w), None, None)
    && w in s.workers && s.workers[w].activity == activity && s.workers[w].holder == Some(j)
    && !s.workers[w].dropped && s.workers[w].response == response
  }

  // Its commit is granted as it asks, if its job is running.
  lemma {:induction false} Grants(s: State, j: JobId, w: WorkerId)
    requires s.Valid() && At(s, j, w, Working(j), Running, None)
    ensures var t := Run(s, [Ask(w), HearRequest(w), ReadGrant(w)]);
            At(t, j, w, Granted(j), Committing, None) && t.committed == s.committed
  {
    var steps := [Ask(w), HearRequest(w), ReadGrant(w)];
    assert s.WorkerFits(w);
    hide State.Valid, Run;
    NextOf(s, steps, 0);
    var a := Next(s, Ask(w));
    NextOf(a, steps, 1);
    var b := Next(a, HearRequest(w));
    NextOf(b, steps, 2);
    assert steps[0..] == steps && steps[3..] == [];
    RunNone(Next(b, ReadGrant(w)));
  }

  // It commits, or fails to, and its job's caller is told just that.
  lemma TellsHowItWent(s: State, j: JobId, w: WorkerId, succeeds: bool)
    requires s.Valid() && At(s, j, w, Granted(j), Committing, None)
    ensures var t := Run(s, if succeeds then [Commit(w, true), Respond(w), HearResponse(w), Tell(j)]
                            else [Commit(w, false), HearResponse(w), Tell(j)]);
            && j in t.jobs && t.jobs[j].told == Some(Told(if succeeds then Saved else NotSaved))
            && t.committed == if succeeds then s.committed + {j} else s.committed
  {
    var steps := if succeeds then [Commit(w, true), Respond(w), HearResponse(w), Tell(j)]
                 else [Commit(w, false), HearResponse(w), Tell(j)];
    hide State.Valid, Run;
    NextOf(s, steps, 0);
    var a := Next(s, Commit(w, succeeds));
    if succeeds { NextOf(a, steps, 1); }
    var b := if succeeds then Next(a, Respond(w)) else a;
    var i := if succeeds then 2 else 1;
    NextOf(b, steps, i);
    var c := Next(b, HearResponse(w));
    NextOf(c, steps, i + 1);
    assert steps[0..] == steps && steps[i + 2..] == [];
    RunNone(Next(c, Tell(j)));
  }

  // So a job that nobody stops, of a worker that lives, can be brought to its
  // end: saved, and its caller told so, exactly if its commit succeeds.
  lemma JobsSettle(s: State, j: JobId, w: WorkerId, succeeds: bool) returns (steps: seq<Step>)
    requires s.Valid() && At(s, j, w, Working(j), Running, None)
    ensures var t := Run(s, steps);
            && j in t.jobs && t.jobs[j].told == Some(Told(if succeeds then Saved else NotSaved))
            && (j in t.committed <==> succeeds)
  {
    var asks := [Ask(w), HearRequest(w), ReadGrant(w)];
    var ends := if succeeds then [Commit(w, true), Respond(w), HearResponse(w), Tell(j)]
                else [Commit(w, false), HearResponse(w), Tell(j)];
    steps := asks + ends;
    assert j !in s.committed by { assert s.WorkerFits(w); }
    hide State.Valid, Run;
    Grants(s, j, w);
    TellsHowItWent(Run(s, asks), j, w, succeeds);
    RunsOn(s, asks, ends);
  }

  // Stopping a job whose commit is granted changes nothing but what its caller
  // is told as it is interrupted; any other is cancelled, its worker killed,
  // and its caller told why.
  lemma StoppingTells(s: State, e: Step, j: JobId)
    requires s.Valid() && Possible(s, e) && e in {Timeout(j), Interrupt(j)}
    ensures var t := Next(s, e);
            && j in t.jobs && t.granted == s.granted && t.committed == s.committed
            && (j in s.granted ==> t.workers == s.workers && t.jobs[j].stage == Committing)
            && (j in s.granted && e.Timeout? ==> t == s)
            && (j !in s.granted || e.Interrupt? ==>
                  t.jobs[j].told == Some(if e.Timeout? then TimedOut else Interrupted))
            && (j !in s.granted ==>
                  && t.jobs[j].stage == Cancelled
                  && forall w | w in s.workers ::
                       w in t.workers && (t.workers[w].doomed <==> s.workers[w].doomed || s.jobs[j].worker == Some(w)))
  {
    assert s.JobFits(j);
  }

  // Whatever becomes of a job, its caller can be told in two steps at most: at
  // its deadline, or that its worker is lost.
  lemma CallersToldAtLast(s: State, j: JobId) returns (steps: seq<Step>)
    requires s.Valid() && j in s.jobs && s.jobs[j].told.None?
    ensures |steps| <= 2 && j in Run(s, steps).jobs && Run(s, steps).jobs[j].told.Some?
  {
    assert s.JobFits(j);
    if s.jobs[j].reply.Some? {
      steps := [Tell(j)];
    } else if j !in s.granted {
      steps := [Timeout(j)];
    } else {
      var w := s.jobs[j].worker.value;
      assert s.WorkerFits(w);
      steps := [HearError(w), Tell(j)];
    }
    hide State.Valid, Run;
    NextOf(s, steps, 0);
    var a := Next(s, steps[0]);
    if |steps| == 2 { NextOf(a, steps, 1); }
    var b := if |steps| == 2 then Next(a, Tell(j)) else a;
    assert steps[0..] == steps && steps[|steps|..] == [];
    RunNone(b);
  }

  // No worker lives again.
  lemma DeadStayDead(s: State, e: Step, w: WorkerId)
    requires s.Valid() && Possible(s, e) && w in s.workers && s.workers[w].activity.Dead?
    ensures w in Next(s, e).workers && Next(s, e).workers[w].activity.Dead?
  {
    hide State.WorkerFits, State.JobFits;
  }

  // A job is answered, and before its caller is told its worker is granted the
  // commit of another.
  const ANSWERED: seq<Step> := [Submit(0), Spawn(0), Take(0, 0), Finish(0), HearResponse(0)]
  const ASKED: seq<Step> := [Submit(1), Take(1, 0), Ask(0)]
  const STOPPED: seq<Step> := [HearRequest(0), Interrupt(0)]

  const REUSED := State(
    map[0 := Job(Running, Some(0), Some(NotSaved), None)],
    map[0 := Worker(Idle, false, false, None, None, false, false)], {}, {})

  const ASKING := State(
    map[0 := Job(Running, Some(0), Some(NotSaved), None), 1 := Job(Running, Some(0), None, None)],
    map[0 := Worker(Asking(1), true, false, None, Some(1), false, false)], {}, {})

  const WORKING := State(
    map[0 := Job(Running, Some(0), None, None)],
    map[0 := Worker(Working(0), false, false, None, Some(0), false, false)], {}, {})

  lemma ReachesWorking()
    ensures NOTHING.Valid() && WORKING.Valid() && Run(NOTHING, ANSWERED) == Run(WORKING, ANSWERED[3..])
  {
    var steps := ANSWERED;
    assert NOTHING.Valid() by { NothingIsValid(); }
    hide State.Valid, Run;
    NextOf(NOTHING, steps, 0);
    var a := Next(NOTHING, Submit(0));
    NextOf(a, steps, 1);
    var b := Next(a, Spawn(0));
    NextOf(b, steps, 2);
    assert Next(b, Take(0, 0)) == WORKING;
    assert steps[0..] == steps;
  }

  lemma ReachesReused()
    ensures NOTHING.Valid() && Run(NOTHING, ANSWERED) == REUSED
  {
    ReachesWorking();
    var steps := ANSWERED;
    hide State.Valid, Run;
    NextOf(WORKING, steps, 3);
    var d := Next(WORKING, Finish(0));
    NextOf(d, steps, 4);
    assert Next(d, HearResponse(0)) == REUSED;
    assert steps[5..] == [];
    RunNone(REUSED);
  }

  lemma NothingIsValid()
    ensures NOTHING.Valid()
  {
  }

  lemma {:induction false} RunsOn(s: State, some: seq<Step>, more: seq<Step>)
    requires s.Valid()
    ensures Run(s, some + more) == Run(Run(s, some), more)
    decreases |some|
  {
    hide Next, Possible, State.Valid;
    if some == [] {
      assert some + more == more;
    } else {
      assert (some + more)[1..] == some[1..] + more;
      if Possible(s, some[0]) {
        NextKeeps(s, some[0]);
        RunsOn(Next(s, some[0]), some[1..], more);
      } else {
        RunsOn(s, some[1..], more);
      }
    }
  }

  lemma ReachesAsking()
    ensures REUSED.Valid() && Run(REUSED, ASKED) == ASKING
  {
    ReachesReused();
    var steps := ASKED;
    hide State.Valid, Run;
    NextOf(REUSED, steps, 0);
    var a := Next(REUSED, Submit(1));
    NextOf(a, steps, 1);
    var b := Next(a, Take(1, 0));
    NextOf(b, steps, 2);
    assert Next(b, Ask(0)) == ASKING;
    assert steps[0..] == steps && steps[3..] == [];
    RunNone(ASKING);
  }

  // So it happens: a worker is killed as it commits for a job nobody stopped.
  lemma KillsAnothers()
    ensures NOTHING.Valid()
    ensures var s := Run(NOTHING, ANSWERED + ASKED + STOPPED);
            && 0 in s.workers && s.workers[0].doomed && s.workers[0].holder == Some(1) && 1 in s.granted
            && 1 in s.jobs && s.jobs[1].told == None && s.jobs[1].reply == None
  {
    ReachesReused();
    ReachesAsking();
    RunsOn(NOTHING, ANSWERED, ASKED);
    RunsOn(NOTHING, ANSWERED + ASKED, STOPPED);
    var steps := STOPPED;
    hide State.Valid, Run;
    NextOf(ASKING, steps, 0);
    var d := Next(ASKING, HearRequest(0));
    NextOf(d, steps, 1);
    assert steps[0..] == steps && steps[2..] == [];
    RunNone(Next(d, Interrupt(0)));
  }
}
