/** Changes made under operation IDs (`journaled` in `control-socket.ts`): one
    claim at a time under an ID, a bounded memory of how changes went, and a
    journal that outlives the process. */
module OperationJournal {
  import opened Options

  // A client and operation ID, as one key.
  type Key = string
  // What identifies a request's operation and payload.
  type Digest = string

  // The codes the Relay answers with of itself, and each one's message.
  datatype Code = OperationConflict | ResultUnavailable | OperationInterrupted | OperationFailed | Other(name: string)
  datatype Message = Of(code: Code) | Text(text: string)

  datatype Outcome =
    | Succeeded(kept: bool, payload: string)
    | Failed(code: Code, message: Message, retryable: bool)
    | Interrupted

  // The journal keeps how a change went, never its reply.
  datatype Status =
    | Running
    | Went
    | Broke(code: Option<Code>, message: Option<Message>, retryable: bool)

  datatype Record = Record(digest: Digest, status: Status)

  datatype Answer = Reply(payload: string) | Refusal(code: Code, message: Message, retryable: bool)

  const CONFLICT := Failed(OperationConflict, Of(OperationConflict), false)
  const RECENT_OPERATION_MS: nat := 20 * 60_000
  const MAX_RECENT_OPERATIONS: nat := 500
  const MAX_RECENT_RESULT_BYTES: nat := 64 * 1024

  function GetOr<T>(text: Option<T>, default: T): T {
    if text.Some? then text.value else default
  }

  // How a record reads once nothing in memory tells more.
  function RecordedOutcome(record: Record): Outcome {
    match record.status
    case Went => Succeeded(false, "")
    case Broke(code, message, retryable) =>
      Failed(GetOr(code, OperationFailed), GetOr(message, Of(OperationFailed)), retryable)
    // Only a change whose end was never written reads so.
    case Running => Interrupted
  }

  // How the journal is told a change went.
  function FinishedStatus(outcome: Outcome): Status
    requires !outcome.Interrupted?
  {
    match outcome
    case Succeeded(_, _) => Went
    case Failed(code, message, retryable) => Broke(Some(code), Some(message), retryable)
  }

  // What a repeat is answered of an outcome.
  function SettleRecorded(outcome: Outcome): Answer {
    match outcome
    case Succeeded(kept, payload) =>
      if kept then Reply(payload)
      else Refusal(ResultUnavailable, Of(ResultUnavailable), false)
    case Failed(code, message, retryable) => Refusal(code, message, retryable)
    case Interrupted =>
      Refusal(OperationInterrupted, Of(OperationInterrupted), false)
  }

  function Repeat(entry: Entry, digest: Digest): Answer {
    SettleRecorded(if entry.digest == digest then entry.outcome else CONFLICT)
  }

  // A finished change in memory. Entries are kept in the order they finished.
  datatype Entry = Entry(key: Key, digest: Digest, outcome: Outcome, expiresAt: nat)

  function Lookup(finished: seq<Entry>, key: Key): (found: Option<Entry>)
    ensures found.Some? ==> found.value in finished && found.value.key == key
    ensures found.None? ==> forall e | e in finished :: e.key != key
  {
    if finished == [] then None
    else if finished[0].key == key then Some(finished[0])
    else Lookup(finished[1..], key)
  }

  function Without(finished: seq<Entry>, key: Key): (rest: seq<Entry>)
    ensures forall e :: e in rest <==> e in finished && e.key != key
    ensures |rest| <= |finished|
  {
    if finished == [] then []
    else if finished[0].key == key then Without(finished[1..], key)
    else [finished[0]] + Without(finished[1..], key)
  }

  predicate InOrder(finished: seq<Entry>) {
    forall i, j | 0 <= i < j < |finished| :: finished[i].expiresAt <= finished[j].expiresAt
  }

  // What is left once the oldest changes are forgotten: those whose time is
  // up, and as many as make room for one more.
  function Forgotten(finished: seq<Entry>, now: nat): (rest: seq<Entry>)
    ensures |rest| < MAX_RECENT_OPERATIONS && forall e | e in rest :: e in finished
  {
    if finished == [] || (finished[0].expiresAt > now && |finished| < MAX_RECENT_OPERATIONS) then finished
    else Forgotten(finished[1..], now)
  }

  // Nothing is forgotten before its time unless there are too many, and what
  // is kept is still good.
  lemma {:induction false} ForgetsOldest(finished: seq<Entry>, now: nat)
    ensures var rest := Forgotten(finished, now);
            && |rest| <= |finished| && rest == finished[|finished| - |rest|..]
            && (InOrder(finished) ==> forall e | e in rest :: e.expiresAt > now)
            && (forall i | 0 <= i < |finished| - |rest| ::
                  finished[i].expiresAt <= now || |finished| - i >= MAX_RECENT_OPERATIONS)
  {
    if finished == [] || (finished[0].expiresAt > now && |finished| < MAX_RECENT_OPERATIONS) {
    } else {
      var tail := finished[1..];
      ForgetsOldest(tail, now);
      assert forall i | 0 < i < |finished| :: finished[i] == tail[i - 1];
    }
  }

  // A change just finished, as memory keeps it: a large reply is dropped.
  function Kept(outcome: Outcome): Outcome {
    if outcome.Succeeded? && |outcome.payload| > MAX_RECENT_RESULT_BYTES then Succeeded(false, "") else outcome
  }

  function Remembered(finished: seq<Entry>, entry: Entry, now: nat): (rest: seq<Entry>)
    ensures |rest| <= MAX_RECENT_OPERATIONS
  {
    Forgotten(finished, now) + [entry.(outcome := Kept(entry.outcome), expiresAt := now + RECENT_OPERATION_MS)]
  }

  // A change as it truly went: the request that made it, and its result once
  // it has one.
  datatype Made = Made(digest: Digest, result: Option<Outcome>)

  // What may be told of a change: how it went, that it went through without
  // its reply, or that it was cut off, but never another result.
  predicate Tells(outcome: Outcome, made: Made) {
    || outcome.Interrupted?
    || (made.result.Some? && outcome == made.result.value)
    || (made.result.Some? && made.result.value.Succeeded? && outcome == Succeeded(false, ""))
  }

  // What a request may be answered about a change under its ID.
  ghost predicate AnswerFits(answer: Answer, digest: Digest, made: Made) {
    if digest != made.digest then answer == SettleRecorded(CONFLICT)
    else exists outcome :: Tells(outcome, made) && answer == SettleRecorded(outcome)
  }

  // Writing how a change went and reading it back tells it without its reply.
  lemma RecordTells(digest: Digest, outcome: Outcome)
    requires !outcome.Interrupted?
    ensures Tells(RecordedOutcome(Record(digest, FinishedStatus(outcome))), Made(digest, Some(outcome)))
    ensures outcome.Succeeded? <==> RecordedOutcome(Record(digest, FinishedStatus(outcome))).Succeeded?
  {
  }

  // Failures a change can truly end in aren't mistaken for what the Relay says
  // when it can't tell a result.
  predicate TrueResult(outcome: Outcome) {
    match outcome
    case Succeeded(kept, _) => kept
    case Failed(code, _, _) => code !in {ResultUnavailable, OperationInterrupted, OperationConflict}
    case Interrupted => false
  }

  // An answer that fits never tells a success for a failure, or the reverse.
  lemma AnswerIsHonest(answer: Answer, digest: Digest, made: Made)
    requires AnswerFits(answer, digest, made) && (made.result.Some? ==> TrueResult(made.result.value))
    ensures answer.Reply? ==>
              made.result.Some? && made.result.value == Succeeded(true, answer.payload) && digest == made.digest
    ensures answer.Refusal? && answer.code == ResultUnavailable ==>
              made.result.Some? && made.result.value.Succeeded? && digest == made.digest
    ensures answer.Refusal? && answer.code !in {ResultUnavailable, OperationInterrupted, OperationConflict} ==>
              made.result == Some(Failed(answer.code, answer.message, answer.retryable)) && digest == made.digest
    ensures answer.Refusal? && answer.code == OperationConflict <==> digest != made.digest
  {
    if digest == made.digest {
      var outcome :| Tells(outcome, made) && answer == SettleRecorded(outcome);
    }
  }

  // How far the request that claimed an ID has got: it reads the journal,
  // writes that it starts, has written it, or runs. `known` once the journal
  // showed that it is the one making the change.
  datatype Stage = Reading | Starting | Started | Executing

  datatype Claim = Claim(request: nat, digest: Digest, known: bool, stage: Stage)

  // What a request asked for.
  datatype Asked = Asked(key: Key, digest: Digest)

  ghost predicate NoneTwice(keys: seq<Key>) {
    forall i, j | 0 <= i < j < |keys| :: keys[i] != keys[j]
  }

  ghost predicate EntryFits(entry: Entry, made: map<Key, Made>) {
    entry.key in made ==> entry.digest == made[entry.key].digest && Tells(entry.outcome, made[entry.key])
  }

  // The Relay's memory, which a restart empties, its journal, which nothing
  // does, and what is told of both.
  datatype State = State(
    running: map<Key, Claim>, finished: seq<Entry>, waiting: map<nat, Asked>, writes: map<Key, Outcome>,
    journal: map<Key, Record>, answers: map<nat, Answer>,
    asked: map<nat, Asked>,       // every request
    owed: set<nat>,               // those answered of a change recorded as started
    lost: set<nat>,               // those a restart cut off
    made: map<Key, Made>,         // the changes recorded as started
    executions: seq<Key>,         // the changes run, in order
    misread: set<Key>,            // those memory may tell of falsely, since a failed read
    misled: set<nat>)             // those answered so
  {
    ghost predicate ClaimFits(key: Key)
      requires key in running
    {
      var claim := running[key];
      && claim.request in asked && asked[claim.request] == Asked(key, claim.digest)
      && claim.request !in answers && claim.request !in waiting
      && match claim.stage
         case Reading => !claim.known
         case Starting => claim.known && key !in made
         case Started => claim.known && key in made && made[key] == Made(claim.digest, None) && key !in executions
         case Executing =>
           claim.known && key in made && made[key] == Made(claim.digest, None) && key in executions
    }

    // The journal says nothing of a change that isn't so, and nothing ran
    // that it doesn't hold, nor ran twice.
    ghost predicate Recorded() {
      && journal.Keys == made.Keys
      && (forall k | k in journal :: journal[k].digest == made[k].digest && Tells(RecordedOutcome(journal[k]), made[k]))
      && (forall k | k in writes ::
            k in made && !writes[k].Interrupted? && made[k].result == Some(writes[k]))
      && NoneTwice(executions) && (forall k | k in executions :: k in made)
      && (forall k | k in made && made[k].result.Some? && made[k].result.value.Succeeded? :: k in executions)
    }

    ghost predicate Claimed() {
      && (forall k | k in running :: ClaimFits(k))
      && (forall e | e in finished :: e.key !in running)
      && (forall r | r in waiting :: waiting[r].key in running && r in asked && asked[r] == waiting[r] && r !in answers)
    }

    ghost predicate AnswerIsOwed(r: nat) {
      && r in asked && r in answers && asked[r].key in made
      && AnswerFits(answers[r], asked[r].digest, made[asked[r].key])
    }

    ghost predicate Honest() {
      && |finished| <= MAX_RECENT_OPERATIONS
      && (forall e | e in finished :: e.key in misread || EntryFits(e, made))
      && (forall r | r in owed :: r in misled || AnswerIsOwed(r))
    }

    // Every request but `others` has its answer, or has its turn to come.
    ghost predicate Attended(others: set<nat>) {
      && answers.Keys <= asked.Keys
      && forall r | r in asked && r !in others :: r in answers || r in lost || r in waiting ||
           (asked[r].key in running && running[asked[r].key].request == r)
    }

    ghost predicate ValidBut(others: set<nat>) {
      Recorded() && Claimed() && Honest() && Attended(others)
    }

    ghost predicate Valid() {
      ValidBut({})
    }
  }

  // Answers `requests`, all for `entry.key`, of the change `entry` tells of.
  function AnswerAll(s: State, requests: set<nat>, entry: Entry): State
    requires requests <= s.asked.Keys
  {
    s.(answers := s.answers + map r | r in requests :: Repeat(entry, s.asked[r].digest),
       owed := if entry.key in s.made then s.owed + requests else s.owed,
       misled := if entry.key in s.misread then s.misled + requests else s.misled)
  }

  lemma RepeatFits(entry: Entry, digest: Digest, made: map<Key, Made>)
    requires entry.key in made && EntryFits(entry, made)
    ensures AnswerFits(Repeat(entry, digest), digest, made[entry.key])
  {
    if digest == entry.digest {
      assert Tells(entry.outcome, made[entry.key]);
    }
  }

  lemma AnswerAllKeeps(s: State, requests: set<nat>, entry: Entry)
    requires s.ValidBut(requests) && requests <= s.asked.Keys
    requires forall r | r in requests :: s.asked[r].key == entry.key && r !in s.waiting && r !in s.answers
    requires entry.key in s.running ==> s.running[entry.key].request !in requests
    requires entry.key in s.misread || EntryFits(entry, s.made)
    ensures AnswerAll(s, requests, entry).Valid()
  {
    var t := AnswerAll(s, requests, entry);
    forall r | r in t.owed && r !in t.misled ensures t.AnswerIsOwed(r) {
      if r in requests {
        RepeatFits(entry, s.asked[r].digest, s.made);
      } else {
        assert s.AnswerIsOwed(r);
      }
    }
    forall k | k in t.running ensures t.ClaimFits(k) {
      assert s.ClaimFits(k);
    }
  }

  // Drops the claim on `key`, with those waiting for it, as it settles.
  function Unclaim(s: State, key: Key): State {
    s.(running := s.running - {key}, waiting := map r | r in s.waiting && s.waiting[r].key != key :: s.waiting[r])
  }

  // Those a settling answers: the request that claimed the ID and every repeat
  // waiting for it.
  function Held(s: State, key: Key): set<nat>
    requires key in s.running
  {
    {s.running[key].request} + set r | r in s.waiting && s.waiting[r].key == key
  }

  // The claim on `key` over: `outcome` is in memory under the digest it was
  // made with, and everyone `held` by the claim has an answer.
  function Settle(s: State, key: Key, outcome: Outcome, madeWith: Digest, now: nat, held: set<nat>): State
    requires held <= s.asked.Keys
  {
    var entry := Entry(key, madeWith, outcome, 0);
    AnswerAll(s.(finished := Remembered(s.finished, entry, now)), held, entry)
  }

  lemma HeldAreClaimed(s: State, key: Key)
    requires s.Claimed() && key in s.running
    ensures Held(s, key) <= s.asked.Keys
    ensures forall r | r in Held(s, key) :: s.asked[r].key == key && r !in Unclaim(s, key).waiting && r !in s.answers
  {
    assert s.ClaimFits(key);
  }

  lemma UnclaimKeepsClaims(s: State, key: Key)
    requires s.Claimed() && key in s.running
    ensures Unclaim(s, key).Claimed() && key !in Unclaim(s, key).running
  {
    var t := Unclaim(s, key);
    forall k | k in t.running ensures t.ClaimFits(k) {
      assert s.ClaimFits(k);
    }
  }

  lemma UnclaimKeepsHonest(s: State, key: Key)
    requires s.Honest()
    ensures Unclaim(s, key).Honest()
  {
    hide EntryFits, AnswerFits;
    var t := Unclaim(s, key);
    forall r | r in t.owed && r !in t.misled ensures t.AnswerIsOwed(r) {
      assert s.AnswerIsOwed(r);
    }
  }

  lemma UnclaimKeeps(s: State, key: Key)
    requires s.Valid() && key in s.running
    ensures Unclaim(s, key).ValidBut(Held(s, key)) && key !in Unclaim(s, key).running
    ensures Held(s, key) <= s.asked.Keys
    ensures forall r | r in Held(s, key) :: s.asked[r].key == key && r !in Unclaim(s, key).waiting && r !in s.answers
  {
    hide State.Claimed, State.Honest, Tells, NoneTwice, RecordedOutcome;
    HeldAreClaimed(s, key);
    UnclaimKeepsClaims(s, key);
    UnclaimKeepsHonest(s, key);
  }

  lemma SettleKeeps(s: State, key: Key, outcome: Outcome, madeWith: Digest, now: nat, held: set<nat>)
    requires s.ValidBut(held) && held <= s.asked.Keys && key !in s.running
    requires forall r | r in held :: s.asked[r].key == key && r !in s.waiting && r !in s.answers
    requires key in s.misread || EntryFits(Entry(key, madeWith, outcome, 0), s.made)
    ensures Settle(s, key, outcome, madeWith, now, held).Valid()
  {
    var entry := Entry(key, madeWith, outcome, 0);
    var t := s.(finished := Remembered(s.finished, entry, now));
    forall k | k in t.running ensures t.ClaimFits(k) {
      assert s.ClaimFits(k);
    }
    forall r | r in t.owed && r !in t.misled ensures t.AnswerIsOwed(r) {
      assert s.AnswerIsOwed(r);
    }
    AnswerAllKeeps(t, held, entry);
  }

  // The change under `key` has its result.
  function GivenResult(s: State, key: Key, result: Outcome): State
    requires key in s.made
  {
    s.(made := s.made[key := s.made[key].(result := Some(result))])
  }

  lemma ResultKeeps(s: State, key: Key, result: Outcome, held: set<nat>)
    requires s.ValidBut(held) && key in s.made && s.made[key].result == None
    requires key !in s.running && forall e | e in s.finished :: e.key != key
    requires result.Succeeded? ==> key in s.executions
    ensures GivenResult(s, key, result).ValidBut(held)
  {
    var t := GivenResult(s, key, result);
    forall k | k in t.running ensures t.ClaimFits(k) {
      assert s.ClaimFits(k);
    }
    forall r | r in t.owed && r !in t.misled ensures t.AnswerIsOwed(r) {
      assert s.AnswerIsOwed(r);
      if s.asked[r].key == key {
        ResultKeepsAnswers(s.answers[r], s.asked[r].digest, s.made[key], result);
      }
    }
  }

  // A change that gets its result is still told truly by what told it before.
  lemma ResultKeepsAnswers(answer: Answer, digest: Digest, made: Made, result: Outcome)
    requires made.result == None && AnswerFits(answer, digest, made)
    ensures AnswerFits(answer, digest, made.(result := Some(result)))
  {
    if digest == made.digest {
      var outcome :| Tells(outcome, made) && answer == SettleRecorded(outcome);
      assert Tells(outcome, made.(result := Some(result)));
    }
  }

  // The change under `key` is on record as started.
  function GivenStart(s: State, key: Key, digest: Digest): State {
    s.(journal := s.journal[key := Record(digest, Running)], made := s.made[key := Made(digest, None)])
  }

  lemma StartKeeps(s: State, key: Key, digest: Digest, held: set<nat>)
    requires s.ValidBut(held) && key !in s.made && key !in s.running && forall e | e in s.finished :: e.key != key
    ensures GivenStart(s, key, digest).ValidBut(held)
  {
    var t := GivenStart(s, key, digest);
    forall k | k in t.running ensures t.ClaimFits(k) {
      assert s.ClaimFits(k);
    }
    forall r | r in t.owed && r !in t.misled ensures t.AnswerIsOwed(r) {
      assert s.AnswerIsOwed(r);
    }
  }

  // Moves the claim on `key` on.
  function Advance(s: State, key: Key, stage: Stage): State
    requires key in s.running
  {
    s.(running := s.running[key := s.running[key].(known := true, stage := stage)])
  }

  lemma AdvanceKeeps(s: State, key: Key, stage: Stage)
    requires s.Recorded() && s.Honest() && s.Attended({}) && key in s.running
    requires Advance(s, key, stage).ClaimFits(key)
    requires forall k | k in s.running && k != key :: s.ClaimFits(k)
    requires forall e | e in s.finished :: e.key !in s.running
    requires forall r | r in s.waiting ::
               s.waiting[r].key in s.running && r in s.asked && s.asked[r] == s.waiting[r] && r !in s.answers
    ensures Advance(s, key, stage).Valid()
  {
    var t := Advance(s, key, stage);
    forall k | k in t.running ensures t.ClaimFits(k) {
      if k != key { assert s.ClaimFits(k); }
    }
    forall r | r in t.owed && r !in t.misled ensures t.AnswerIsOwed(r) {
      assert s.AnswerIsOwed(r);
    }
  }

  // How a write to the journal goes; a failed one may have gone through.
  datatype WriteFate = Written | Unwritten | WrittenUnheard

  datatype Event =
    // A request for a change under an ID.
    | Request(r: nat, key: Key, digest: Digest, now: nat)
    // The claim's read of the journal, or its failure.
    | ReadJournal(key: Key, now: nat)
    | ReadFails(key: Key, failure: Outcome, now: nat)
    // Its write that the change starts.
    | WriteStart(key: Key, fate: WriteFate, failure: Outcome, now: nat)
    // It runs, or what comes before it fails, or its lane refuses it.
    | Begin(key: Key)
    | Unbegun(key: Key, failure: Outcome, now: nat)
    | Refused(key: Key, failure: Outcome, now: nat)
    | End(key: Key, outcome: Outcome, now: nat)
    // A write of how it went, or giving up on it.
    | WriteOutcome(key: Key, fate: WriteFate)
    | GiveUp(key: Key)
    // The Relay goes down, at any point, and starts again.
    | Restart

  function Requested(s: State, r: nat, key: Key, digest: Digest, now: nat): State
    requires r !in s.asked
  {
    var t := s.(asked := s.asked[r := Asked(key, digest)]);
    if key in s.running then
      var live := s.running[key];
      // A claim yet to read the journal can't tell whose change this is.
      if live.known && live.digest != digest then AnswerAll(t, {r}, Entry(key, live.digest, CONFLICT, 0))
      else t.(waiting := s.waiting[r := Asked(key, digest)])
    else
      var recent := Lookup(s.finished, key);
      if recent.Some? && recent.value.expiresAt > now then AnswerAll(t, {r}, recent.value)
      else
        t.(finished := Without(s.finished, key), running := s.running[key := Claim(r, digest, false, Reading)],
           misread := s.misread - {key})
  }

  function Restarted(s: State): State {
    s.(running := map[], finished := [], waiting := map[], writes := map[],
      lost := s.lost + (s.asked.Keys - s.answers.Keys), misread := {})
  }

  function OutcomeWritten(s: State, key: Key, fate: WriteFate): State
    requires key in s.writes && key in s.journal && !s.writes[key].Interrupted?
  {
    var t := if fate == Unwritten then s
             else s.(journal := s.journal[key := s.journal[key].(status := FinishedStatus(s.writes[key]))]);
    if fate == Written then t.(writes := t.writes - {key}) else t
  }

  // Settles the claim on `key` once what is known of its change is `t`.
  function SettleClaim(s: State, t: State, key: Key, outcome: Outcome, madeWith: Digest, now: nat): State
    requires key in s.running && Held(s, key) <= t.asked.Keys
  {
    Settle(t, key, outcome, madeWith, now, Held(s, key))
  }

  // A failed read hides the record of `key`, if there is one.
  function Hidden(s: State, key: Key): State {
    if key in s.made then s.(misread := s.misread + {key}) else s
  }

  predicate Possible(s: State, e: Event) {
    match e
    case Request(r, _, _, _) => r !in s.asked
    case ReadJournal(key, _) => key in s.running && s.running[key].stage == Reading
    case ReadFails(key, failure, _) => key in s.running && s.running[key].stage == Reading && failure.Failed?
    case WriteStart(key, _, failure, _) => key in s.running && s.running[key].stage == Starting && failure.Failed?
    case Begin(key) => key in s.running && s.running[key].stage == Started
    case Unbegun(key, failure, _) => key in s.running && s.running[key].stage == Started && failure.Failed?
    case Refused(key, failure, _) => key in s.running && s.running[key].stage == Started && failure.Failed?
    case End(key, outcome, _) => key in s.running && s.running[key].stage == Executing && !outcome.Interrupted?
    case WriteOutcome(key, _) => key in s.writes
    case GiveUp(key) => key in s.writes
    case Restart => true
  }

  ghost function Step(s: State, e: Event): State
    requires s.Valid() && Possible(s, e)
  {
    match e
    case Request(r, key, digest, now) => Requested(s, r, key, digest, now)
    case ReadJournal(key, now) =>
      if key in s.journal then
        // The ID is used already: the claim ends in what its record says.
        UnclaimKeeps(s, key);
        SettleClaim(s, Unclaim(s, key), key, RecordedOutcome(s.journal[key]), s.journal[key].digest, now)
      else
        Advance(s, key, Starting)
    case ReadFails(key, failure, now) =>
      UnclaimKeeps(s, key);
      SettleClaim(s, Hidden(Unclaim(s, key), key), key, failure, s.running[key].digest, now)
    case WriteStart(key, fate, failure, now) =>
      var digest := s.running[key].digest;
      UnclaimKeeps(s, key);
      if fate == Written then Advance(GivenStart(s, key, digest), key, Started)
      else if fate == Unwritten then SettleClaim(s, Unclaim(s, key), key, failure, digest, now)
      else
        SettleClaim(s, GivenResult(GivenStart(Unclaim(s, key), key, digest), key, failure), key, failure, digest, now)
    case Begin(key) => Advance(s, key, Executing).(executions := s.executions + [key])
    case Unbegun(key, failure, now) =>
      assert s.ClaimFits(key);
      UnclaimKeeps(s, key);
      SettleClaim(s, GivenResult(Unclaim(s, key), key, failure), key, failure, s.running[key].digest, now)
    case Refused(key, failure, now) => Ended(s, key, failure, now)
    case End(key, outcome, now) => Ended(s, key, outcome, now)
    case WriteOutcome(key, fate) => OutcomeWritten(s, key, fate)
    case GiveUp(key) => s.(writes := s.writes - {key})
    case Restart => Restarted(s)
  }

  ghost function Ended(s: State, key: Key, outcome: Outcome, now: nat): State
    requires s.Valid() && key in s.running && s.running[key].stage in {Started, Executing}
  {
    assert s.ClaimFits(key);
    UnclaimKeeps(s, key);
    var t := GivenResult(Unclaim(s, key), key, outcome);
    SettleClaim(s, t.(writes := t.writes[key := outcome]), key, outcome, s.running[key].digest, now)
  }

  lemma AskKeeps(s: State, r: nat, key: Key, digest: Digest)
    requires s.Valid() && r !in s.asked
    ensures s.(asked := s.asked[r := Asked(key, digest)]).ValidBut({r})
    ensures r !in s.waiting && r !in s.answers && forall k | k in s.running :: s.running[k].request != r
  {
    var t := s.(asked := s.asked[r := Asked(key, digest)]);
    forall k | k in t.running ensures t.ClaimFits(k) {
      assert s.ClaimFits(k);
    }
    forall o | o in t.owed && o !in t.misled ensures t.AnswerIsOwed(o) {
      assert s.AnswerIsOwed(o);
    }
    forall k | k in s.running ensures s.running[k].request != r {
      assert s.ClaimFits(k);
    }
  }

  // A claim known to be making its change tells nothing false of it.
  lemma LiveFits(s: State, key: Key)
    requires s.Valid() && key in s.running && s.running[key].known
    ensures EntryFits(Entry(key, s.running[key].digest, Interrupted, 0), s.made)
  {
    assert s.ClaimFits(key);
  }

  // A repeat sent while the claim is known to be another request's change.
  lemma ConflictKeeps(s: State, r: nat, key: Key, digest: Digest)
    requires s.Valid() && r !in s.asked && key in s.running
    requires s.running[key].known && s.running[key].digest != digest
    ensures AnswerAll(s.(asked := s.asked[r := Asked(key, digest)]), {r},
            Entry(key, s.running[key].digest, CONFLICT, 0)).Valid()
  {
    hide State.ValidBut, State.ClaimFits, EntryFits, SettleRecorded;
    var t, entry := s.(asked := s.asked[r := Asked(key, digest)]), Entry(key, s.running[key].digest, CONFLICT, 0);
    AskKeeps(s, r, key, digest);
    LiveFits(s, key);
    AnswerAllKeeps(t, {r}, entry.(outcome := Interrupted));
    assert AnswerAll(t, {r}, entry) == AnswerAll(t, {r}, entry.(outcome := Interrupted));
  }

  lemma RequestKeeps(s: State, r: nat, key: Key, digest: Digest, now: nat)
    requires s.Valid() && r !in s.asked
    ensures Requested(s, r, key, digest, now).Valid()
  {
    hide State.ValidBut, EntryFits, AnswerAll, Lookup, Without;
    var t := s.(asked := s.asked[r := Asked(key, digest)]);
    AskKeeps(s, r, key, digest);
    if key in s.running {
      if s.running[key].known && s.running[key].digest != digest {
        ConflictKeeps(s, r, key, digest);
      } else {
        WaitKeeps(t, r);
      }
    } else {
      var recent := Lookup(s.finished, key);
      if recent.Some? && recent.value.expiresAt > now {
        RecentFits(t, recent.value, {r});
        AnswerAllKeeps(t, {r}, recent.value);
      } else {
        ClaimKeeps(t, r);
      }
    }
  }

  lemma RecentFits(s: State, entry: Entry, held: set<nat>)
    requires s.ValidBut(held) && entry in s.finished
    ensures entry.key in s.misread || EntryFits(entry, s.made)
  {
  }

  lemma WaitKeeps(t: State, r: nat)
    requires t.ValidBut({r}) && r in t.asked && r !in t.answers && t.asked[r].key in t.running
    requires t.running[t.asked[r].key].request != r
    ensures t.(waiting := t.waiting[r := t.asked[r]]).Valid()
  {
    var u := t.(waiting := t.waiting[r := t.asked[r]]);
    forall k | k in u.running ensures u.ClaimFits(k) {
      assert t.ClaimFits(k);
    }
    forall o | o in u.owed && o !in u.misled ensures u.AnswerIsOwed(o) {
      assert t.AnswerIsOwed(o);
    }
  }

  lemma ClaimKeeps(t: State, r: nat)
    requires t.ValidBut({r}) && r in t.asked && r !in t.answers && r !in t.waiting && t.asked[r].key !in t.running
    ensures t.(finished := Without(t.finished, t.asked[r].key),
               running := t.running[t.asked[r].key := Claim(r, t.asked[r].digest, false, Reading)],
               misread := t.misread - {t.asked[r].key}).Valid()
  {
    var key := t.asked[r].key;
    var u := t.(
      finished := Without(t.finished, key), running := t.running[key := Claim(r, t.asked[r].digest, false, Reading)],
      misread := t.misread - {key});
    forall k | k in u.running ensures u.ClaimFits(k) {
      if k != key { assert t.ClaimFits(k); }
    }
    forall o | o in u.owed && o !in u.misled ensures u.AnswerIsOwed(o) {
      assert t.AnswerIsOwed(o);
    }
  }

  lemma AwaitsWrite(t: State, key: Key, outcome: Outcome, held: set<nat>)
    requires t.ValidBut(held) && key in t.made && t.made[key].result == Some(outcome) && !outcome.Interrupted?
    ensures t.(writes := t.writes[key := outcome]).ValidBut(held)
  {
    var u := t.(writes := t.writes[key := outcome]);
    forall k | k in u.running ensures u.ClaimFits(k) {
      assert t.ClaimFits(k);
    }
    forall o | o in u.owed && o !in u.misled ensures u.AnswerIsOwed(o) {
      assert t.AnswerIsOwed(o);
    }
  }

  lemma EndKeeps(s: State, key: Key, outcome: Outcome, now: nat)
    requires s.Valid() && key in s.running && s.running[key].stage in {Started, Executing} && !outcome.Interrupted?
    requires s.running[key].stage == Started ==> outcome.Failed?
    ensures Ended(s, key, outcome, now).Valid()
  {
    assert s.ClaimFits(key);
    UnclaimKeeps(s, key);
    var t := GivenResult(Unclaim(s, key), key, outcome);
    ResultKeeps(Unclaim(s, key), key, outcome, Held(s, key));
    var u := t.(writes := t.writes[key := outcome]);
    AwaitsWrite(t, key, outcome, Held(s, key));
    SettleKeeps(u, key, outcome, s.running[key].digest, now, Held(s, key));
  }

  // A journal that was read truly settles an ID as its change went.
  lemma ReadKeeps(s: State, key: Key, now: nat)
    requires s.Valid() && key in s.running && s.running[key].stage == Reading
    ensures Step(s, ReadJournal(key, now)).Valid()
  {
    UnclaimKeeps(s, key);
    if key in s.journal {
      SettleKeeps(Unclaim(s, key), key, RecordedOutcome(s.journal[key]), s.journal[key].digest, now, Held(s, key));
    } else {
      assert s.ClaimFits(key);
      AdvanceKeeps(s, key, Starting);
    }
  }

  lemma HiddenKeeps(s: State, key: Key, held: set<nat>)
    requires s.ValidBut(held)
    ensures Hidden(s, key).ValidBut(held)
  {
    var t := Hidden(s, key);
    forall k | k in t.running ensures t.ClaimFits(k) {
      assert s.ClaimFits(k);
    }
    forall r | r in t.owed && r !in t.misled ensures t.AnswerIsOwed(r) {
      assert s.AnswerIsOwed(r);
    }
  }

  lemma ReadFailsKeeps(s: State, key: Key, failure: Outcome, now: nat)
    requires s.Valid() && Possible(s, ReadFails(key, failure, now))
    ensures Step(s, ReadFails(key, failure, now)).Valid()
  {
    UnclaimKeeps(s, key);
    var t := Hidden(Unclaim(s, key), key);
    HiddenKeeps(Unclaim(s, key), key, Held(s, key));
    SettleKeeps(t, key, failure, s.running[key].digest, now, Held(s, key));
  }

  // A start that is on record, though its writing seemed to fail.
  lemma UnheardKeeps(s: State, key: Key, failure: Outcome, now: nat)
    requires s.Valid() && key in s.running && s.running[key].stage == Starting && failure.Failed?
    ensures Held(s, key) <= s.asked.Keys
    ensures SettleClaim(s, GivenResult(GivenStart(Unclaim(s, key), key, s.running[key].digest), key, failure), key,
                        failure, s.running[key].digest, now).Valid()
  {
    var digest, held := s.running[key].digest, Held(s, key);
    NotStarted(s, key);
    UnclaimKeeps(s, key);
    hide State.ValidBut, Held, Settle;
    StartKeeps(Unclaim(s, key), key, digest, held);
    var t := GivenStart(Unclaim(s, key), key, digest);
    UnheardResult(t, key, failure, digest, now, held);
  }

  lemma UnheardResult(t: State, key: Key, failure: Outcome, digest: Digest, now: nat, held: set<nat>)
    requires t.ValidBut(held) && held <= t.asked.Keys && key in t.made && t.made[key] == Made(digest, None)
    requires failure.Failed? && key !in t.running && (forall e | e in t.finished :: e.key != key)
    requires forall r | r in held :: t.asked[r].key == key && r !in t.waiting && r !in t.answers
    ensures Settle(GivenResult(t, key, failure), key, failure, digest, now, held).Valid()
  {
    hide State.ValidBut, Settle;
    ResultKeeps(t, key, failure, held);
    SettleKeeps(GivenResult(t, key, failure), key, failure, digest, now, held);
  }

  lemma NotStarted(s: State, key: Key)
    requires s.Valid() && key in s.running && s.running[key].stage == Starting
    ensures key !in s.made && forall e | e in s.finished :: e.key != key
  {
    assert s.ClaimFits(key);
  }

  lemma UnwrittenKeeps(s: State, key: Key, failure: Outcome, now: nat)
    requires s.Valid() && key in s.running && s.running[key].stage == Starting
    ensures Held(s, key) <= s.asked.Keys
    ensures SettleClaim(s, Unclaim(s, key), key, failure, s.running[key].digest, now).Valid()
  {
    NotStarted(s, key);
    UnclaimKeeps(s, key);
    hide State.ValidBut, Held, Settle;
    SettleKeeps(Unclaim(s, key), key, failure, s.running[key].digest, now, Held(s, key));
  }

  lemma WriteStartKeeps(s: State, key: Key, fate: WriteFate, failure: Outcome, now: nat)
    requires s.Valid() && Possible(s, WriteStart(key, fate, failure, now))
    ensures Step(s, WriteStart(key, fate, failure, now)).Valid()
  {
    hide State.ValidBut, SettleClaim, GivenStart, GivenResult, Unclaim, Advance;
    match fate
    case Written => WrittenKeeps(s, key);
    case Unwritten => UnwrittenKeeps(s, key, failure, now);
    case WrittenUnheard => UnheardKeeps(s, key, failure, now);
  }

  lemma WrittenKeeps(s: State, key: Key)
    requires s.Valid() && key in s.running && s.running[key].stage == Starting
    ensures Advance(GivenStart(s, key, s.running[key].digest), key, Started).Valid()
  {
    var t := GivenStart(s, key, s.running[key].digest);
    assert s.ClaimFits(key);
    forall k | k in t.running && k != key ensures t.ClaimFits(k) {
      assert s.ClaimFits(k);
    }
    forall o | o in t.owed && o !in t.misled ensures t.AnswerIsOwed(o) {
      assert s.AnswerIsOwed(o);
    }
    AdvanceKeeps(t, key, Started);
  }

  lemma BeginKeeps(s: State, key: Key)
    requires s.Valid() && Possible(s, Begin(key))
    ensures Step(s, Begin(key)).Valid()
  {
    assert s.ClaimFits(key);
    RunsOnce(s, key);
    AdvanceKeeps(s.(executions := s.executions + [key]), key, Executing);
  }

  lemma RunsOnce(s: State, key: Key)
    requires s.Valid() && key in s.running && s.running[key].stage == Started
    ensures var t := s.(executions := s.executions + [key]);
            && t.Recorded() && t.Honest() && t.Attended({})
            && (forall k | k in t.running && k != key :: t.ClaimFits(k)) && key in t.executions
  {
    var t := s.(executions := s.executions + [key]);
    assert s.ClaimFits(key);
    assert t.executions[|s.executions|] == key;
    forall k | k in t.running && k != key ensures t.ClaimFits(k) {
      assert s.ClaimFits(k);
    }
    forall o | o in t.owed && o !in t.misled ensures t.AnswerIsOwed(o) {
      assert s.AnswerIsOwed(o);
    }
  }

  lemma UnbegunKeeps(s: State, key: Key, failure: Outcome, now: nat)
    requires s.Valid() && Possible(s, Unbegun(key, failure, now))
    ensures Step(s, Unbegun(key, failure, now)).Valid()
  {
    assert s.ClaimFits(key);
    UnclaimKeeps(s, key);
    ResultKeeps(Unclaim(s, key), key, failure, Held(s, key));
    SettleKeeps(GivenResult(Unclaim(s, key), key, failure), key, failure, s.running[key].digest, now, Held(s, key));
  }

  lemma OutcomeRecorded(s: State, key: Key, fate: WriteFate)
    requires s.Recorded() && key in s.writes
    ensures key in s.journal && OutcomeWritten(s, key, fate).Recorded()
    ensures var t := OutcomeWritten(s, key, fate);
            t == s.(journal := t.journal, writes := t.writes) && !s.writes[key].Interrupted?
  {
    hide FinishedStatus, RecordedOutcome, Tells, NoneTwice;
    assert s.made[key].result == Some(s.writes[key]);
    RecordTells(s.journal[key].digest, s.writes[key]);
  }

  lemma WriteOutcomeKeeps(s: State, key: Key, fate: WriteFate)
    requires s.Valid() && key in s.writes
    ensures key in s.journal && OutcomeWritten(s, key, fate).Valid()
  {
    OutcomeRecorded(s, key, fate);
    hide FinishedStatus, RecordedOutcome, Tells, EntryFits, NoneTwice, State.Recorded;
    var t := OutcomeWritten(s, key, fate);
    forall k | k in s.running ensures t.ClaimFits(k) {
      assert s.ClaimFits(k);
    }
    forall o | o in s.owed && o !in s.misled ensures t.AnswerIsOwed(o) {
      assert s.AnswerIsOwed(o);
    }
  }

  lemma GiveUpKeeps(s: State, key: Key)
    requires s.Valid() && key in s.writes
    ensures s.(writes := s.writes - {key}).Valid()
  {
    var t := s.(writes := s.writes - {key});
    forall k | k in s.running ensures t.ClaimFits(k) {
      assert s.ClaimFits(k);
    }
    forall o | o in s.owed && o !in s.misled ensures t.AnswerIsOwed(o) {
      assert s.AnswerIsOwed(o);
    }
  }

  lemma RestartKeeps(s: State)
    requires s.Valid()
    ensures Restarted(s).Valid()
  {
    var t := Restarted(s);
    forall o | o in t.owed && o !in t.misled ensures t.AnswerIsOwed(o) {
      assert s.AnswerIsOwed(o);
    }
  }

  lemma LateStepKeeps(s: State, e: Event)
    requires s.Valid() && Possible(s, e)
    requires e.Refused? || e.End? || e.WriteOutcome? || e.GiveUp? || e.Restart? || e.Request?
    ensures Step(s, e).Valid()
  {
    hide State.ValidBut, Ended, Requested, OutcomeWritten, Restarted, Unclaim, SettleClaim, Advance, GivenStart,
      GivenResult;
    match e
    case Request(r, key, digest, now) => RequestKeeps(s, r, key, digest, now);
    case Refused(key, failure, now) => EndKeeps(s, key, failure, now);
    case End(key, outcome, now) => EndKeeps(s, key, outcome, now);
    case WriteOutcome(key, fate) => WriteOutcomeKeeps(s, key, fate);
    case GiveUp(key) => GiveUpKeeps(s, key);
    case Restart => RestartKeeps(s);
  }

  lemma StepKeeps(s: State, e: Event)
    requires s.Valid() && Possible(s, e)
    ensures Step(s, e).Valid()
  {
    hide State.ValidBut, Step;
    match e
    case ReadJournal(key, now) => ReadKeeps(s, key, now);
    case ReadFails(key, failure, now) => ReadFailsKeeps(s, key, failure, now);
    case WriteStart(key, fate, failure, now) => WriteStartKeeps(s, key, fate, failure, now);
    case Begin(key) => BeginKeeps(s, key);
    case Unbegun(key, failure, now) => UnbegunKeeps(s, key, failure, now);
    case _ => LateStepKeeps(s, e);
  }

  // Settling adds answers for those it holds, and changes nothing else told.
  lemma SettleLeaves(s: State, t: State, key: Key, outcome: Outcome, madeWith: Digest, now: nat)
    requires key in s.running && Held(s, key) <= t.asked.Keys
    ensures var u := SettleClaim(s, t, key, outcome, madeWith, now);
            && u.made == t.made && u.executions == t.executions && u.misread == t.misread && u.running == t.running
            && u.asked == t.asked && u.misled == t.misled + (if key in t.misread then Held(s, key) else {})
            && (forall r | r in Held(s, key) :: r in u.answers)
            && forall r | r in t.answers && r !in Held(s, key) :: r in u.answers && u.answers[r] == t.answers[r]
  {
  }

  // Whether a read of the journal for `key` fails.
  predicate FailsToRead(e: Event, key: Key) {
    e.ReadFails? && e.key == key
  }

  // What step `e` leaves of a state whose telling is `before`.
  ghost predicate Leaves(s: State, e: Event, key: Key, r: nat, t: State) {
    && (key in s.made ==> key in t.made && t.made[key].digest == s.made[key].digest)
    && (key in s.made && s.made[key].result.Some? ==> t.made[key] == s.made[key])
    && s.executions <= t.executions
    && (key in t.misread ==> key in s.misread || FailsToRead(e, key))
    && (r in t.misled ==>
          r in s.misled || (r in t.asked && (t.asked[r].key in s.misread || FailsToRead(e, t.asked[r].key))))
    && (r in s.answers ==> r in t.answers && t.answers[r] == s.answers[r])
    && (r in s.asked ==> r in t.asked && t.asked[r] == s.asked[r])
  }

  lemma StartedOnRecord(s: State, key: Key)
    requires s.Valid() && key in s.running
    ensures s.running[key].stage in {Started, Executing} ==> key in s.made && s.made[key].result == None
    ensures s.running[key].stage == Starting ==> key !in s.made
  {
    assert s.ClaimFits(key);
  }

  lemma EndLeaves(s: State, e: Event, key: Key, outcome: Outcome, now: nat, k: Key, r: nat)
    requires s.Valid() && key in s.running && s.running[key].stage in {Started, Executing} && !e.ReadFails?
    ensures Leaves(s, e, k, r, Ended(s, key, outcome, now))
  {
    hide SettleClaim, Held, State.ValidBut;
    StartedOnRecord(s, key);
    UnclaimKeeps(s, key);
    var t := GivenResult(Unclaim(s, key), key, outcome);
    var u := t.(writes := t.writes[key := outcome]);
    SettleLeaves(s, u, key, outcome, s.running[key].digest, now);
  }

  lemma UnbegunLeaves(s: State, e: Event, k: Key, r: nat)
    requires s.Valid() && Possible(s, e) && e.Unbegun?
    ensures Leaves(s, e, k, r, Step(s, e))
  {
    hide SettleClaim, Held, State.ValidBut;
    StartedOnRecord(s, e.key);
    UnclaimKeeps(s, e.key);
    SettleLeaves(s, GivenResult(Unclaim(s, e.key), e.key, e.failure), e.key, e.failure, s.running[e.key].digest, e.now);
  }

  lemma StartLeaves(s: State, e: Event, k: Key, r: nat)
    requires s.Valid() && Possible(s, e) && e.WriteStart?
    ensures Leaves(s, e, k, r, Step(s, e))
  {
    hide SettleClaim, Held, State.ValidBut;
    var digest := s.running[e.key].digest;
    StartedOnRecord(s, e.key);
    UnclaimKeeps(s, e.key);
    var t := Unclaim(s, e.key);
    if e.fate == Unwritten {
      SettleLeaves(s, t, e.key, e.failure, digest, e.now);
    } else if e.fate == WrittenUnheard {
      SettleLeaves(s, GivenResult(GivenStart(t, e.key, digest), e.key, e.failure), e.key, e.failure, digest, e.now);
    }
  }

  lemma ReadLeaves(s: State, e: Event, k: Key, r: nat)
    requires s.Valid() && Possible(s, e) && (e.ReadJournal? || e.ReadFails?)
    ensures Leaves(s, e, k, r, Step(s, e))
  {
    hide SettleClaim, Held, State.ValidBut, RecordedOutcome;
    var key := e.key;
    UnclaimKeeps(s, key);
    if e.ReadFails? {
      SettleLeaves(s, Hidden(Unclaim(s, key), key), key, e.failure, s.running[key].digest, e.now);
    } else if key in s.journal {
      SettleLeaves(s, Unclaim(s, key), key, RecordedOutcome(s.journal[key]), s.journal[key].digest, e.now);
    }
  }

  lemma RequestLeaves(s: State, e: Event, k: Key, o: nat)
    requires s.Valid() && Possible(s, e) && e.Request?
    ensures Leaves(s, e, k, o, Requested(s, e.r, e.key, e.digest, e.now))
  {
    hide State.ValidBut, Lookup, Without, AnswerAll;
    Answered(s);
    var key, r := e.key, e.r;
    var t := s.(asked := s.asked[r := Asked(key, e.digest)]);
    if key in s.running {
      AnswerAllLeaves(t, {r}, Entry(key, s.running[key].digest, CONFLICT, 0));
    } else {
      var recent := Lookup(s.finished, key);
      if recent.Some? && recent.value.expiresAt > e.now {
        AnswerAllLeaves(t, {r}, recent.value);
      }
    }
  }

  lemma AnswerAllLeaves(s: State, requests: set<nat>, entry: Entry)
    requires requests <= s.asked.Keys
    ensures var u := AnswerAll(s, requests, entry);
            && u.made == s.made && u.executions == s.executions && u.misread == s.misread
            && u.asked == s.asked && u.misled == s.misled + (if entry.key in s.misread then requests else {})
            && forall r | r in s.answers && r !in requests :: r in u.answers && u.answers[r] == s.answers[r]
  {
  }

  lemma Answered(s: State)
    requires s.Valid()
    ensures s.answers.Keys <= s.asked.Keys
  {
  }

  lemma OutcomeLeaves(s: State, e: Event, key: Key, fate: WriteFate, k: Key, r: nat)
    requires s.Valid() && key in s.writes && !e.ReadFails?
    ensures key in s.journal && Leaves(s, e, k, r, OutcomeWritten(s, key, fate))
  {
    hide FinishedStatus, RecordedOutcome, Tells, NoneTwice, State.Claimed, State.Honest, State.Attended;
    assert key in s.made;
  }

  lemma OtherLeaves(s: State, e: Event, k: Key, r: nat)
    requires s.Valid() && Possible(s, e) && (e.GiveUp? || e.Begin? || e.Restart?)
    ensures Leaves(s, e, k, r, Step(s, e))
  {
    hide State.ValidBut, FinishedStatus, NoneTwice;
  }

  // No step undoes a start, a result, a run or an answer.
  lemma StepLeaves(s: State, e: Event, k: Key, r: nat)
    requires s.Valid() && Possible(s, e)
    ensures Leaves(s, e, k, r, Step(s, e))
  {
    hide SettleClaim, Held, Ended, Leaves, Requested, State.ValidBut, OutcomeWritten, Restarted;
    match e
    case Request(o, key, digest, now) => RequestLeaves(s, e, k, r);
    case WriteOutcome(key, fate) => OutcomeLeaves(s, e, key, fate, k, r);
    case GiveUp(_) => OtherLeaves(s, e, k, r);
    case Begin(_) => OtherLeaves(s, e, k, r);
    case Restart => OtherLeaves(s, e, k, r);
    case ReadJournal(_, _) => ReadLeaves(s, e, k, r);
    case ReadFails(_, _, _) => ReadLeaves(s, e, k, r);
    case Refused(key, failure, now) => EndLeaves(s, e, key, failure, now, k, r);
    case End(key, outcome, now) => EndLeaves(s, e, key, outcome, now, k, r);
    case WriteStart(_, _, _, _) => StartLeaves(s, e, k, r);
    case Unbegun(_, _, _) => UnbegunLeaves(s, e, k, r);
  }

  const NOTHING := State(map[], [], map[], map[], map[], map[], map[], {}, {}, map[], [], {}, {})

  lemma NothingIsValid()
    ensures NOTHING.Valid()
  {
  }

  // The Relay after `events`, any of which that can't happen doesn't.
  ghost function Run(s: State, events: seq<Event>): State
    requires s.Valid()
    decreases |events|
  {
    if events == [] then s
    else if !Possible(s, events[0]) then Run(s, events[1..])
    else
      StepKeeps(s, events[0]);
      Run(Step(s, events[0]), events[1..])
  }

  lemma {:induction false} RunKeeps(s: State, events: seq<Event>)
    requires s.Valid()
    ensures Run(s, events).Valid()
    decreases |events|
  {
    hide State.ValidBut, Step;
    if events != [] {
      if Possible(s, events[0]) {
        StepKeeps(s, events[0]);
        RunKeeps(Step(s, events[0]), events[1..]);
      } else {
        RunKeeps(s, events[1..]);
      }
    }
  }

  // While no read of the journal for `key` fails, nobody more is misled of it.
  lemma {:induction false} RunTells(s: State, events: seq<Event>, key: Key, r: nat)
    requires s.Valid() && key !in s.misread && forall e | e in events :: !FailsToRead(e, key)
    ensures var t := Run(s, events);
            && key !in t.misread && (r in s.asked ==> r in t.asked && t.asked[r] == s.asked[r])
            && (r in t.misled ==> r in s.misled || (r in t.asked && t.asked[r].key != key))
    decreases |events|
  {
    hide State.ValidBut, Step;
    if events != [] {
      assert forall e | e in events[1..] :: e in events;
      assert FailsToRead(events[0], key) ==> events[0] in events;
      if Possible(s, events[0]) {
        StepKeeps(s, events[0]);
        StepLeaves(s, events[0], key, r);
        RunTells(Step(s, events[0]), events[1..], key, r);
      } else {
        RunTells(s, events[1..], key, r);
      }
    }
  }

  // A change under an ID runs at most once, whatever happens: repeats at
  // once, memory lapsed or full, failed reads and writes, and restarts; and
  // nothing runs that the journal doesn't hold.
  lemma {:induction false} AtMostOnce(events: seq<Event>)
    ensures NOTHING.Valid()
    ensures NoneTwice(Run(NOTHING, events).executions)
    ensures forall k | k in Run(NOTHING, events).executions :: k in Run(NOTHING, events).journal
    ensures var s := Run(NOTHING, events);
            forall k | k in s.made && s.made[k].result.Some? && s.made[k].result.value.Succeeded? :: k in s.executions
  {
    NothingIsValid();
    hide Run;
    RunKeeps(NOTHING, events);
  }

  // While the journal can be read of a change, everyone answered of it once it
  // is recorded as started is told how it went, or less, but never otherwise,
  // and anyone asking for another under its ID learns of the conflict: from
  // the beginning, or from any point on at which memory tells nothing that a
  // failed read left in it.
  lemma {:induction false} TrueAnswers(before: seq<Event>, events: seq<Event>, key: Key, r: nat)
    requires forall e | e in events :: !FailsToRead(e, key)
    ensures NOTHING.Valid() && NOTHING.misread == {} && NOTHING.misled == {}
    ensures var s := Run(NOTHING, before);
            s.Valid() && (key !in s.misread && r !in s.misled ==>
              var t := Run(s, events);
              r in t.owed && r in t.asked && t.asked[r].key == key ==> t.AnswerIsOwed(r))
  {
    NothingIsValid();
    var s := Run(NOTHING, before);
    RunKeeps(NOTHING, before);
    hide Run, State.AnswerIsOwed;
    if key !in s.misread {
      RunKeeps(s, events);
      RunTells(s, events, key, r);
    }
  }

  // Such a point is a restart, or a request for a change whose time in memory
  // is up.
  lemma {:induction false} MemoryClears(s: State, e: Event, key: Key)
    requires s.Valid() && Possible(s, e)
    requires e.Restart? ||
             (e.Request? && e.key == key && key !in s.running &&
              var recent := Lookup(s.finished, key); recent.Some? ==> recent.value.expiresAt <= e.now)
    ensures key !in Step(s, e).misread
    ensures forall r | r in Step(s, e).misled :: r in s.misled
  {
    hide State.ValidBut, AnswerAll, Without, Lookup, SettleClaim;
  }

  // Every request is answered, but for those a restart cut off and those whose
  // ID is claimed by a change still under way.
  lemma {:induction false} NoneForgotten(events: seq<Event>, r: nat)
    ensures NOTHING.Valid()
    ensures var s := Run(NOTHING, events);
            r in s.asked ==> r in s.answers || r in s.lost || s.asked[r].key in s.running
  {
    NothingIsValid();
    hide Run;
    RunKeeps(NOTHING, events);
  }

  // A restart leaves the journal and what was told, and cuts off everyone yet
  // to be told.
  lemma {:induction false} RestartForgets(s: State)
    requires s.Valid()
    ensures var t := Step(s, Restart);
            && t.running == map[] && t.finished == [] && t.waiting == map[] && t.writes == map[]
            && t.journal == s.journal && t.made == s.made && t.executions == s.executions && t.answers == s.answers
            && forall r :: r in t.lost <==> r in s.lost || (r in s.asked && r !in s.answers)
  {
  }

  // How a change went reaches the journal as a write of it goes through, heard
  // of or not, and is to be written for as long as none is heard of.
  lemma {:induction false} WriteTells(s: State, key: Key, fate: WriteFate)
    requires s.Valid() && Possible(s, WriteOutcome(key, fate))
    ensures key in s.made && s.made[key].result == Some(s.writes[key])
    ensures var t := Step(s, WriteOutcome(key, fate));
            && key in t.journal && (key in t.writes <==> fate != Written)
            && (forall other | other in s.journal && other != key ::
                  other in t.journal && t.journal[other] == s.journal[other])
            && (fate == Unwritten ==> t == s)
            && (fate != Unwritten ==>
                  match t.journal[key].status
                  case Running => false
                  case Went => s.writes[key].Succeeded?
                  case Broke(code, message, retryable) =>
                    code.Some? && message.Some? && s.writes[key] == Failed(code.value, message.value, retryable))
  {
  }

  // What Hearth is told of a change it asks after.
  datatype LookedUp =
    | RunningNow
    | WentThrough(result: Option<string>)
    | Broken(code: Code, message: Message, retryable: bool)
    | CutOff
    | Unknown

  function LookupFor(outcome: Outcome): LookedUp {
    match outcome
    case Succeeded(kept, payload) => WentThrough(if kept then Some(payload) else None)
    case Failed(code, message, retryable) => Broken(code, message, retryable)
    case Interrupted => CutOff
  }

  function LookUp(s: State, key: Key, now: nat): LookedUp {
    var recent := Lookup(s.finished, key);
    if key in s.running then RunningNow
    else if recent.Some? && recent.value.expiresAt > now then LookupFor(recent.value.outcome)
    else if key in s.journal then LookupFor(RecordedOutcome(s.journal[key]))
    else Unknown
  }

  // A lookup that tells an outcome as it is kept.
  ghost predicate ToldOf(told: LookedUp, outcome: Outcome) {
    && (told == CutOff <==> outcome == Interrupted)
    && (told == WentThrough(None) <==> outcome.Succeeded? && !outcome.kept)
    && (forall payload :: told == WentThrough(Some(payload)) <==> outcome == Succeeded(true, payload))
    && (forall code, message, retryable ::
          told == Broken(code, message, retryable) <==> outcome == Failed(code, message, retryable))
  }

  // A lookup tells what memory has, or else what the journal has, and that a
  // change is unknown only of one neither has.
  lemma {:induction false} LookupsTellKept(s: State, key: Key, now: nat)
    requires key !in s.running
    ensures var told, recent := LookUp(s, key, now), Lookup(s.finished, key);
            if recent.Some? && recent.value.expiresAt > now then ToldOf(told, recent.value.outcome)
            else if key !in s.journal then told == Unknown
            else match s.journal[key].status
              case Running => told == CutOff
              case Went => told == WentThrough(None)
              case Broke(code, message, retryable) =>
                && told.Broken? && told.retryable == retryable
                && (code.Some? ==> told.code == code.value) && (message.Some? ==> told.message == message.value)
                && (code.None? ==> told.code == OperationFailed)
                && (message.None? ==> told.message == Of(OperationFailed))
  {
  }

  // A change recorded as started is told as running while it is claimed, and
  // else as it went, or that it went through, or was cut off; never as unknown.
  lemma LookupsTellTruly(s: State, key: Key, now: nat)
    requires s.Valid() && key !in s.misread && key in s.made
    ensures var told, result := LookUp(s, key, now), s.made[key].result;
            && (told == RunningNow <==> key in s.running)
            && (told.WentThrough? ==> result.Some? && result.value.Succeeded?)
            && (forall payload | told == WentThrough(Some(payload)) :: result == Some(Succeeded(true, payload)))
            && (forall code, message, retryable | told == Broken(code, message, retryable) ::
                  result == Some(Failed(code, message, retryable)))
            && told != Unknown
  {
    hide State.Claimed, State.Attended, SettleRecorded;
    if key !in s.running {
      var recent := Lookup(s.finished, key);
      if recent.Some? && recent.value.expiresAt > now {
        assert EntryFits(recent.value, s.made);
      } else {
        assert Tells(RecordedOutcome(s.journal[key]), s.made[key]);
      }
    }
  }

  // What is next for a claim, its journal and its change doing as well as
  // they can, and how far it still has to go.
  function Next(s: State, key: Key, outcome: Outcome): Event
    requires key in s.running
  {
    match s.running[key].stage
    case Reading => ReadJournal(key, 0)
    case Starting => WriteStart(key, Written, outcome, 0)
    case Started => Begin(key)
    case Executing => End(key, outcome, 0)
  }

  function StepsLeft(stage: Stage): nat {
    match stage case Reading => 4 case Starting => 3 case Started => 2 case Executing => 1
  }

  // The claim on `key` is nearer its end in `t`, or everyone it held answered.
  predicate Nears(s: State, key: Key, t: State)
    requires key in s.running
  {
    if key in t.running then StepsLeft(t.running[key].stage) < StepsLeft(s.running[key].stage)
    else forall r | r in Held(s, key) :: r in t.answers
  }

  // A claim always has a next step, which takes it nearer its end or answers
  // everyone it holds, so nobody waits forever.
  lemma ClaimsSettle(s: State, key: Key, failure: Outcome)
    requires s.Valid() && key in s.running && failure.Failed?
    ensures Possible(s, Next(s, key, failure)) && Nears(s, key, Step(s, Next(s, key, failure)))
  {
    hide State.ValidBut, Held, Ended;
    match s.running[key].stage
    case Reading => ReadSettles(s, key);
    case Starting =>
    case Started =>
    case Executing => EndSettles(s, key, failure, 0);
  }

  // So that run to its end it answers everyone it holds, and is let go.
  lemma ClaimsEnd(s: State, key: Key, failure: Outcome) returns (events: seq<Event>)
    requires s.Valid() && key in s.running && failure.Failed?
    ensures |events| <= StepsLeft(s.running[key].stage)
    ensures var t := Run(s, events); key !in t.running && forall r | r in Held(s, key) :: r in t.answers
    decreases StepsLeft(s.running[key].stage)
  {
    var e := Next(s, key, failure);
    ClaimsSettle(s, key, failure);
    StepKeeps(s, e);
    NextHolds(s, key, failure);
    hide State.ValidBut, Held, Step, Next, Possible;
    var t := Step(s, e);
    var rest: seq<Event> := [];
    if key in t.running { rest := ClaimsEnd(t, key, failure); }
    events := [e] + rest;
    assert events[1..] == rest;
  }

  // Until then it goes on holding them.
  lemma NextHolds(s: State, key: Key, failure: Outcome)
    requires s.Valid() && key in s.running && Possible(s, Next(s, key, failure))
    ensures var t := Step(s, Next(s, key, failure)); key in t.running ==> Held(t, key) == Held(s, key)
  {
    hide State.ValidBut, SettleClaim, Held, Ended, RecordedOutcome;
    var t := Step(s, Next(s, key, failure));
    match s.running[key].stage
    case Reading =>
      UnclaimKeeps(s, key);
      if key in s.journal {
        SettleLeaves(s, Unclaim(s, key), key, RecordedOutcome(s.journal[key]), s.journal[key].digest, 0);
      } else {
        HeldSame(s, t, key);
      }
    case Executing => EndLetsGo(s, key, failure, 0);
    case _ => HeldSame(s, t, key);
  }

  lemma HeldSame(s: State, t: State, key: Key)
    requires key in s.running && key in t.running && t.running[key].request == s.running[key].request
    requires t.waiting == s.waiting
    ensures Held(t, key) == Held(s, key)
  {
  }

  lemma EndLetsGo(s: State, key: Key, outcome: Outcome, now: nat)
    requires s.Valid() && key in s.running && s.running[key].stage == Executing
    ensures key !in Ended(s, key, outcome, now).running
  {
    hide State.ValidBut, SettleClaim, Held;
    StartedOnRecord(s, key);
    UnclaimKeeps(s, key);
    var t := GivenResult(Unclaim(s, key), key, outcome);
    SettleLeaves(s, t.(writes := t.writes[key := outcome]), key, outcome, s.running[key].digest, now);
  }

  lemma ReadSettles(s: State, key: Key)
    requires s.Valid() && key in s.running && s.running[key].stage == Reading
    ensures Nears(s, key, Step(s, ReadJournal(key, 0)))
  {
    hide State.ValidBut, SettleClaim, Held, RecordedOutcome;
    UnclaimKeeps(s, key);
    if key in s.journal {
      SettleLeaves(s, Unclaim(s, key), key, RecordedOutcome(s.journal[key]), s.journal[key].digest, 0);
    }
  }

  lemma EndSettles(s: State, key: Key, outcome: Outcome, now: nat)
    requires s.Valid() && key in s.running && s.running[key].stage == Executing
    ensures Nears(s, key, Ended(s, key, outcome, now))
  {
    hide State.ValidBut, SettleClaim, Held;
    StartedOnRecord(s, key);
    UnclaimKeeps(s, key);
    var t := GivenResult(Unclaim(s, key), key, outcome);
    SettleLeaves(s, t.(writes := t.writes[key := outcome]), key, outcome, s.running[key].digest, now);
  }

  const UNAVAILABLE := Failed(ResultUnavailable, Of(ResultUnavailable), false)
  const INTERRUPTED := Failed(OperationInterrupted, Of(OperationInterrupted), false)

  // Whether a failure, of whatever, says of a change what may be said of it.
  predicate HappensToTell(failure: Outcome, digest: Digest, made: Made) {
    if digest != made.digest then failure == CONFLICT
    else
      || failure == INTERRUPTED || made.result == Some(failure)
      || (failure == UNAVAILABLE && made.result.Some? && made.result.value.Succeeded?)
  }

  lemma FailureTells(failure: Outcome, digest: Digest, made: Made)
    requires failure.Failed?
    ensures AnswerFits(SettleRecorded(failure), digest, made) <==> HappensToTell(failure, digest, made)
  {
    if digest == made.digest {
      assert Tells(Interrupted, made);
      if made.result.Some? {
        assert Tells(made.result.value, made);
        assert made.result.value.Succeeded? ==> Tells(Succeeded(false, ""), made);
      }
    }
  }

  // What a failed read has those held by its claim answered fits the change
  // exactly when it happens to: each is told of the failure, or of a conflict
  // with the request that asked, which needn't be the one that made it.
  lemma MisreadAnswers(s: State, key: Key, failure: Outcome, now: nat, r: nat)
    requires s.Valid() && Possible(s, ReadFails(key, failure, now)) && key in s.made && r in Held(s, key)
    ensures var t := Step(s, ReadFails(key, failure, now));
            var told := if s.asked[r].digest == s.running[key].digest then failure else CONFLICT;
            && t.made == s.made && r in t.answers && t.answers[r] == SettleRecorded(told)
            && (AnswerFits(t.answers[r], s.asked[r].digest, s.made[key]) <==>
                  HappensToTell(told, s.asked[r].digest, s.made[key]))
  {
    UnclaimKeeps(s, key);
    hide State.ValidBut, AnswerFits, SettleRecorded, HappensToTell, SettleClaim, Held, Remembered;
    SettleTells(s, Hidden(Unclaim(s, key), key), key, failure, s.running[key].digest, now, r);
    FailureTells(failure, s.asked[r].digest, s.made[key]);
    FailureTells(CONFLICT, s.asked[r].digest, s.made[key]);
  }

  // Once memory of a change has lapsed, a failed read of the journal has a
  // true repeat of it answered with the failure to read, and that is false of
  // the change unless it is just how it ended, or an admission not to know.
  lemma {:induction false} MisreadMisleads(s: State, r: nat, key: Key, failure: Outcome, now: nat)
    requires s.Valid() && r !in s.asked && key in s.made && key !in s.running && failure.Failed?
    requires var recent := Lookup(s.finished, key); recent.Some? ==> recent.value.expiresAt <= now
    requires failure.code !in {OperationInterrupted, ResultUnavailable} && s.made[key].result != Some(failure)
    ensures var t := Step(s, Request(r, key, s.made[key].digest, now));
            && t.Valid() && Possible(t, ReadFails(key, failure, now))
            && var u := Step(t, ReadFails(key, failure, now));
            && u.made == s.made && r in u.answers && r in u.owed && u.answers[r] == SettleRecorded(failure)
            && !AnswerFits(u.answers[r], s.made[key].digest, s.made[key])
  {
    var t := Step(s, Request(r, key, s.made[key].digest, now));
    StepKeeps(s, Request(r, key, s.made[key].digest, now));
    ClaimsAnew(s, r, key, s.made[key].digest, now);
    hide State.ValidBut, Requested, Held;
    MisreadAnswers(t, key, failure, now, r);
    MisreadOwes(t, key, failure, now, r);
  }

  // A request for a change that memory doesn't have claims its ID.
  lemma {:induction false} ClaimsAnew(s: State, r: nat, key: Key, digest: Digest, now: nat)
    requires s.Valid() && r !in s.asked && key !in s.running
    requires var recent := Lookup(s.finished, key); recent.Some? ==> recent.value.expiresAt <= now
    ensures var t := Requested(s, r, key, digest, now);
            && key in t.running && t.running[key] == Claim(r, digest, false, Reading) && r in Held(t, key)
            && t.made == s.made && r in t.asked && t.asked[r] == Asked(key, digest)
  {
    hide State.ValidBut, Without, Lookup;
  }

  lemma MisreadOwes(s: State, key: Key, failure: Outcome, now: nat, r: nat)
    requires s.Valid() && Possible(s, ReadFails(key, failure, now)) && key in s.made && r in Held(s, key)
    ensures r in Step(s, ReadFails(key, failure, now)).owed
  {
    UnclaimKeeps(s, key);
    hide State.ValidBut, Held, Remembered;
  }

  // Everyone held by a change's claim as it ends is answered exactly how it
  // went, or of the conflict, and memory has it.
  lemma {:induction false} EndTellsAll(s: State, key: Key, outcome: Outcome, now: nat, r: nat)
    requires s.Valid() && Possible(s, End(key, outcome, now)) && r in Held(s, key)
    ensures var t := Step(s, End(key, outcome, now));
            && key in t.made && t.made[key].result == Some(outcome)
            && r in t.answers && t.answers[r] ==
               SettleRecorded(if s.asked[r].digest == t.made[key].digest then outcome else CONFLICT)
            && Lookup(t.finished, key) ==
               Some(Entry(key, t.made[key].digest, Kept(outcome), now + RECENT_OPERATION_MS))
  {
    UnclaimKeeps(s, key);
    EndsAlone(s, key);
    hide SettleRecorded, Kept, State.ValidBut, Lookup, Remembered, SettleClaim, Held;
    var digest, before := s.running[key].digest, GivenResult(Unclaim(s, key), key, outcome);
    SettleTells(s, before.(writes := before.writes[key := outcome]), key, outcome, digest, now, r);
    LookupRemembered(s.finished, Entry(key, s.running[key].digest, outcome, 0), now);
  }

  lemma SettleTells(s: State, t: State, key: Key, outcome: Outcome, madeWith: Digest, now: nat, r: nat)
    requires key in s.running && Held(s, key) <= t.asked.Keys && r in Held(s, key)
    ensures var u := SettleClaim(s, t, key, outcome, madeWith, now);
            && u.made == t.made && u.finished == Remembered(t.finished, Entry(key, madeWith, outcome, 0), now)
            && r in u.answers
            && u.answers[r] == SettleRecorded(if t.asked[r].digest == madeWith then outcome else CONFLICT)
  {
    hide SettleRecorded, Held, Remembered;
  }

  lemma EndsAlone(s: State, key: Key)
    requires s.Valid() && key in s.running && s.running[key].stage == Executing
    ensures key in s.made && s.made[key] == Made(s.running[key].digest, None)
    ensures forall e | e in s.finished :: e.key != key
  {
    assert s.ClaimFits(key);
  }

  lemma LookupRemembered(finished: seq<Entry>, entry: Entry, now: nat)
    requires forall e | e in finished :: e.key != entry.key
    ensures Lookup(Remembered(finished, entry, now), entry.key) ==
            Some(entry.(outcome := Kept(entry.outcome), expiresAt := now + RECENT_OPERATION_MS))
  {
    LookupLast(
      Forgotten(finished, now), entry.(outcome := Kept(entry.outcome), expiresAt := now + RECENT_OPERATION_MS));
  }

  lemma {:induction false} LookupLast(finished: seq<Entry>, entry: Entry)
    requires forall e | e in finished :: e.key != entry.key
    ensures Lookup(finished + [entry], entry.key) == Some(entry)
  {
    if finished != [] {
      assert (finished + [entry])[1..] == finished[1..] + [entry];
      LookupLast(finished[1..], entry);
    }
  }

  // While memory has how a change went, a repeat is told just that at once,
  // reply and all unless it was too large to keep.
  lemma {:induction false} RepeatTold(
    s: State, r: nat, key: Key, digest: Digest, now: nat, outcome: Outcome, expiresAt: nat)
    requires s.Valid() && r !in s.asked && key !in s.running && now < expiresAt
    requires Lookup(s.finished, key) == Some(Entry(key, digest, Kept(outcome), expiresAt))
    ensures forall asked ::
              var t := Step(s, Request(r, key, asked, now));
              && r in t.answers && t.finished == s.finished
              && t.answers[r] == SettleRecorded(if asked == digest then Kept(outcome) else CONFLICT)
    ensures outcome.Succeeded? && outcome.kept && |outcome.payload| <= MAX_RECENT_RESULT_BYTES ==>
              SettleRecorded(Kept(outcome)) == Reply(outcome.payload)
    ensures outcome.Failed? ==> SettleRecorded(Kept(outcome)) == SettleRecorded(outcome)
  {
  }

  // Memory of finished changes, in place.
  class Operations {
    var finished: seq<Entry>

    constructor ()
      ensures finished == []
    {
      finished := [];
    }

    method Remember(key: Key, digest: Digest, outcome: Outcome, now: nat)
      modifies this
      ensures finished == Remembered(old(finished), Entry(key, digest, outcome, 0), now)
      ensures |finished| <= MAX_RECENT_OPERATIONS
    {
      while finished != [] && !(finished[0].expiresAt > now && |finished| < MAX_RECENT_OPERATIONS)
        invariant Forgotten(finished, now) == Forgotten(old(finished), now)
        decreases |finished|
      {
        finished := finished[1..];
      }
      var kept := !outcome.Succeeded? || |outcome.payload| <= MAX_RECENT_RESULT_BYTES;
      var told := if kept then outcome else Succeeded(false, "");
      finished := finished + [Entry(key, digest, told, now + RECENT_OPERATION_MS)];
    }

    method Recent(key: Key, now: nat) returns (entry: Option<Entry>)
      modifies this
      ensures entry.Some? ==> entry.value in finished && entry.value.key == key && entry.value.expiresAt > now
      ensures entry.Some? ==> entry == Lookup(old(finished), key) && finished == old(finished)
      ensures entry.None? ==>
                finished == if Lookup(old(finished), key).None? then old(finished) else Without(old(finished), key)
    {
      entry := Lookup(finished, key);
      if entry.Some? && entry.value.expiresAt <= now {
        finished := Without(finished, key);
        entry := None;
      }
    }
  }
}
