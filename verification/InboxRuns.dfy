/** What the inbox protocol guarantees over every run: webhook redeliveries, claims, reaps, crashes,
    cancellations, manual retries and resets, in any order and any number. */
module InboxRuns {
  import opened Common
  import Ownership
  import opened Inbox
  import opened Replay
  import opened InboxProtocol
  import opened InboxSafety

  /** Every world of every run satisfies the invariant. */
  lemma {:induction false} RunInv(s: Settings, worlds: seq<World>, steps: seq<Step>, i: nat)
    requires s.maxAttempts >= 1 && IsRun(s, worlds, steps) && i < |worlds|
    ensures Inv(worlds[i], s)
  {
    if i == 0 {
      InitialInv(worlds[0], s);
    } else {
      RunInv(s, worlds, steps, i - 1);
      assert StepAt(s, worlds, steps, i - 1);
      StepInv(worlds[i-1], s, steps[i-1]);
    }
  }

  // ----- What one step may do to one job -----

  /** A finished job is frozen; a job with external work is never offered again. */
  ghost predicate JobChange(w: World, w': World, j: JobId)
    requires j in w.jobs
  {
    && j in w'.jobs
    && var was, job' := w.jobs[j], w'.jobs[j];
    && job'.message == was.message && job'.conv == was.conv && job'.origin == was.origin
    && (was.status == Completed ==> job' == was)
    && (was.externalOp ==>
          && job'.externalOp && j in w.opener && j in w'.opener && w'.opener[j] == w.opener[j]
          && w'.hist[Acquired(j)] == w.hist[Acquired(j)])
  }

  lemma ExpandOnlyAdds(w: World, s: Settings, id: EventId, now: int, picks: seq<Pick>, fault: bool)
    requires id in w.events && |picks| == |w.events[id].payload| && PicksOk(w, w.events[id].payload, picks)
    ensures var w' := DoExpand(w, s, id, now, picks, fault);
            Adds(w, w') && w'.events == w.events[id := w'.events[id]] && EventChange(w.events[id], w'.events[id])
  {
    if PersistAll(w, w.events[id].payload, picks).Some? {
      PersistAllAdds(w, w.events[id].payload, picks);
    }
    ExpandAdds(w, s, id, now, picks, fault);
  }

  lemma ExpandShape(w: World, s: Settings, id: EventId, now: int, picks: seq<Pick>, fault: bool)
    requires id in w.events && |picks| == |w.events[id].payload|
    ensures var e, w' := w.events[id], DoExpand(w, s, id, now, picks, fault);
            var all := PersistAll(w, e.payload, picks);
            || w' == w || w' == SetEvent(w, id, e.(status := EventReview))
            || w' == SetEvent(w, id, FailedIngest(e, now, s))
            || (all.Some? && !fault && e.status != Processed
                && w' == SetEvent(all.value, id, e.(status := Prepared, nextAttempt := None)))
    ensures w.events[id].status == Processed ==> DoExpand(w, s, id, now, picks, fault) == w
  {
  }

  lemma ExpandAdds(w: World, s: Settings, id: EventId, now: int, picks: seq<Pick>, fault: bool)
    requires id in w.events && |picks| == |w.events[id].payload|
    requires var all := PersistAll(w, w.events[id].payload, picks); all.Some? ==> OnlyAdds(w, all.value)
    ensures var w' := DoExpand(w, s, id, now, picks, fault);
            Adds(w, w') && w'.events == w.events[id := w'.events[id]] && EventChange(w.events[id], w'.events[id])
  {
    ExpandShape(w, s, id, now, picks, fault);
  }

  predicate EventChange(e: Event, e': Event) {
    && e'.payload == e.payload && e.ingestAttempts <= e'.ingestAttempts
    && (e.versionTwo ==> e'.versionTwo)
    && (e.versionTwo && e.status == Processed ==> e' == e)
  }

  // --- a worker's steps touch the job it owns, or none ---

  ghost predicate WorkerEffect(w: World, w': World, s: Settings, token: Unique, j: JobId)
    requires token in w.workers
  {
    && w'.messages == w.messages && w'.events == w.events && w'.hist[Acquired(j)] == w.hist[Acquired(j)]
    && ((w'.jobs == w.jobs && w'.opener == w.opener) || OwnJobMoves(w, w', s, token, w.workers[token].job))
  }

  ghost predicate OwnJobMoves(w: World, w': World, s: Settings, token: Unique, id: JobId)
    requires token in w.workers
  {
    && id == w.workers[token].job && Owns(w, token) && id in w'.jobs && w'.jobs == w.jobs[id := w'.jobs[id]]
    && (w'.opener == w.opener || w'.opener == w.opener[id := token])
    && SameWork(w.jobs[id], w'.jobs[id], s)
  }

  predicate SameWork(was: Job, job': Job, s: Settings) {
    && job'.message == was.message && job'.conv == was.conv && job'.origin == was.origin
    && (was.externalOp ==> job'.externalOp)
    && (Active(was) && WithinAttempts(was, s) ==> WithinAttempts(job', s))
  }

  /** Fewer failures than the limit while a job is still offered or processed, never more, and as many when
      it has FAILED. */
  predicate WithinAttempts(job: Job, s: Settings) {
    && job.attempts <= s.maxAttempts
    && (job.status == Failed ==> job.attempts == s.maxAttempts)
    && (job.status == Pending || Active(job) ==> job.attempts < s.maxAttempts)
  }

  /** The worker's job is rewritten and the worker forgotten. */
  lemma GivenBack(w: World, s: Settings, token: Unique, job: Job, j: JobId)
    requires token in w.workers && Owns(w, token) && SameWork(w.jobs[w.workers[token].job], job, s)
    ensures WorkerEffect(w, Drop(SetJob(w, w.workers[token].job, job), token), s, token, j)
  {
  }

  lemma CommitEffect(w: World, s: Settings, token: Unique, after: Context, j: JobId)
    requires token in w.workers && Owns(w, token)
    ensures WorkerEffect(w, CommitTurn(w, token, after), s, token, j)
  {
  }

  lemma ApplyEffect(w: World, s: Settings, token: Unique, plan: Plan, after: Context, now: int, j: JobId)
    requires token in w.workers
    ensures WorkerEffect(w, DoApply(w, s, token, plan, after, now), s, token, j)
  {
    if !Owns(w, token) {
      MoveEffect(w, s, Drop(w, token), token, j);
    } else {
      var job := w.jobs[w.workers[token].job];
      if !ContextKept(w, token) && job.externalOp {
        GivenBack(w, s, token, Retire(job, Review, ContextChangedAfterExternal), j);
      } else if !ContextKept(w, token) && !Silent(w.convs[w.workers[token].conv].ctx) {
        GivenBack(w, s, token, FailLocked(job, ContextChangedReclassify, now, s), j);
      } else {
        match Attempt(plan, w.workers[token].log, 0)
        case Commits(_) => CommitEffect(w, s, token, after, j);
        case Defers(call) => MoveEffect(w, s, MoveTo(w, token, Wants(call)), token, j);
        case Raises => MoveEffect(w, s, MoveTo(w, token, Failing), token, j);
      }
    }
  }

  lemma PrepareEffect(w: World, s: Settings, token: Unique, call: Call, now: int, j: JobId)
    requires token in w.workers
    ensures WorkerEffect(w, DoPrepare(w, s, token, call, now), s, token, j)
  {
    if Owns(w, token) {
      if !ContextKept(w, token) {
        GivenBack(w, s, token, FailLocked(w.jobs[w.workers[token].job], ContextChangedReclassify, now, s), j);
      } else if Mutating(call) {
        OpenEffect(w, s, token, call, j);
        assert DoPrepare(w, s, token, call, now) == MoveTo(Opened(w, token), token, MayCall(call));
      } else {
        MoveEffect(w, s, MoveTo(w, token, MayCall(call)), token, j);
      }
    } else {
      MoveEffect(w, s, Drop(w, token), token, j);
    }
  }

  lemma OpenEffect(w: World, s: Settings, token: Unique, call: Call, j: JobId)
    requires token in w.workers && Owns(w, token)
    ensures WorkerEffect(w, MoveTo(Opened(w, token), token, MayCall(call)), s, token, j)
  {
  }

  lemma SettleEffect(w: World, s: Settings, token: Unique, now: int, j: JobId)
    requires token in w.workers
    ensures WorkerEffect(w, DoSettleFailure(w, s, token, now), s, token, j) && WorkerEffect(w, DoCancel(w, token), s, token, j)
  {
    if Owns(w, token) {
      var id := w.workers[token].job;
      GivenBack(w, s, token, FailLocked(w.jobs[id], AttemptRaised, now, s), j);
      GivenBack(w, s, token, CancelLocked(w.jobs[id]), j);
    }
  }

  lemma MoveEffect(w: World, s: Settings, w': World, token: Unique, j: JobId)
    requires token in w.workers && w'.jobs == w.jobs && w'.opener == w.opener && w'.messages == w.messages
    requires w'.events == w.events && w'.hist[Acquired(j)] == w.hist[Acquired(j)]
    ensures WorkerEffect(w, w', s, token, j)
  {
  }

  lemma CallEffect(w: World, s: Settings, token: Unique, call: Call, value: int, answer: Option<int>, j: JobId)
    requires token in w.workers
    ensures WorkerEffect(w, DoCall(w, token, call, answer), s, token, j)
    ensures WorkerEffect(w, DoRecord(w, token, call, value), s, token, j)
  {
    MoveEffect(w, s, DoCall(w, token, call, answer), token, j);
    MoveEffect(w, s, DoRecord(w, token, call, value), token, j);
  }

  lemma WorkerStepEffect(w: World, s: Settings, step: Step, j: JobId)
    requires Enabled(w, s, step) && ByWorker(step)
    ensures step.token in w.workers && WorkerEffect(w, Next(w, s, step), s, step.token, j)
  {
    match step
    case Apply(token, plan, after, now) => ApplyEffect(w, s, token, plan, after, now, j);
    case Prepare(token, now) => PrepareEffect(w, s, token, w.workers[token].pc.call, now, j);
    case SettleFailure(token, now) => SettleEffect(w, s, token, now, j);
    case Cancel(token) => SettleEffect(w, s, token, 0, j);
    case CallAgenda(token, answer) => CallEffect(w, s, token, w.workers[token].pc.call, 0, answer, j);
    case Record(token) => CallEffect(w, s, token, w.workers[token].pc.call, w.workers[token].pc.value, None, j);
    case Raise(token) => MoveEffect(w, s, MoveTo(w, token, Failing), token, j);
    case Crash(token) => MoveEffect(w, s, Drop(w, token), token, j);
  }

  predicate ByWorker(step: Step) {
    step.Apply? || step.Prepare? || step.CallAgenda? || step.Record? || step.Raise? || step.SettleFailure?
    || step.Cancel? || step.Crash?
  }

  lemma JobStep(w: World, s: Settings, step: Step, j: JobId)
    requires Enabled(w, s, step) && j in w.jobs && JobOk(w, j)
    ensures JobChange(w, Next(w, s, step), j)
  {
    if ByWorker(step) {
      WorkerStepEffect(w, s, step, j);
      WorkerJobStep(w, Next(w, s, step), s, step.token, j);
    } else if step.Expand? {
      ExpandOnlyAdds(w, s, step.id, step.now, step.picks, step.fault);
    } else if step.Reset? {
      var marks := set k | k in ClosedJobs(w, step.phone) :: ClosedByReset(k);
      assert Acquired(j) !in marks;
    } else {
      OutsideJobStep(w, s, step, j);
    }
  }

  lemma OutsideJobStep(w: World, s: Settings, step: Step, j: JobId)
    requires Enabled(w, s, step) && j in w.jobs && JobOk(w, j)
    requires !ByWorker(step) && !step.Expand? && !step.Reset?
    ensures JobChange(w, Next(w, s, step), j)
  {
  }

  lemma WorkerJobStep(w: World, w': World, s: Settings, token: Unique, j: JobId)
    requires j in w.jobs && JobOk(w, j) && token in w.workers && WorkerEffect(w, w', s, token, j)
    ensures JobChange(w, w', j)
    ensures w.jobs[j].status == Review ==> w'.jobs[j] == w.jobs[j]
  {
  }

  lemma {:induction false} JobPersists(s: Settings, worlds: seq<World>, steps: seq<Step>, i: nat, k: nat, j: JobId)
    requires s.maxAttempts >= 1 && IsRun(s, worlds, steps) && i <= k < |worlds| && j in worlds[i].jobs
    ensures JobChange(worlds[i], worlds[k], j)
    decreases k
  {
    RunInv(s, worlds, steps, i);
    assert JobOk(worlds[i], j);
    if i < k {
      JobPersists(s, worlds, steps, i, k - 1, j);
      RunInv(s, worlds, steps, k - 1);
      assert StepAt(s, worlds, steps, k - 1) && JobOk(worlds[k-1], j);
      JobStep(worlds[k-1], s, steps[k-1], j);
    }
  }

  // ----- Identities -----

  /** Each external message id has at most one stored message and at most one job. */
  lemma OneJobPerExternalId(s: Settings, worlds: seq<World>, steps: seq<Step>, i: nat)
    requires s.maxAttempts >= 1 && IsRun(s, worlds, steps) && i < |worlds|
    ensures var w := worlds[i];
            && (forall m, n | m in w.messages && n in w.messages ::
                  w.messages[m].external == w.messages[n].external ==> m == n)
            && (forall j | j in w.jobs :: w.jobs[j].message in w.messages)
            && (forall j, k | j in w.jobs && k in w.jobs ::
                  w.messages[w.jobs[j].message].external == w.messages[w.jobs[k].message].external ==> j == k)
  {
    var w := worlds[i];
    RunInv(s, worlds, steps, i);
    forall m, n | m in w.messages && n in w.messages && w.messages[m].external == w.messages[n].external
      ensures m == n
    {
      assert OneMessage(w, m, n);
    }
    forall j | j in w.jobs ensures w.jobs[j].message in w.messages { assert JobOk(w, j); }
    forall j, k | j in w.jobs && k in w.jobs
                  && w.messages[w.jobs[j].message].external == w.messages[w.jobs[k].message].external
      ensures j == k
    {
      assert OneJob(w, j, k);
    }
  }

  // ----- Exactly-once application -----

  /** The conditions under which a turn commits, all read in the committing transaction. */
  ghost predicate Commits(w: World, step: Step, j: JobId) {
    && step.Apply? && step.token in w.workers && w.workers[step.token].job == j
    && Owns(w, step.token)
    && Attempt(step.plan, w.workers[step.token].log, 0).Commits?
    && (ContextKept(w, step.token) || (Silent(w.convs[w.workers[step.token].conv].ctx) && !w.jobs[j].externalOp))
  }

  /** A step counts as applying a turn exactly when it commits it, and then the same step makes the
      job COMPLETED. */
  lemma AppliedIsCommit(w: World, s: Settings, step: Step, j: JobId)
    requires Enabled(w, s, step)
    ensures var w' := Next(w, s, step);
            && w'.hist[Applied(j)] == w.hist[Applied(j)] + (if Commits(w, step, j) then 1 else 0)
            && (Commits(w, step, j) ==> w.jobs[j].status != Completed && w'.jobs[j].status == Completed)
  {
    StepHistory(w, s, step);
    if step.Reset? {
      var marks := set k | k in ClosedJobs(w, step.phone) :: ClosedByReset(k);
      assert Applied(j) !in marks;
    }
    if Commits(w, step, j) {
      assert Next(w, s, step) == CommitTurn(w, step.token, step.after);
    }
  }

  /** What a step adds to the record of what has happened. */
  ghost function NewHistory(w: World, step: Step): multiset<Happening>
  {
    match step
    case Reset(phone, _) =>
      if BusyCustomer(w, phone) then multiset{} else multiset(set j | j in ClosedJobs(w, phone) :: ClosedByReset(j))
    case Claim(_, job, _, _) => multiset{Acquired(job)}
    case Apply(token, _, _, _) =>
      if token in w.workers && Commits(w, step, w.workers[token].job) then multiset{Applied(w.workers[token].job)}
      else multiset{}
    case CallAgenda(token, _) =>
      if token in w.workers && w.workers[token].pc.MayCall? then
        multiset{Called(token, |w.workers[token].log|)}
        + (if Mutating(w.workers[token].pc.call) then multiset{Mutated(w.workers[token].job, token)} else multiset{})
      else multiset{}
    case _ => multiset{}
  }

  lemma StepHistory(w: World, s: Settings, step: Step)
    requires Enabled(w, s, step)
    ensures Next(w, s, step).hist == w.hist + NewHistory(w, step)
  {
    if step.Apply? {
      ApplyHistory(w, s, step);
    } else if step.Expand? {
      ExpandOnlyAdds(w, s, step.id, step.now, step.picks, step.fault);
    } else if step.CallAgenda? {
      var k := w.workers[step.token];
      assert DoCall(w, step.token, k.pc.call, step.answer).hist == w.hist + NewHistory(w, step);
    } else if ByWorker(step) {
      QuietStep(w, s, step);
    } else if !step.Claim? && !step.Reset? {
      QuietOutside(w, s, step);
    }
  }

  lemma QuietOutside(w: World, s: Settings, step: Step)
    requires Enabled(w, s, step) && !ByWorker(step) && !step.Claim? && !step.Reset? && !step.Expand?
    ensures Next(w, s, step).hist == w.hist
  {
  }

  lemma QuietStep(w: World, s: Settings, step: Step)
    requires Enabled(w, s, step) && ByWorker(step) && !step.Apply? && !step.CallAgenda?
    ensures Next(w, s, step).hist == w.hist
  {
    match step
    case Prepare(token, now) => PrepareHistory(w, s, token, w.workers[token].pc.call, now);
    case SettleFailure(token, now) => SettleHistory(w, s, token, now);
    case Cancel(token) => SettleHistory(w, s, token, 0);
    case Record(token) =>
    case Raise(token) =>
    case Crash(token) =>
  }

  lemma PrepareHistory(w: World, s: Settings, token: Unique, call: Call, now: int)
    requires token in w.workers
    ensures DoPrepare(w, s, token, call, now).hist == w.hist
  {
  }

  lemma SettleHistory(w: World, s: Settings, token: Unique, now: int)
    requires token in w.workers
    ensures DoSettleFailure(w, s, token, now).hist == w.hist && DoCancel(w, token).hist == w.hist
  {
  }

  lemma ApplyHistory(w: World, s: Settings, step: Step)
    requires Enabled(w, s, step) && step.Apply?
    ensures DoApply(w, s, step.token, step.plan, step.after, step.now).hist == w.hist + NewHistory(w, step)
  {
    var token := step.token;
    if Commits(w, step, w.workers[token].job) {
      assert DoApply(w, s, token, step.plan, step.after, step.now) == CommitTurn(w, token, step.after);
    }
  }

  /** Over a whole run a job's turn is applied at most once, and never beside a closing reset; once
      applied the job is COMPLETED, and COMPLETED is terminal: the row never changes again. */
  lemma AppliedExactlyOnce(s: Settings, worlds: seq<World>, steps: seq<Step>, i: nat, k: nat, j: JobId)
    requires s.maxAttempts >= 1 && IsRun(s, worlds, steps) && i <= k < |worlds|
    ensures worlds[k].hist[Applied(j)] + worlds[k].hist[ClosedByReset(j)] <= 1
    ensures worlds[i].hist[Applied(j)] == 1 ==>
              j in worlds[i].jobs && worlds[i].jobs[j].status == Completed
              && j in worlds[k].jobs && worlds[k].jobs[j] == worlds[i].jobs[j]
    ensures j in worlds[i].jobs && worlds[i].jobs[j].status == Completed ==>
              worlds[i].hist[Applied(j)] + worlds[i].hist[ClosedByReset(j)] == 1
              && worlds[k].hist[Applied(j)] == worlds[i].hist[Applied(j)]
  {
    RunInv(s, worlds, steps, i);
    RunInv(s, worlds, steps, k);
    assert Counted(worlds[i], j) && Counted(worlds[k], j);
    if j in worlds[i].jobs && worlds[i].jobs[j].status == Completed {
      JobPersists(s, worlds, steps, i, k, j);
      HistGrows(s, worlds, steps, i, k, Applied(j));
      HistGrows(s, worlds, steps, i, k, ClosedByReset(j));
    }
  }

  /** Nothing that has happened is forgotten. */
  lemma {:induction false} HistGrows(
    s: Settings, worlds: seq<World>, steps: seq<Step>, i: nat, k: nat, h: Happening)
    requires IsRun(s, worlds, steps) && i <= k < |worlds|
    ensures worlds[i].hist[h] <= worlds[k].hist[h]
    decreases k
  {
    if i < k {
      HistGrows(s, worlds, steps, i, k - 1, h);
      assert StepAt(s, worlds, steps, k - 1);
      StepHistory(worlds[k-1], s, steps[k-1]);
    }
  }

  /** The committed turn replayed the acquisition's log: its calls are the logged ones in order, each
      answered by the value that one earlier call returned; the fingerprint of the claim still held,
      or a silent state had taken over and no external work was open. */
  lemma CommittedTurnReplaysItsLog(s: Settings, worlds: seq<World>, steps: seq<Step>, i: nat, j: JobId)
    requires s.maxAttempts >= 1 && IsRun(s, worlds, steps) && i < |steps|
    requires worlds[i+1].hist[Applied(j)] > worlds[i].hist[Applied(j)]
    ensures steps[i].Apply? && steps[i].token in worlds[i].workers
    ensures var w := worlds[i];
            var k := w.workers[steps[i].token];
            var used := Attempt(steps[i].plan, k.log, 0);
            && k.job == j && j in w.jobs && w.jobs[j].token == Some(steps[i].token)
            && used.Commits? && used.used <= |k.log| <= 12
            && CallsMade(steps[i].plan, Values(k.log)) == Calls(k.log)[..used.used]
            && (forall p | 0 <= p < |k.log| :: w.hist[Called(steps[i].token, p)] == 1)
            && k.conv in w.convs
            && (w.convs[k.conv].ctx == k.ctx || (Silent(w.convs[k.conv].ctx) && !w.jobs[j].externalOp))
  {
    var w := worlds[i];
    assert StepAt(s, worlds, steps, i);
    RunInv(s, worlds, steps, i);
    AppliedIsCommit(w, s, steps[i], j);
    var token := steps[i].token;
    var k := w.workers[token];
    assert WorkerOk(w, token);
    CommitReplaysLog(steps[i].plan, k.log, 0);
    assert Values(k.log)[0..] == Values(k.log);
    forall p | 0 <= p < |k.log| ensures w.hist[Called(token, p)] == 1 { assert CallOnce(w, token, p); }
  }

  // ----- At-most-once external work -----

  /** Once external work is committed, the job is never offered or acquired again, whatever fails,
      expires, is cancelled or retried. */
  lemma ExternalWorkIsNeverReoffered(s: Settings, worlds: seq<World>, steps: seq<Step>, i: nat, k: nat, j: JobId)
    requires s.maxAttempts >= 1 && IsRun(s, worlds, steps) && i <= k < |worlds|
    requires j in worlds[i].jobs && worlds[i].jobs[j].externalOp
    ensures j in worlds[k].jobs
    ensures var job := worlds[k].jobs[j]; job.status == External || job.status == Review || job.status == Completed
    ensures worlds[k].hist[Acquired(j)] == worlds[i].hist[Acquired(j)]
  {
    JobPersists(s, worlds, steps, i, k, j);
    RunInv(s, worlds, steps, k);
    assert JobOk(worlds[k], j);
  }

  /** All mutating calls of a job come from the single acquisition that committed its external
      operation, at most twelve of them; and each position of an acquisition is called once. */
  lemma MutatingCallsComeFromOneAcquisition(s: Settings, worlds: seq<World>, steps: seq<Step>, i: nat, j: JobId)
    requires s.maxAttempts >= 1 && IsRun(s, worlds, steps) && i < |worlds|
    ensures var w := worlds[i];
            forall t, u | w.hist[Mutated(j, t)] > 0 && w.hist[Mutated(j, u)] > 0 ::
              t == u && w.hist[Mutated(j, t)] <= 12 && j in w.jobs && w.jobs[j].externalOp
    ensures forall t, p :: worlds[i].hist[Called(t, p)] <= (if p < 12 then 1 else 0)
  {
    var w := worlds[i];
    RunInv(s, worlds, steps, i);
    forall t, u | w.hist[Mutated(j, t)] > 0 && w.hist[Mutated(j, u)] > 0
      ensures t == u && w.hist[Mutated(j, t)] <= 12 && j in w.jobs && w.jobs[j].externalOp
    {
      assert MutationsOk(w, j, t) && MutationsOk(w, j, u);
      assert JobOk(w, j);
    }
    forall t, p ensures w.hist[Called(t, p)] <= (if p < 12 then 1 else 0) { assert CallOnce(w, t, p); }
  }

  // ----- Per-conversation order -----

  /** At most one job of a conversation is being processed; everything before it, and before any
      finished job, is finished. */
  lemma ConversationsAreFifo(s: Settings, worlds: seq<World>, steps: seq<Step>, i: nat, j: JobId, k: JobId)
    requires s.maxAttempts >= 1 && IsRun(s, worlds, steps) && i < |worlds|
    requires j in worlds[i].jobs && k in worlds[i].jobs && worlds[i].jobs[j].conv == worlds[i].jobs[k].conv
    ensures Active(worlds[i].jobs[j]) && Active(worlds[i].jobs[k]) ==> j == k
    ensures j < k && (Active(worlds[i].jobs[k]) || worlds[i].jobs[k].status == Completed) ==>
              worlds[i].jobs[j].status == Completed
  {
    RunInv(s, worlds, steps, i);
    assert InOrder(worlds[i], j, k) && InOrder(worlds[i], k, j);
  }

  /** Turns of one conversation are applied in the order of their jobs. */
  lemma TurnsAreAppliedInOrder(s: Settings, worlds: seq<World>, steps: seq<Step>, a: nat, b: nat, j: JobId, k: JobId)
    requires s.maxAttempts >= 1 && IsRun(s, worlds, steps) && a < |steps| && b < |steps|
    requires Commits(worlds[a], steps[a], j) && Commits(worlds[b], steps[b], k)
    requires worlds[a].jobs[j].conv == worlds[b].jobs[k].conv && j < k
    ensures a < b
  {
    if b <= a {
      StepCompletes(s, worlds, steps, b, k);
      if b < a { JobPersists(s, worlds, steps, b + 1, a, k); }
      JobPersists(s, worlds, steps, b, a, k);
      NothingActiveBefore(s, worlds, steps, a, j, k);
    }
  }

  lemma NothingActiveBefore(s: Settings, worlds: seq<World>, steps: seq<Step>, i: nat, j: JobId, k: JobId)
    requires s.maxAttempts >= 1 && IsRun(s, worlds, steps) && i < |worlds|
    requires k in worlds[i].jobs && worlds[i].jobs[k].status == Completed && j < k
    ensures j in worlds[i].jobs && worlds[i].jobs[j].conv == worlds[i].jobs[k].conv ==> !Active(worlds[i].jobs[j])
  {
    RunInv(s, worlds, steps, i);
    assert InOrder(worlds[i], j, k);
  }

  lemma StepCompletes(s: Settings, worlds: seq<World>, steps: seq<Step>, i: nat, j: JobId)
    requires s.maxAttempts >= 1 && IsRun(s, worlds, steps) && i < |steps| && Commits(worlds[i], steps[i], j)
    ensures j in worlds[i+1].jobs && worlds[i+1].jobs[j].status == Completed
  {
    RunInv(s, worlds, steps, i);
    assert StepAt(s, worlds, steps, i) && JobOk(worlds[i], j);
    AppliedIsCommit(worlds[i], s, steps[i], j);
    JobStep(worlds[i], s, steps[i], j);
  }

  /** What a conversation offers depends on its own jobs alone. */
  lemma ClaimingIsLocal(w: World, w': World, conv: ConvId, id: JobId, now: int, only: Option<set<MsgId>>)
    requires conv in w.convs && conv in w'.convs
    requires forall j: JobId :: (j in w.jobs && w.jobs[j].conv == conv) <==> (j in w'.jobs && w'.jobs[j].conv == conv)
    requires forall j | j in w.jobs && w.jobs[j].conv == conv :: w'.jobs[j] == w.jobs[j]
    ensures Claimable(w, conv, id, now, only) <==> Claimable(w', conv, id, now, only)
  {
  }

  /** A conversation with unfinished work has exactly one head, and only the head is ever offered. */
  lemma OnlyTheHeadIsOffered(w: World, conv: ConvId, id: JobId)
    requires conv in w.convs && id in w.jobs && w.jobs[id].conv == conv && w.jobs[id].status != Completed
    ensures exists h: JobId :: Head(w, conv, h) && h <= id
    ensures forall h: JobId, g: JobId | Head(w, conv, h) && Head(w, conv, g) :: h == g
    ensures forall h: JobId, now | Head(w, conv, h) && w.jobs[h].status == Pending && Due(w.jobs[h].nextAttempt, now) ::
              Claimable(w, conv, h, now, None)
    ensures forall h: JobId | Head(w, conv, h) && w.jobs[h].status != Pending ::
              forall j: JobId, now, only :: !Claimable(w, conv, j, now, only)
  {
    var h := LeastUnfinished(w, conv, id);
    assert Head(w, conv, h);
  }

  ghost function LeastUnfinished(w: World, conv: ConvId, id: JobId): (h: JobId)
    requires id in w.jobs && w.jobs[id].conv == conv && w.jobs[id].status != Completed
    ensures Head(w, conv, h) && h <= id
    decreases id
  {
    if j: JobId :| j in w.jobs && w.jobs[j].conv == conv && j < id && w.jobs[j].status != Completed
    then LeastUnfinished(w, conv, j) else id
  }

  predicate ResetsCustomerOf(w: World, step: Step, conv: ConvId) {
    step.Reset? && conv in w.convs && w.convs[conv].customer == step.phone
  }

  /** A head in REVIEW stays the head in REVIEW until its customer is reset: no retry, reap, worker or
      redelivery moves it, and nothing behind it is processed. */
  lemma {:induction false} ReviewHeadBlocks(
    s: Settings, worlds: seq<World>, steps: seq<Step>, i: nat, k: nat, h: JobId, j: JobId)
    requires s.maxAttempts >= 1 && IsRun(s, worlds, steps) && i <= k < |worlds|
    requires h in worlds[i].jobs && worlds[i].jobs[h].status == Review
    requires forall n | i <= n < k :: !ResetsCustomerOf(worlds[n], steps[n], worlds[i].jobs[h].conv)
    ensures h in worlds[k].jobs && worlds[k].jobs[h] == worlds[i].jobs[h]
    ensures j in worlds[k].jobs && worlds[k].jobs[j].conv == worlds[i].jobs[h].conv && h < j ==>
              !Active(worlds[k].jobs[j]) && worlds[k].jobs[j].status != Completed
    decreases k
  {
    if i < k {
      ReviewHeadBlocks(s, worlds, steps, i, k - 1, h, j);
      RunInv(s, worlds, steps, k - 1);
      assert StepAt(s, worlds, steps, k - 1) && JobOk(worlds[k-1], h);
      ReviewStep(worlds[k-1], s, steps[k-1], h);
    }
    RunInv(s, worlds, steps, k);
    assert InOrder(worlds[k], h, j);
  }

  lemma ReviewStep(w: World, s: Settings, step: Step, h: JobId)
    requires Enabled(w, s, step) && h in w.jobs && w.jobs[h].status == Review && JobOk(w, h)
    requires !ResetsCustomerOf(w, step, w.jobs[h].conv)
    ensures h in Next(w, s, step).jobs && Next(w, s, step).jobs[h] == w.jobs[h]
  {
    if ByWorker(step) {
      WorkerStepEffect(w, s, step, h);
      WorkerJobStep(w, Next(w, s, step), s, step.token, h);
    } else if step.Expand? {
      ExpandOnlyAdds(w, s, step.id, step.now, step.picks, step.fault);
    }
  }

  // ----- Attempts -----

  lemma StepWithinAttempts(w: World, s: Settings, step: Step, j: JobId)
    requires Enabled(w, s, step) && s.maxAttempts >= 1 && j in w.jobs && WithinAttempts(w.jobs[j], s)
    ensures j in Next(w, s, step).jobs && WithinAttempts(Next(w, s, step).jobs[j], s)
  {
    if ByWorker(step) {
      WorkerStepEffect(w, s, step, j);
    } else if step.Expand? {
      ExpandOnlyAdds(w, s, step.id, step.now, step.picks, step.fault);
    }
  }

  predicate Untried(job: Job) {
    job.attempts == 0 && job.status != Failed
  }

  lemma PersistOneUntried(w: World, item: Incoming, pick: Pick, j: JobId)
    requires PersistOne(w, item, pick).Some? && j !in w.jobs && j in PersistOne(w, item, pick).value.jobs
    ensures Untried(PersistOne(w, item, pick).value.jobs[j])
  {
  }

  /** Intake inserts jobs without attempts. */
  lemma {:induction false} PersistedUntried(w: World, items: seq<Incoming>, picks: seq<Pick>, j: JobId)
    requires |picks| == |items| && PicksOk(w, items, picks) && PersistAll(w, items, picks).Some?
    requires j !in w.jobs && j in PersistAll(w, items, picks).value.jobs
    ensures Untried(PersistAll(w, items, picks).value.jobs[j])
    decreases |items|
  {
    if items != [] {
      var w1 := PersistOne(w, items[0], picks[0]).value;
      if j in w1.jobs {
        PersistOneUntried(w, items[0], picks[0], j);
        AddedStays(w1, items[1..], picks[1..], j);
      } else {
        PersistedUntried(w1, items[1..], picks[1..], j);
      }
    }
  }

  lemma AddedStays(w: World, items: seq<Incoming>, picks: seq<Pick>, j: JobId)
    requires |picks| == |items| && PicksOk(w, items, picks) && PersistAll(w, items, picks).Some? && j in w.jobs
    ensures j in PersistAll(w, items, picks).value.jobs && PersistAll(w, items, picks).value.jobs[j] == w.jobs[j]
  {
    PersistAllAdds(w, items, picks);
  }

  lemma InsertedUntried(w: World, s: Settings, step: Step, j: JobId)
    requires Enabled(w, s, step) && j !in w.jobs && j in Next(w, s, step).jobs
    ensures Untried(Next(w, s, step).jobs[j])
  {
    if step.Expand? {
      ExpandShape(w, s, step.id, step.now, step.picks, step.fault);
      if PersistAll(w, w.events[step.id].payload, step.picks).Some?
         && j in PersistAll(w, w.events[step.id].payload, step.picks).value.jobs {
        PersistedUntried(w, w.events[step.id].payload, step.picks, j);
      }
    } else if ByWorker(step) {
      WorkerStepEffect(w, s, step, j);
    }
  }

  /** In every run a job that is still offered or processed has failed fewer than max_attempts times since
      its insertion or its last manual retry, no job ever has failed more often than that, and none is FAILED
      that could still have been tried. */
  lemma {:induction false} AttemptsAreBounded(s: Settings, worlds: seq<World>, steps: seq<Step>, i: nat, j: JobId)
    requires s.maxAttempts >= 1 && IsRun(s, worlds, steps) && i < |worlds| && j in worlds[i].jobs
    ensures worlds[i].jobs[j].attempts <= s.maxAttempts
    ensures worlds[i].jobs[j].status == Failed ==> worlds[i].jobs[j].attempts == s.maxAttempts
    ensures worlds[i].jobs[j].status == Pending || Active(worlds[i].jobs[j]) ==> worlds[i].jobs[j].attempts < s.maxAttempts
  {
    if i > 0 {
      assert StepAt(s, worlds, steps, i - 1);
      if j in worlds[i-1].jobs {
        AttemptsAreBounded(s, worlds, steps, i - 1, j);
        StepWithinAttempts(worlds[i-1], s, steps[i-1], j);
      } else {
        InsertedUntried(worlds[i-1], s, steps[i-1], j);
      }
    }
  }

  // ----- Webhook events -----

  lemma EventStep(w: World, s: Settings, step: Step, e: EventId)
    requires Enabled(w, s, step) && e in w.events
    ensures var w' := Next(w, s, step);
            e in w'.events && EventChange(w.events[e], w'.events[e])
  {
    if ByWorker(step) {
      WorkerStepEffect(w, s, step, 0);
    } else if step.Expand? {
      ExpandOnlyAdds(w, s, step.id, step.now, step.picks, step.fault);
    }
  }

  lemma ProcessedNow(w: World, s: Settings, e: EventId)
    requires e in w.events && EventOk(w, s, e) && w.events[e].versionTwo && w.events[e].status == Processed
    ensures forall x | x in Externals(w.events[e].payload) ::
              exists m, j :: HasMessage(w, x, m) && HasJob(w, m, j) && w.jobs[j].status == Completed
  {
    forall x | x in Externals(w.events[e].payload)
      ensures exists m, j :: HasMessage(w, x, m) && HasJob(w, m, j) && w.jobs[j].status == Completed
    {
      assert Covered(w, x);
    }
  }

  /** PROCESSED is terminal, and from then on every external id of the payload has a finished job. */
  lemma {:induction false} ProcessedMeansDone(
    s: Settings, worlds: seq<World>, steps: seq<Step>, i: nat, k: nat, e: EventId)
    requires s.maxAttempts >= 1 && IsRun(s, worlds, steps) && i <= k < |worlds|
    requires e in worlds[i].events && worlds[i].events[e].versionTwo && worlds[i].events[e].status == Processed
    ensures e in worlds[k].events && worlds[k].events[e] == worlds[i].events[e]
    ensures forall x | x in Externals(worlds[i].events[e].payload) ::
              exists m, j :: HasMessage(worlds[k], x, m) && HasJob(worlds[k], m, j)
                             && worlds[k].jobs[j].status == Completed
    decreases k
  {
    if i < k {
      ProcessedMeansDone(s, worlds, steps, i, k - 1, e);
      assert StepAt(s, worlds, steps, k - 1);
      EventStep(worlds[k-1], s, steps[k-1], e);
    }
    RunInv(s, worlds, steps, k);
    ProcessedNow(worlds[k], s, e);
  }

  /** Failed ingestion ends: an event still waiting has failed fewer than max_attempts times, so the
      failure that reaches the limit makes it EXHAUSTED. */
  lemma IngestionIsBounded(s: Settings, worlds: seq<World>, steps: seq<Step>, i: nat, e: EventId)
    requires s.maxAttempts >= 1 && IsRun(s, worlds, steps) && i < |worlds| && e in worlds[i].events
    ensures var ev := worlds[i].events[e];
            && ev.ingestAttempts <= s.maxAttempts
            && (ev.status == Received || ev.status == IngestFailed ==> ev.ingestAttempts < s.maxAttempts)
  {
    RunInv(s, worlds, steps, i);
    assert EventOk(worlds[i], s, e);
  }

  /** A message that staff interception let through is stored, with its job. */
  ghost predicate Stored(w: World, x: ExternalId) {
    exists m, j :: HasMessage(w, x, m) && HasJob(w, m, j)
  }

  lemma PersistOneStores(w: World, s: Settings, item: Incoming, pick: Pick)
    requires Inv(w, s) && PickOk(w, item, pick) && PersistOne(w, item, pick).Some? && !pick.staff
    ensures Stored(PersistOne(w, item, pick).value, item.external)
  {
    var w' := PersistOne(w, item, pick).value;
    if exists m :: HasMessage(w, item.external, m) {
      var m :| HasMessage(w, item.external, m);
      forall n | HasMessage(w, item.external, n) ensures m == n { assert OneMessage(w, m, n); }
      if exists j :: HasJob(w, m, j) {
        var j :| HasJob(w, m, j);
        assert HasMessage(w', item.external, m) && HasJob(w', m, j);
      } else {
        assert HasMessage(w', item.external, m) && HasJob(w', m, pick.job);
      }
    } else {
      assert HasMessage(w', item.external, pick.msg) && HasJob(w', pick.msg, pick.job);
    }
  }

  lemma StoredStays(w: World, w': World, x: ExternalId)
    requires Stored(w, x) && OnlyAdds(w, w')
    ensures Stored(w', x)
  {
    var m, j :| HasMessage(w, x, m) && HasJob(w, m, j);
    assert HasMessage(w', x, m) && HasJob(w', m, j);
  }

  lemma {:induction false} PersistAllStores(w: World, s: Settings, items: seq<Incoming>, picks: seq<Pick>)
    requires Inv(w, s) && |picks| == |items| && PicksOk(w, items, picks) && PersistAll(w, items, picks).Some?
    ensures forall n | 0 <= n < |items| && !picks[n].staff :: Stored(PersistAll(w, items, picks).value, items[n].external)
    decreases |items|
  {
    if items != [] {
      var w1 := PersistOne(w, items[0], picks[0]).value;
      PersistOneInv(w, s, items[0], picks[0]);
      PersistAllAdds(w1, items[1..], picks[1..]);
      PersistAllStores(w1, s, items[1..], picks[1..]);
      if !picks[0].staff {
        PersistOneStores(w, s, items[0], picks[0]);
        StoredStays(w1, PersistAll(w, items, picks).value, items[0].external);
      }
      forall n | 0 < n < |items| && !picks[n].staff
        ensures Stored(PersistAll(w, items, picks).value, items[n].external)
      {
        assert items[n] == items[1..][n-1] && picks[n] == picks[1..][n-1];
      }
    }
  }

  /** Expanding a payload is all or nothing: either no conversation, message or job was added, or every
      message that staff interception let through is stored with its job. */
  lemma ExpansionIsAllOrNothing(w: World, s: Settings, id: EventId, now: int, picks: seq<Pick>, fault: bool)
    requires Inv(w, s) && Enabled(w, s, Expand(id, now, picks, fault))
    ensures var w' := Next(w, s, Expand(id, now, picks, fault));
            || (w'.convs == w.convs && w'.messages == w.messages && w'.jobs == w.jobs)
            || (w'.events[id].status == Prepared
                && forall n | 0 <= n < |picks| && !picks[n].staff :: Stored(w', w.events[id].payload[n].external))
  {
    var e := w.events[id];
    ExpandShape(w, s, id, now, picks, fault);
    if !fault && PersistAll(w, e.payload, picks).Some? {
      PersistAllStores(w, s, e.payload, picks);
      SetEventStores(PersistAll(w, e.payload, picks).value, id, e.(status := Prepared, nextAttempt := None));
    }
  }

  lemma SetEventStores(w: World, id: EventId, e: Event)
    ensures forall x :: Stored(w, x) ==> Stored(SetEvent(w, id, e), x)
  {
    forall x | Stored(w, x) ensures Stored(SetEvent(w, id, e), x) {
      var m, j :| HasMessage(w, x, m) && HasJob(w, m, j);
      assert HasMessage(SetEvent(w, id, e), x, m) && HasJob(SetEvent(w, id, e), m, j);
    }
  }
}
