/** What the steps of the inbox are for: a committed turn leaves its effect, a failed attempt is made again,
    and a released, retried or claimed job is where the next worker needs it. Each is stated by what holds in
    the next world, and lifted over runs. */
module InboxProgress {
  import opened Common
  import Ownership
  import opened Inbox
  import opened Replay
  import opened InboxProtocol
  import opened InboxSafety
  import opened InboxRuns

  // ----- Committed turns take effect -----

  /** The step commits a turn in this conversation. */
  ghost predicate CommitsIn(w: World, step: Step, c: ConvId) {
    step.Apply? && step.token in w.workers && w.workers[step.token].conv == c
    && InboxRuns.Commits(w, step, w.workers[step.token].job)
  }

  predicate ResetsConversation(w: World, step: Step, c: ConvId) {
    step.Reset? && c in w.convs && w.convs[c].customer == step.phone
    && forall j | j in w.jobs && OfCustomer(w, step.phone, j) :: w.jobs[j].status != Processing && w.jobs[j].status != External
  }

  /** What every step leaves as the context of every conversation. */
  ghost predicate ContextMoves(w: World, step: Step, w': World, c: ConvId) {
    && c in w.convs && c in w'.convs && w'.convs[c].customer == w.convs[c].customer
    && w'.convs[c].ctx == if CommitsIn(w, step, c) then step.after
                          else if step.ChangeContext? && step.conv == c then step.ctx
                          else if ResetsConversation(w, step, c) then Context(Ownership.Closed, true, step.rest)
                          else w.convs[c].ctx
  }

  lemma ContextStep(w: World, s: Settings, step: Step, c: ConvId)
    requires Enabled(w, s, step) && c in w.convs
    ensures ContextMoves(w, step, Next(w, s, step), c)
  {
    if step.Apply? {
      ApplyContext(w, s, step, c);
    } else if ByWorker(step) {
      QuietContext(w, s, step);
    } else if step.Expand? {
      ExpandOnlyAdds(w, s, step.id, step.now, step.picks, step.fault);
    } else if step.Reset? {
      assert BusyCustomer(w, step.phone) <==> !(forall j | j in w.jobs && OfCustomer(w, step.phone, j) :: !Active(w.jobs[j]));
    }
  }

  lemma ApplyContext(w: World, s: Settings, step: Step, c: ConvId)
    requires Enabled(w, s, step) && step.Apply? && c in w.convs
    ensures ContextMoves(w, step, DoApply(w, s, step.token, step.plan, step.after, step.now), c)
  {
  }

  lemma QuietContext(w: World, s: Settings, step: Step)
    requires Enabled(w, s, step) && ByWorker(step) && !step.Apply?
    ensures Next(w, s, step).convs == w.convs
  {
    match step
    case Prepare(token, now) => PrepareContext(w, s, token, w.workers[token].pc.call, now);
    case SettleFailure(token, now) => SettleContext(w, s, token, now);
    case Cancel(token) => SettleContext(w, s, token, 0);
    case CallAgenda(token, answer) => CallContext(w, token, w.workers[token].pc.call, answer, 0);
    case Record(token) => CallContext(w, token, w.workers[token].pc.call, None, w.workers[token].pc.value);
    case Raise(token) =>
    case Crash(token) =>
  }

  lemma CallContext(w: World, token: Unique, call: Call, answer: Option<int>, value: int)
    requires token in w.workers
    ensures DoCall(w, token, call, answer).convs == w.convs && DoRecord(w, token, call, value).convs == w.convs
  {
  }

  lemma PrepareContext(w: World, s: Settings, token: Unique, call: Call, now: int)
    requires token in w.workers
    ensures DoPrepare(w, s, token, call, now).convs == w.convs
  {
    if Owns(w, token) && ContextKept(w, token) {
      assert Opened(w, token).convs == w.convs;
    }
  }

  lemma SettleContext(w: World, s: Settings, token: Unique, now: int)
    requires token in w.workers
    ensures DoSettleFailure(w, s, token, now).convs == w.convs && DoCancel(w, token).convs == w.convs
  {
  }

  /** A step that commits a turn leaves, at once, the conversation in the context the turn arrived at, the job
      COMPLETED under no token, and every other conversation, job, message and event as it was. */
  lemma TurnTakesEffect(w: World, s: Settings, step: Step, j: JobId)
    requires Inv(w, s) && Enabled(w, s, step) && InboxRuns.Commits(w, step, j)
    ensures var w', c := Next(w, s, step), w.jobs[j].conv;
            && w'.convs.Keys == w.convs.Keys && w'.convs[c] == Conv(w.convs[c].customer, step.after)
            && (forall d | d in w.convs && d != c :: w'.convs[d] == w.convs[d])
            && w'.jobs.Keys == w.jobs.Keys && w'.jobs[j].status == Completed && w'.jobs[j].token.None?
            && (forall k | k in w.jobs && k != j :: w'.jobs[k] == w.jobs[k])
            && w'.messages == w.messages && w'.events == w.events
            && w'.workers.Keys == w.workers.Keys - {step.token}
  {
    assert WorkerOk(w, step.token);
    CommitIsNext(w, s, step, j);
  }

  lemma CommitIsNext(w: World, s: Settings, step: Step, j: JobId)
    requires Enabled(w, s, step) && InboxRuns.Commits(w, step, j)
    ensures Next(w, s, step) == CommitTurn(w, step.token, step.after)
  {
  }

  /** Another turn, a change from outside, or a reset takes over the conversation. */
  ghost predicate Rewrites(w: World, step: Step, c: ConvId) {
    CommitsIn(w, step, c) || (step.ChangeContext? && step.conv == c) || ResetsConversation(w, step, c)
  }

  /** Over a run a committed turn stands: its conversation has the context the turn arrived at until the next
      turn commits there or somebody else rewrites it. Failed, deferred, expired and cancelled attempts, of
      this or any other job, leave no trace in it. */
  lemma {:induction false} TurnStands(
    s: Settings, worlds: seq<World>, steps: seq<Step>, i: nat, k: nat, j: JobId)
    requires s.maxAttempts >= 1 && IsRun(s, worlds, steps) && i < k < |worlds| && InboxRuns.Commits(worlds[i], steps[i], j)
    requires forall n | i < n < k :: !Rewrites(worlds[n], steps[n], worlds[i].jobs[j].conv)
    ensures var c := worlds[i].jobs[j].conv; c in worlds[k].convs && worlds[k].convs[c].ctx == steps[i].after
    decreases k
  {
    assert StepAt(s, worlds, steps, k - 1);
    if k == i + 1 {
      RunInv(s, worlds, steps, i);
      assert WorkerOk(worlds[i], steps[i].token);
      TurnTakesEffect(worlds[i], s, steps[i], j);
    } else {
      TurnStands(s, worlds, steps, i, k - 1, j);
      ContextStep(worlds[k-1], s, steps[k-1], worlds[i].jobs[j].conv);
    }
  }

  // ----- Failed attempts are made again -----

  /** An attempt at the job fails in this step: its claim expires, it raises, or it finds that its
      conversation has moved on. */
  ghost predicate FailsAt(w: World, s: Settings, step: Step, j: JobId, now: int) {
    match step
    case Reap(job, t) => job == j && t == now
    case SettleFailure(token, t) => t == now && OwnsJob(w, token, j)
    case Apply(token, _, _, t) =>
      t == now && OwnsJob(w, token, j) && !ContextKept(w, token) && !Silent(w.convs[w.workers[token].conv].ctx)
    case Prepare(token, t) => t == now && OwnsJob(w, token, j) && !ContextKept(w, token)
    case _ => false
  }

  predicate OwnsJob(w: World, token: Unique, j: JobId) {
    token in w.workers && w.workers[token].job == j && Owns(w, token)
  }

  lemma FailureRow(w: World, s: Settings, step: Step, j: JobId, now: int) returns (cause: Cause)
    requires Enabled(w, s, step) && FailsAt(w, s, step, j, now) && !w.jobs[j].externalOp
    ensures Active(w.jobs[j]) && Next(w, s, step).jobs == w.jobs[j := FailLocked(w.jobs[j], cause, now, s)]
    ensures Next(w, s, step).convs == w.convs
  {
    match step
    case Reap(_, _) => cause := ClaimExpired;
    case SettleFailure(token, _) => cause := AttemptRaised;
    case Apply(token, plan, after, _) => cause := ContextChangedReclassify;
    case Prepare(token, _) => cause := ContextChangedReclassify;
  }

  /** A failed attempt without external work counts once. Below the limit the job waits again as the head of
      its conversation and is offered from `delay` seconds on, and not before; the delay is positive, within
      the cap, and two seconds after the first failure. At the limit the job is FAILED and no longer offered. */
  lemma FailureIsRetried(w: World, s: Settings, step: Step, j: JobId, now: int) returns (delay: nat)
    requires Inv(w, s) && Enabled(w, s, step) && FailsAt(w, s, step, j, now) && !w.jobs[j].externalOp
    ensures j in Next(w, s, step).jobs
    ensures delay <= s.maxBackoff && (s.maxBackoff > 0 ==> delay > 0)
    ensures w.jobs[j].attempts == 0 && s.maxBackoff >= 2 ==> delay == 2
    ensures var job', c := Next(w, s, step).jobs[j], w.jobs[j].conv;
            && job'.attempts == w.jobs[j].attempts + 1 && job'.token.None? && !job'.externalOp
            && Head(Next(w, s, step), c, j)
            && (if w.jobs[j].attempts + 1 < s.maxAttempts
                then job'.status == Pending
                     && forall t :: Claimable(Next(w, s, step), c, j, t, None) <==> now + delay <= t
                else job'.status == Failed && forall t :: !Claimable(Next(w, s, step), c, j, t, None))
  {
    var cause := FailureRow(w, s, step, j, now);
    assert JobOk(w, j);
    delay := FailureOutcome(w.jobs[j], cause, now, s);
    ActiveIsHead(w, j);
    OfferedFrom(w, Next(w, s, step), w.jobs[j].conv, j);
  }

  /** After external work the same failure sends the job to REVIEW, whatever the number of attempts. */
  lemma UncertainFailure(w: World, s: Settings, step: Step, j: JobId, now: int)
    requires Inv(w, s) && Enabled(w, s, step) && FailsAt(w, s, step, j, now) && w.jobs[j].externalOp
    ensures Next(w, s, step).jobs[j].status == Review && Next(w, s, step).jobs[j].token.None?
  {
  }

  /** The head remains the head, and is offered when pending and due. */
  lemma OfferedFrom(w: World, w': World, c: ConvId, j: JobId)
    requires c in w.convs && w'.convs == w.convs && Head(w, c, j) && j in w'.jobs && w'.jobs == w.jobs[j := w'.jobs[j]]
    requires w'.jobs[j].conv == c && w'.jobs[j].status != Completed
    ensures Head(w', c, j)
    ensures forall t :: Claimable(w', c, j, t, None) <==> w'.jobs[j].status == Pending && Due(w'.jobs[j].nextAttempt, t)
  {
  }

  /** A turn that finds its conversation changed after external work goes to REVIEW and is not tried again. */
  lemma ChangedAfterExternal(w: World, s: Settings, step: Step, j: JobId)
    requires Inv(w, s) && Enabled(w, s, step) && step.Apply? && OwnsJob(w, step.token, j)
    requires !ContextKept(w, step.token) && w.jobs[j].externalOp
    ensures var w' := Next(w, s, step);
            && w'.jobs == w.jobs[j := w'.jobs[j]] && w'.jobs[j].status == Review && w'.jobs[j].token.None?
            && w'.jobs[j].attempts == w.jobs[j].attempts && w'.convs == w.convs && step.token !in w'.workers
  {
  }

  lemma ActiveIsHead(w: World, j: JobId)
    requires j in w.jobs && Active(w.jobs[j]) && Fifo(w)
    ensures Head(w, w.jobs[j].conv, j)
  {
    forall k | k in w.jobs && w.jobs[k].conv == w.jobs[j].conv && k < j ensures w.jobs[k].status == Completed {
      assert InOrder(w, k, j);
    }
  }

  lemma HeadStays(w: World, w': World, j: JobId)
    requires j in w.jobs && Head(w, w.jobs[j].conv, j) && j in w'.jobs && w'.jobs == w.jobs[j := w'.jobs[j]]
    requires w'.jobs[j].conv == w.jobs[j].conv && w'.jobs[j].status != Completed
    ensures Head(w', w.jobs[j].conv, j)
  {
  }

  // ----- Released, retried, claimed -----

  /** A cancelled attempt without external work is offered again at once and does not count. */
  lemma CancelReleases(w: World, s: Settings, token: Unique, j: JobId, t: int)
    requires Inv(w, s) && Enabled(w, s, Cancel(token)) && OwnsJob(w, token, j) && !w.jobs[j].externalOp
    ensures var w' := Next(w, s, Cancel(token));
            && w'.jobs[j].attempts == w.jobs[j].attempts && Claimable(w', w.jobs[j].conv, j, t, None)
            && forall k | k in w.jobs && k != j :: w'.jobs[k] == w.jobs[k]
  {
    var w' := DoCancel(w, token);
    assert JobOk(w, j);
    ActiveIsHead(w, j);
    OfferedFrom(w, w', w.jobs[j].conv, j);
  }

  /** A manual retry takes exactly FAILED jobs of new work without external effects. The job starts over: no
      attempts, offered at once when it is the head; the events that had given up because of it wait again. */
  lemma RetryStartsOver(w: World, s: Settings, j: JobId, t: int)
    requires Inv(w, s) && j in w.jobs
    ensures Enabled(w, s, RetryJob(j)) <==>
              w.jobs[j].status == Failed && w.jobs[j].origin == NewWork && !w.jobs[j].externalOp
    ensures Enabled(w, s, RetryJob(j)) ==>
              var w' := Next(w, s, RetryJob(j));
              && w'.jobs[j].status == Pending && w'.jobs[j].attempts == 0 && w'.jobs[j].token.None?
              && (Head(w, w.jobs[j].conv, j) ==> Claimable(w', w.jobs[j].conv, j, t, None))
              && (forall k | k in w.jobs && k != j :: w'.jobs[k] == w.jobs[k])
              && w'.events.Keys == w.events.Keys
              && forall e | e in w.events ::
                   w'.events[e].status == (if RaisedBy(w, e, j) && w.events[e].status == Exhausted then Prepared
                                           else w.events[e].status)
  {
    assert JobOk(w, j);
    if Enabled(w, s, RetryJob(j)) && Head(w, w.jobs[j].conv, j) { HeadStays(w, Next(w, s, RetryJob(j)), j); }
  }

  /** The event carries the message of the job. */
  predicate RaisedBy(w: World, e: EventId, j: JobId)
    requires e in w.events && j in w.jobs
  {
    w.jobs[j].message in w.messages && w.events[e].versionTwo
    && exists i | 0 <= i < |w.events[e].payload| :: w.events[e].payload[i].external == w.messages[w.jobs[j].message].external
  }

  /** A claim hands the job to a worker that owns it under a new token, with an empty log, and whose
      fingerprint is that of the conversation now, so an attempt made at once is not turned away. The claim
      expires when the timeout has passed, and not before. */
  lemma ClaimEquips(w: World, s: Settings, c: ConvId, j: JobId, now: int, only: Option<set<MsgId>>)
    requires Inv(w, s) && Enabled(w, s, Claim(c, j, now, only))
    ensures var w' := Next(w, s, Claim(c, j, now, only));
            && w.supply !in w.workers && OwnsJob(w', w.supply, j) && ContextKept(w', w.supply)
            && w'.workers[w.supply].log == [] && w'.workers[w.supply].pc == Ready
            && w'.jobs[j].attempts == w.jobs[j].attempts
            && (forall t :: Enabled(w', s, Reap(j, t)) <==> now + s.claimTimeout < t)
            && forall after, t :: InboxRuns.Commits(w', Apply(w.supply, Finish, after, t), j)
  {
    assert TokenDrawn(w, w.supply);
  }
}
