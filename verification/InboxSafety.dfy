/** Inductive invariants of the inbox protocol. */
module InboxSafety {
  import opened Common
  import Ownership
  import opened Inbox
  import opened Replay
  import opened InboxProtocol

  // ----- The invariant -----

  predicate MessageOk(w: World, m: MsgId)
    requires m in w.messages
  {
    w.messages[m].conv in w.convs && w.convs[w.messages[m].conv].customer == w.messages[m].customer
  }

  predicate JobOk(w: World, j: JobId)
    requires j in w.jobs
  {
    var job := w.jobs[j];
    && job.message in w.messages && w.messages[job.message].conv == job.conv && job.conv in w.convs
    && (job.token.Some? <==> Active(job))
    && (job.token.Some? ==> job.token.value in w.issued && w.issued[job.token.value] == j)
    && (job.externalOp <==> j in w.opener)
    && (job.externalOp ==> job.status == External || job.status == Review || job.status == Completed)
    && (job.status == External ==> job.externalOp && job.token == Some(w.opener[j]))
  }

  predicate OneMessage(w: World, m: MsgId, n: MsgId) {
    m in w.messages && n in w.messages && w.messages[m].external == w.messages[n].external ==> m == n
  }

  predicate OneJob(w: World, j: JobId, k: JobId) {
    j in w.jobs && k in w.jobs && w.jobs[j].message == w.jobs[k].message ==> j == k
  }

  /** Everything before an active or finished job of a conversation is finished. */
  predicate InOrder(w: World, j: JobId, k: JobId) {
    j in w.jobs && k in w.jobs && j < k && w.jobs[j].conv == w.jobs[k].conv
    && (Active(w.jobs[k]) || w.jobs[k].status == Completed) ==>
      w.jobs[j].status == Completed
  }

  /** One message per external id, one job per message. */
  ghost predicate Identities(w: World) {
    (forall m, n :: OneMessage(w, m, n)) && (forall j, k :: OneJob(w, j, k))
  }

  ghost predicate Fifo(w: World) {
    forall j, k :: InOrder(w, j, k)
  }

  /** A job is completed once: by one committed turn or by one reset, never both. */
  predicate Counted(w: World, j: JobId) {
    w.hist[Applied(j)] + w.hist[ClosedByReset(j)] == if j in w.jobs && w.jobs[j].status == Completed then 1 else 0
  }

  /** Whether the worker has called, but not yet logged, at the position its log has reached. */
  predicate Answered(pc: Pc) {
    pc.Has? || pc == Failing
  }

  /** Mutating calls belong to the acquisition that opened external work, and there are at most 12. */
  predicate MutationsOk(w: World, j: JobId, t: Unique) {
    && (w.hist[Mutated(j, t)] > 0 ==> j in w.opener && w.opener[j] == t)
    && w.hist[Mutated(j, t)] <= 12
    && (t !in w.issued ==> w.hist[Mutated(j, t)] == 0)
    && (t in w.workers ==>
          w.hist[Mutated(j, t)] <= |w.workers[t].log| + (if Answered(w.workers[t].pc) then 1 else 0))
  }

  /** Each position of an acquisition is called at most once; the logged ones were called. */
  predicate CallOnce(w: World, t: Unique, p: nat) {
    && w.hist[Called(t, p)] <= 1
    && (w.hist[Called(t, p)] > 0 ==> p < 12)
    && (t !in w.issued ==> w.hist[Called(t, p)] == 0)
    && (t in w.workers ==>
          var k := w.workers[t];
          && (p < |k.log| ==> w.hist[Called(t, p)] == 1)
          && (p == |k.log| && k.pc.Has? ==> w.hist[Called(t, p)] == 1)
          && (p >= |k.log| && !Answered(k.pc) ==> w.hist[Called(t, p)] == 0)
          && (p > |k.log| ==> w.hist[Called(t, p)] == 0))
  }

  predicate WorkerOk(w: World, t: Unique)
    requires t in w.workers
  {
    var k := w.workers[t];
    && t in w.issued && w.issued[t] == k.job && k.job in w.jobs && w.jobs[k.job].conv == k.conv
    && |k.log| <= 12 && (k.pc != Failing ==> |k.log| < 12)
    && (k.pc.MayCall? && Mutating(k.pc.call) ==> k.job in w.opener && w.opener[k.job] == t)
  }

  ghost predicate Covered(w: World, x: ExternalId) {
    exists m, j :: HasMessage(w, x, m) && HasJob(w, m, j) && w.jobs[j].status == Completed
  }

  ghost predicate EventOk(w: World, s: Settings, e: EventId)
    requires e in w.events
  {
    var ev := w.events[e];
    && (ev.versionTwo && ev.status == Processed ==> forall x | x in Externals(ev.payload) :: Covered(w, x))
    && ev.ingestAttempts <= s.maxAttempts
    && (ev.status == Received || ev.status == IngestFailed ==> ev.ingestAttempts < s.maxAttempts)
    && (!ev.versionTwo ==> ev.ingestAttempts == 0)
  }

  predicate TokenDrawn(w: World, t: Unique) {
    t in w.issued ==> t < w.supply
  }

  /** The stored rows. */
  ghost predicate RowsOk(w: World) {
    && (forall m | m in w.messages :: MessageOk(w, m))
    && (forall j | j in w.jobs :: JobOk(w, j))
    && Identities(w)
    && w.opener.Keys <= w.jobs.Keys
  }

  /** What has happened, against what is stored. */
  ghost predicate LedgerOk(w: World) {
    && (forall j :: Counted(w, j))
    && (forall j, t :: MutationsOk(w, j, t))
    && (forall t, p :: CallOnce(w, t, p))
  }

  ghost predicate WorkersOk(w: World) {
    && (forall t | t in w.workers :: WorkerOk(w, t))
    && (forall t :: TokenDrawn(w, t))
  }

  ghost predicate EventsOk(w: World, s: Settings) {
    forall e | e in w.events :: EventOk(w, s, e)
  }

  ghost predicate Inv(w: World, s: Settings) {
    RowsOk(w) && Fifo(w) && LedgerOk(w) && WorkersOk(w) && EventsOk(w, s)
  }

  lemma InitialInv(w: World, s: Settings)
    requires Initial(w, s) && s.maxAttempts >= 1
    ensures Inv(w, s)
  {
  }

  // ----- Preservation -----

  /** Nothing stored is lost, and finished jobs stay finished. */
  ghost predicate Grows(w: World, w': World) {
    && (forall m | m in w.messages :: m in w'.messages && w'.messages[m] == w.messages[m])
    && (forall j | j in w.jobs :: j in w'.jobs && w'.jobs[j].message == w.jobs[j].message
                                  && w'.jobs[j].conv == w.jobs[j].conv
                                  && (w.jobs[j].status == Completed ==> w'.jobs[j].status == Completed))
  }

  lemma CoveredStays(w: World, w': World, x: ExternalId)
    requires Grows(w, w') && Covered(w, x)
    ensures Covered(w', x)
  {
    var m, j :| HasMessage(w, x, m) && HasJob(w, m, j) && w.jobs[j].status == Completed;
    assert HasMessage(w', x, m) && HasJob(w', m, j);
  }

  lemma EventsKept(w: World, w': World, s: Settings)
    requires EventsOk(w, s) && Grows(w, w') && w'.events == w.events
    ensures EventsOk(w', s)
  {
    forall e | e in w'.events ensures EventOk(w', s, e) {
      assert EventOk(w, s, e);
      forall x | Covered(w, x) ensures Covered(w', x) { CoveredStays(w, w', x); }
    }
  }

  /** No job becomes active or finished unless everything before it is finished already. */
  lemma FifoKept(w: World, w': World)
    requires Fifo(w) && Grows(w, w') && w'.jobs.Keys == w.jobs.Keys
    requires forall k | k in w'.jobs && (Active(w'.jobs[k]) || w'.jobs[k].status == Completed) ::
               Active(w.jobs[k]) || w.jobs[k].status == Completed || Head(w, w.jobs[k].conv, k)
    ensures Fifo(w')
  {
    forall j, k ensures InOrder(w', j, k) { assert InOrder(w, j, k); }
  }

  /** Counts, workers and tokens are untouched and no job is finished. */
  lemma LedgerKept(w: World, w': World)
    requires LedgerOk(w) && WorkersOk(w)
    requires w'.hist == w.hist && w'.issued == w.issued && w'.opener == w.opener && w'.supply == w.supply
    requires forall t | t in w'.workers :: t in w.workers && w'.workers[t] == w.workers[t]
    requires w'.jobs.Keys == w.jobs.Keys
    requires forall j | j in w.jobs :: w'.jobs[j].conv == w.jobs[j].conv
                                       && (w'.jobs[j].status == Completed <==> w.jobs[j].status == Completed)
    ensures LedgerOk(w') && WorkersOk(w')
  {
    forall j ensures Counted(w', j) { assert Counted(w, j); }
    forall j, t ensures MutationsOk(w', j, t) { assert MutationsOk(w, j, t); }
    forall t, p ensures CallOnce(w', t, p) { assert CallOnce(w, t, p); }
    forall t | t in w'.workers ensures WorkerOk(w', t) { assert WorkerOk(w, t); }
    forall t ensures TokenDrawn(w', t) { assert TokenDrawn(w, t); }
  }

  /** One job is replaced by one with the same identity. */
  lemma OneJobRows(w: World, w': World, id: JobId)
    requires RowsOk(w) && id in w.jobs && id in w'.jobs
    requires w'.messages == w.messages && w'.convs.Keys == w.convs.Keys
    requires forall c | c in w.convs :: w'.convs[c].customer == w.convs[c].customer
    requires w'.jobs == w.jobs[id := w'.jobs[id]]
    requires w'.jobs[id].message == w.jobs[id].message && w'.jobs[id].conv == w.jobs[id].conv
    requires forall t | t in w.issued :: t in w'.issued && w'.issued[t] == w.issued[t]
    requires forall j | j != id :: (j in w'.opener <==> j in w.opener) && (j in w.opener ==> w'.opener[j] == w.opener[j])
    requires JobOk(w', id)
    ensures RowsOk(w')
  {
    forall m, n ensures OneMessage(w', m, n) { assert OneMessage(w, m, n); }
    forall j, k ensures OneJob(w', j, k) { assert OneJob(w, j, k); }
    forall m | m in w'.messages ensures MessageOk(w', m) { assert MessageOk(w, m); }
    forall j | j in w'.jobs ensures JobOk(w', j) { assert JobOk(w, j); }
  }

  // --- one job released ---

  /** A job given back without being finished; external work sends it to REVIEW. */
  predicate Released(j: Job, j': Job) {
    && j.status != Completed
    && j'.message == j.message && j'.conv == j.conv && j'.externalOp == j.externalOp && j'.token.None?
    && (j'.status == Pending || j'.status == Failed || j'.status == Review)
    && (j.externalOp ==> j'.status == Review)
  }

  lemma ReleasedRows(w: World, id: JobId, j': Job)
    requires RowsOk(w) && id in w.jobs && Released(w.jobs[id], j')
    ensures RowsOk(SetJob(w, id, j'))
  {
    assert JobOk(w, id);
    OneJobRows(w, SetJob(w, id, j'), id);
  }

  lemma ReleasedInv(w: World, s: Settings, id: JobId, j': Job)
    requires Inv(w, s) && id in w.jobs && Released(w.jobs[id], j')
    ensures Inv(SetJob(w, id, j'), s)
  {
    ReleasedRows(w, id, j');
    FifoKept(w, SetJob(w, id, j'));
    LedgerKept(w, SetJob(w, id, j'));
    EventsKept(w, SetJob(w, id, j'), s);
  }

  lemma FailLockedReleases(j: Job, cause: Cause, now: int, s: Settings)
    requires j.status != Completed
    ensures Released(j, FailLocked(j, cause, now, s)) && Released(j, CancelLocked(j))
  {
  }

  lemma ReapInv(w: World, s: Settings, id: JobId, now: int)
    requires Inv(w, s) && StaleClaim(w, s, id, now)
    ensures Inv(SetJob(w, id, FailLocked(w.jobs[id], ClaimExpired, now, s)), s)
  {
    FailLockedReleases(w.jobs[id], ClaimExpired, now, s);
    ReleasedInv(w, s, id, FailLocked(w.jobs[id], ClaimExpired, now, s));
  }

  // --- a worker moves or disappears ---

  lemma DropInv(w: World, s: Settings, token: Unique)
    requires Inv(w, s) && token in w.workers
    ensures Inv(Drop(w, token), s)
  {
    var w' := Drop(w, token);
    SameRows(w, w', s);
    LedgerKept(w, w');
  }

  lemma SameRows(w: World, w': World, s: Settings)
    requires RowsOk(w) && Fifo(w) && EventsOk(w, s)
    requires w'.messages == w.messages && w'.jobs == w.jobs && w'.events == w.events
    requires w'.convs == w.convs && w'.issued == w.issued && w'.opener == w.opener
    ensures RowsOk(w') && Fifo(w') && EventsOk(w', s)
  {
    forall m, n ensures OneMessage(w', m, n) { assert OneMessage(w, m, n); }
    forall j, k ensures OneJob(w', j, k) && InOrder(w', j, k) { assert OneJob(w, j, k) && InOrder(w, j, k); }
    forall m | m in w'.messages ensures MessageOk(w', m) { assert MessageOk(w, m); }
    forall j | j in w'.jobs ensures JobOk(w', j) { assert JobOk(w, j); }
    EventsKept(w, w', s);
  }

  lemma MoveInv(w: World, s: Settings, token: Unique, pc: Pc)
    requires Inv(w, s) && token in w.workers && !pc.Has?
    requires pc != Failing ==> !Answered(w.workers[token].pc)
    requires pc.MayCall? && Mutating(pc.call) ==>
               w.workers[token].job in w.opener && w.opener[w.workers[token].job] == token
    ensures Inv(MoveTo(w, token, pc), s)
  {
    var w' := MoveTo(w, token, pc);
    SameRows(w, w', s);
    forall j ensures Counted(w', j) { assert Counted(w, j); }
    forall j, t ensures MutationsOk(w', j, t) { assert MutationsOk(w, j, t); }
    forall t, p ensures CallOnce(w', t, p) { assert CallOnce(w, t, p); }
    forall t | t in w'.workers ensures WorkerOk(w', t) { assert WorkerOk(w, t); }
    forall t ensures TokenDrawn(w', t) { assert TokenDrawn(w, t); }
  }

  // --- claim ---

  lemma ClaimRows(w: World, conv: ConvId, id: JobId, now: int)
    requires RowsOk(w) && conv in w.convs && id in w.jobs && w.jobs[id].status == Pending
    requires TokenDrawn(w, w.supply)
    ensures RowsOk(DoClaim(w, conv, id, now))
  {
    assert JobOk(w, id);
    OneJobRows(w, DoClaim(w, conv, id, now), id);
  }

  lemma ClaimLedger(w: World, conv: ConvId, id: JobId, now: int)
    requires LedgerOk(w) && WorkersOk(w) && conv in w.convs && id in w.jobs
    requires w.jobs[id].status == Pending && w.jobs[id].conv == conv
    ensures LedgerOk(DoClaim(w, conv, id, now)) && WorkersOk(DoClaim(w, conv, id, now))
  {
    var w' := DoClaim(w, conv, id, now);
    assert TokenDrawn(w, w.supply);
    forall j ensures Counted(w', j) { assert Counted(w, j); }
    forall j, t ensures MutationsOk(w', j, t) { assert MutationsOk(w, j, t); }
    forall t, p ensures CallOnce(w', t, p) { assert CallOnce(w, t, p); }
    forall t | t in w'.workers ensures WorkerOk(w', t) { if t != w.supply { assert WorkerOk(w, t); } }
    forall t ensures TokenDrawn(w', t) { assert TokenDrawn(w, t); }
  }

  lemma ClaimInv(w: World, s: Settings, conv: ConvId, id: JobId, now: int)
    requires Inv(w, s) && conv in w.convs && Head(w, conv, id) && w.jobs[id].status == Pending
    ensures Inv(DoClaim(w, conv, id, now), s)
  {
    assert TokenDrawn(w, w.supply);
    ClaimRows(w, conv, id, now);
    FifoKept(w, DoClaim(w, conv, id, now));
    ClaimLedger(w, conv, id, now);
    EventsKept(w, DoClaim(w, conv, id, now), s);
  }

  // --- the committed turn ---

  lemma CommitRows(w: World, token: Unique, after: Context)
    requires RowsOk(w) && token in w.workers && Owns(w, token)
    ensures RowsOk(CommitTurn(w, token, after))
  {
    assert JobOk(w, w.workers[token].job);
    OneJobRows(w, CommitTurn(w, token, after), w.workers[token].job);
  }

  lemma CommitLedger(w: World, token: Unique, after: Context)
    requires LedgerOk(w) && WorkersOk(w) && token in w.workers && Owns(w, token)
    ensures LedgerOk(CommitTurn(w, token, after)) && WorkersOk(CommitTurn(w, token, after))
  {
    var w' := CommitTurn(w, token, after);
    forall j ensures Counted(w', j) { assert Counted(w, j); }
    forall j, t ensures MutationsOk(w', j, t) { assert MutationsOk(w, j, t); }
    forall t, p ensures CallOnce(w', t, p) { assert CallOnce(w, t, p); }
    forall t | t in w'.workers ensures WorkerOk(w', t) { assert WorkerOk(w, t); }
    forall t ensures TokenDrawn(w', t) { assert TokenDrawn(w, t); }
  }

  lemma CommitOrder(w: World, s: Settings, token: Unique, after: Context)
    requires Fifo(w) && EventsOk(w, s) && token in w.workers && Owns(w, token)
    ensures Fifo(CommitTurn(w, token, after)) && EventsOk(CommitTurn(w, token, after), s)
  {
    FifoKept(w, CommitTurn(w, token, after));
    EventsKept(w, CommitTurn(w, token, after), s);
  }

  lemma CommitInv(w: World, s: Settings, token: Unique, after: Context)
    requires Inv(w, s) && token in w.workers && Owns(w, token)
    ensures Inv(CommitTurn(w, token, after), s)
  {
    CommitRows(w, token, after);
    CommitLedger(w, token, after);
    CommitOrder(w, s, token, after);
  }

  lemma ApplyInv(w: World, s: Settings, token: Unique, plan: Plan, after: Context, now: int)
    requires Inv(w, s) && token in w.workers && w.workers[token].pc == Ready
    ensures Inv(DoApply(w, s, token, plan, after, now), s)
  {
    var k := w.workers[token];
    if !Owns(w, token) {
      DropInv(w, s, token);
    } else if !ContextKept(w, token) && w.jobs[k.job].externalOp {
      var j' := Retire(w.jobs[k.job], Review, ContextChangedAfterExternal);
      ReleasedInv(w, s, k.job, j');
      DropInv(SetJob(w, k.job, j'), s, token);
    } else if !ContextKept(w, token) && !Silent(w.convs[k.conv].ctx) {
      FailLockedReleases(w.jobs[k.job], ContextChangedReclassify, now, s);
      var j' := FailLocked(w.jobs[k.job], ContextChangedReclassify, now, s);
      ReleasedInv(w, s, k.job, j');
      DropInv(SetJob(w, k.job, j'), s, token);
    } else {
      match Attempt(plan, k.log, 0)
      case Commits(_) => CommitInv(w, s, token, after);
      case Defers(call) => MoveInv(w, s, token, Wants(call));
      case Raises => MoveInv(w, s, token, Failing);
    }
  }

  // --- external work ---

  function Opened(w: World, token: Unique): World
    requires token in w.workers && Owns(w, token)
  {
    var id := w.workers[token].job;
    SetJob(w, id, w.jobs[id].(status := External, externalOp := true)).(opener := w.opener[id := token])
  }

  lemma OpenRows(w: World, token: Unique)
    requires RowsOk(w) && token in w.workers && Owns(w, token)
    ensures RowsOk(Opened(w, token))
  {
    assert JobOk(w, w.workers[token].job);
    OneJobRows(w, Opened(w, token), w.workers[token].job);
  }

  lemma OpenLedger(w: World, token: Unique)
    requires LedgerOk(w) && WorkersOk(w) && token in w.workers && Owns(w, token)
    requires JobOk(w, w.workers[token].job)
    ensures LedgerOk(Opened(w, token)) && WorkersOk(Opened(w, token))
  {
    var w' := Opened(w, token);
    assert WorkerOk(w, token);
    forall j ensures Counted(w', j) { assert Counted(w, j); }
    forall j, t ensures MutationsOk(w', j, t) { assert MutationsOk(w, j, t); }
    forall t, p ensures CallOnce(w', t, p) { assert CallOnce(w, t, p); }
    forall t | t in w'.workers ensures WorkerOk(w', t) { assert WorkerOk(w, t); }
    forall t ensures TokenDrawn(w', t) { assert TokenDrawn(w, t); }
  }

  lemma OpenOrder(w: World, s: Settings, token: Unique)
    requires Fifo(w) && EventsOk(w, s) && token in w.workers && Owns(w, token)
    ensures Fifo(Opened(w, token)) && EventsOk(Opened(w, token), s)
  {
    FifoKept(w, Opened(w, token));
    EventsKept(w, Opened(w, token), s);
  }

  lemma OpenExternalInv(w: World, s: Settings, token: Unique)
    requires Inv(w, s) && token in w.workers && Owns(w, token)
    ensures Inv(Opened(w, token), s)
  {
    OpenRows(w, token);
    assert JobOk(w, w.workers[token].job);
    OpenLedger(w, token);
    OpenOrder(w, s, token);
  }

  lemma PrepareInv(w: World, s: Settings, token: Unique, call: Call, now: int)
    requires Inv(w, s) && token in w.workers && w.workers[token].pc.Wants?
    ensures Inv(DoPrepare(w, s, token, call, now), s)
  {
    var k := w.workers[token];
    if !Owns(w, token) {
      DropInv(w, s, token);
    } else if !ContextKept(w, token) {
      FailLockedReleases(w.jobs[k.job], ContextChangedReclassify, now, s);
      var j' := FailLocked(w.jobs[k.job], ContextChangedReclassify, now, s);
      ReleasedInv(w, s, k.job, j');
      DropInv(SetJob(w, k.job, j'), s, token);
    } else if Mutating(call) {
      OpenExternalInv(w, s, token);
      MoveInv(Opened(w, token), s, token, MayCall(call));
      assert DoPrepare(w, s, token, call, now) == MoveTo(Opened(w, token), token, MayCall(call));
    } else {
      MoveInv(w, s, token, MayCall(call));
    }
  }

  /** A call is made at the position the log has reached, where none was made before. */
  lemma CallInv(w: World, s: Settings, token: Unique, answer: Option<int>)
    requires Inv(w, s) && token in w.workers && w.workers[token].pc.MayCall?
    ensures Inv(DoCall(w, token, w.workers[token].pc.call, answer), s)
  {
    SameRows(w, DoCall(w, token, w.workers[token].pc.call, answer), s);
    CallLedger(w, token, answer);
  }

  lemma CallLedger(w: World, token: Unique, answer: Option<int>)
    requires LedgerOk(w) && WorkersOk(w) && token in w.workers && w.workers[token].pc.MayCall?
    ensures var w' := DoCall(w, token, w.workers[token].pc.call, answer); LedgerOk(w') && WorkersOk(w')
  {
    var w' := DoCall(w, token, w.workers[token].pc.call, answer);
    assert WorkerOk(w, token);
    forall j ensures Counted(w', j) { assert Counted(w, j); }
    forall j, t ensures MutationsOk(w', j, t) { assert MutationsOk(w, j, t); }
    forall t, p ensures CallOnce(w', t, p) { assert CallOnce(w, t, p); }
    forall t | t in w'.workers ensures WorkerOk(w', t) { assert WorkerOk(w, t); }
    forall t ensures TokenDrawn(w', t) { assert TokenDrawn(w, t); }
  }

  lemma RecordInv(w: World, s: Settings, token: Unique, call: Call, value: int)
    requires Inv(w, s) && token in w.workers && w.workers[token].pc == Has(call, value)
    requires |w.workers[token].log| < 12
    ensures Inv(DoRecord(w, token, call, value), s)
  {
    if Mutating(call) && !Owns(w, token) {
      DropInv(w, s, token);
    } else {
      var w' := DoRecord(w, token, call, value);
      assert WorkerOk(w, token);
      SameRows(w, w', s);
      forall j ensures Counted(w', j) { assert Counted(w, j); }
      forall j, t ensures MutationsOk(w', j, t) { assert MutationsOk(w, j, t); }
      forall t, p ensures CallOnce(w', t, p) { assert CallOnce(w, t, p); }
      forall t | t in w'.workers ensures WorkerOk(w', t) { assert WorkerOk(w, t); }
      forall t ensures TokenDrawn(w', t) { assert TokenDrawn(w, t); }
    }
  }

  lemma SettleFailureInv(w: World, s: Settings, token: Unique, now: int)
    requires Inv(w, s) && token in w.workers
    ensures Inv(DoSettleFailure(w, s, token, now), s) && Inv(DoCancel(w, token), s)
  {
    if !Owns(w, token) {
      DropInv(w, s, token);
    } else {
      var id := w.workers[token].job;
      FailLockedReleases(w.jobs[id], AttemptRaised, now, s);
      ReleasedInv(w, s, id, FailLocked(w.jobs[id], AttemptRaised, now, s));
      DropInv(SetJob(w, id, FailLocked(w.jobs[id], AttemptRaised, now, s)), s, token);
      ReleasedInv(w, s, id, CancelLocked(w.jobs[id]));
      DropInv(SetJob(w, id, CancelLocked(w.jobs[id])), s, token);
    }
  }

  // --- context and reset ---

  lemma ContextInv(w: World, s: Settings, conv: ConvId, ctx: Context)
    requires Inv(w, s) && conv in w.convs
    ensures Inv(w.(convs := w.convs[conv := w.convs[conv].(ctx := ctx)]), s)
  {
    var w' := w.(convs := w.convs[conv := w.convs[conv].(ctx := ctx)]);
    forall m, n ensures OneMessage(w', m, n) { assert OneMessage(w, m, n); }
    forall j, k ensures OneJob(w', j, k) && InOrder(w', j, k) { assert OneJob(w, j, k) && InOrder(w, j, k); }
    forall m | m in w'.messages ensures MessageOk(w', m) { assert MessageOk(w, m); }
    forall j | j in w'.jobs ensures JobOk(w', j) { assert JobOk(w, j); }
    LedgerKept(w, w');
    EventsKept(w, w', s);
  }

  lemma ResetCounts(w: World, phone: Phone, rest: int, j: JobId)
    requires Counted(w, j) && !BusyCustomer(w, phone)
    ensures Counted(DoReset(w, phone, rest), j)
  {
    var closed := ClosedJobs(w, phone);
    var marks := set k | k in closed :: ClosedByReset(k);
    assert ClosedByReset(j) in marks <==> j in closed;
    assert Applied(j) !in marks;
  }

  lemma ResetRows(w: World, phone: Phone, rest: int)
    requires RowsOk(w) && !BusyCustomer(w, phone)
    ensures RowsOk(DoReset(w, phone, rest))
  {
    var w' := DoReset(w, phone, rest);
    forall m, n ensures OneMessage(w', m, n) { assert OneMessage(w, m, n); }
    forall j, k ensures OneJob(w', j, k) { assert OneJob(w, j, k); }
    forall m | m in w'.messages ensures MessageOk(w', m) { assert MessageOk(w, m); }
    forall j | j in w'.jobs ensures JobOk(w', j) { assert JobOk(w, j); }
  }

  /** A reset finishes whole conversations, so it keeps their order. */
  lemma ResetFifo(w: World, phone: Phone, rest: int)
    requires RowsOk(w) && Fifo(w) && !BusyCustomer(w, phone)
    ensures Fifo(DoReset(w, phone, rest))
  {
    var w' := DoReset(w, phone, rest);
    forall j, k ensures InOrder(w', j, k) {
      assert InOrder(w, j, k);
      if j in w.jobs && k in w.jobs { assert JobOk(w, j) && JobOk(w, k); }
      if k in ClosedJobs(w, phone) && j in w.jobs && w.jobs[j].conv == w.jobs[k].conv {
        assert OfCustomer(w, phone, j);
      }
    }
  }

  lemma ResetInv(w: World, s: Settings, phone: Phone, rest: int)
    requires Inv(w, s)
    ensures Inv(DoReset(w, phone, rest), s)
  {
    if !BusyCustomer(w, phone) {
      ResetRows(w, phone, rest);
      ResetFifo(w, phone, rest);
      ResetLedger(w, phone, rest);
      EventsKept(w, DoReset(w, phone, rest), s);
    }
  }

  lemma ResetLedger(w: World, phone: Phone, rest: int)
    requires LedgerOk(w) && WorkersOk(w) && !BusyCustomer(w, phone)
    ensures LedgerOk(DoReset(w, phone, rest)) && WorkersOk(DoReset(w, phone, rest))
  {
    var w' := DoReset(w, phone, rest);
    var marks := set k | k in ClosedJobs(w, phone) :: ClosedByReset(k);
    forall j ensures Counted(w', j) { assert Counted(w, j); ResetCounts(w, phone, rest, j); }
    forall j, t ensures MutationsOk(w', j, t) { assert MutationsOk(w, j, t); assert Mutated(j, t) !in marks; }
    forall t, p ensures CallOnce(w', t, p) { assert CallOnce(w, t, p); assert Called(t, p) !in marks; }
    forall t | t in w'.workers ensures WorkerOk(w', t) { assert WorkerOk(w, t); }
    forall t ensures TokenDrawn(w', t) { assert TokenDrawn(w, t); }
  }

  // --- intake ---

  /** Intake leaves workers and the ledger alone, and only adds rows. */
  ghost predicate Adds(w: World, w': World) {
    && w'.supply == w.supply && w'.workers == w.workers && w'.issued == w.issued
    && w'.opener == w.opener && w'.hist == w.hist
    && (forall m | m in w.messages :: m in w'.messages && w'.messages[m] == w.messages[m])
    && (forall c | c in w.convs :: c in w'.convs && w'.convs[c] == w.convs[c])
    && (forall j | j in w.jobs :: j in w'.jobs && w'.jobs[j] == w.jobs[j])
  }

  ghost predicate OnlyAdds(w: World, w': World) {
    Adds(w, w') && w'.events == w.events
  }

  predicate Inserted(job: Job) {
    job == NewJob(job.message, job.conv) || job == LegacyJob(job.message, job.conv)
  }

  lemma NewJobRows(w: World, id: JobId, job: Job)
    requires RowsOk(w) && Fifo(w) && id !in w.jobs && id !in w.opener && Inserted(job)
    requires job.message in w.messages && w.messages[job.message].conv == job.conv
    requires forall j | j in w.jobs :: w.jobs[j].message != job.message
    requires forall j | j in w.jobs && w.jobs[j].conv == job.conv :: j < id
    ensures RowsOk(SetJob(w, id, job)) && Fifo(SetJob(w, id, job))
  {
    var w' := SetJob(w, id, job);
    assert MessageOk(w, job.message);
    forall m, n ensures OneMessage(w', m, n) { assert OneMessage(w, m, n); }
    forall j, k ensures OneJob(w', j, k) && InOrder(w', j, k) { assert OneJob(w, j, k) && InOrder(w, j, k); }
    forall m | m in w'.messages ensures MessageOk(w', m) { assert MessageOk(w, m); }
    forall j | j in w'.jobs ensures JobOk(w', j) { if j != id { assert JobOk(w, j); } }
  }

  lemma NewJobLedger(w: World, id: JobId, job: Job)
    requires LedgerOk(w) && WorkersOk(w) && id !in w.jobs && Inserted(job)
    ensures LedgerOk(SetJob(w, id, job)) && WorkersOk(SetJob(w, id, job))
  {
    var w' := SetJob(w, id, job);
    forall j ensures Counted(w', j) { assert Counted(w, j); }
    forall j, t ensures MutationsOk(w', j, t) { assert MutationsOk(w, j, t); }
    forall t, p ensures CallOnce(w', t, p) { assert CallOnce(w, t, p); }
    forall t | t in w'.workers ensures WorkerOk(w', t) { assert WorkerOk(w, t); }
    forall t ensures TokenDrawn(w', t) { assert TokenDrawn(w, t); }
  }

  /** A job inserted for a message that has none, after every job of its conversation. */
  lemma NewJobInv(w: World, s: Settings, id: JobId, job: Job)
    requires Inv(w, s) && id !in w.jobs && id !in w.opener && Inserted(job)
    requires job.message in w.messages && w.messages[job.message].conv == job.conv
    requires forall j | j in w.jobs :: w.jobs[j].message != job.message
    requires forall j | j in w.jobs && w.jobs[j].conv == job.conv :: j < id
    ensures Inv(SetJob(w, id, job), s)
  {
    NewJobRows(w, id, job);
    NewJobLedger(w, id, job);
    EventsKept(w, SetJob(w, id, job), s);
  }

  /** A conversation and a message inserted with ids of their own. */
  lemma NewMessageInv(w: World, w': World, s: Settings, m: MsgId)
    requires Inv(w, s) && m !in w.messages && m in w'.messages
    requires w' == w.(convs := w'.convs, messages := w.messages[m := w'.messages[m]])
    requires forall c | c in w.convs :: c in w'.convs && w'.convs[c] == w.convs[c]
    requires forall n | n in w.messages :: w.messages[n].external != w'.messages[m].external
    requires MessageOk(w', m)
    ensures Inv(w', s)
  {
    forall a, b ensures OneMessage(w', a, b) { assert OneMessage(w, a, b); }
    forall j, k ensures OneJob(w', j, k) && InOrder(w', j, k) { assert OneJob(w, j, k) && InOrder(w, j, k); }
    forall n | n in w'.messages ensures MessageOk(w', n) { if n != m { assert MessageOk(w, n); } }
    forall j | j in w'.jobs ensures JobOk(w', j) { assert JobOk(w, j); }
    LedgerKept(w, w');
    EventsKept(w, w', s);
  }

  lemma OutboundInv(w: World, s: Settings, msg: MsgId, external: ExternalId, conv: ConvId)
    requires Inv(w, s) && msg !in w.messages && conv in w.convs && forall m :: !HasMessage(w, external, m)
    ensures Inv(DoRecordOutbound(w, msg, external, conv), s)
  {
    forall n | n in w.messages ensures w.messages[n].external != external { assert !HasMessage(w, external, n); }
    NewMessageInv(w, DoRecordOutbound(w, msg, external, conv), s, msg);
  }

  /** The existing message of a redelivered external id, and its job if it has one. */
  lemma RedeliveryInv(w: World, s: Settings, item: Incoming, pick: Pick, m: MsgId)
    requires Inv(w, s) && PickOk(w, item, pick) && HasMessage(w, item.external, m)
    requires w.messages[m].customer == item.phone && forall j :: !HasJob(w, m, j)
    ensures Inv(w.(jobs := w.jobs[pick.job := LegacyJob(m, w.messages[m].conv)]), s)
  {
    assert MessageOk(w, m);
    forall j | j in w.jobs ensures w.jobs[j].message != m { assert !HasJob(w, m, j); }
    forall j | j in w.jobs && w.jobs[j].conv == w.messages[m].conv ensures j < pick.job { assert JobOk(w, j); }
    NewJobInv(w, s, pick.job, LegacyJob(m, w.messages[m].conv));
  }

  lemma InsertInv(w: World, w1: World, s: Settings, item: Incoming, pick: Pick, conv: ConvId)
    requires Inv(w, s) && PickOk(w, item, pick) && forall m :: !HasMessage(w, item.external, m)
    requires w1 == w || w1 == w.(convs := w.convs[pick.conv := Conv(item.phone, pick.ctx)])
    requires conv in w1.convs && w1.convs[conv].customer == item.phone
    ensures Inv(InsertMessage(w1, item, pick, conv), s)
  {
    var w2 := w1.(messages := w.messages[pick.msg := Message(item.external, conv, item.phone, true)]);
    forall n | n in w.messages ensures w.messages[n].external != item.external {
      assert !HasMessage(w, item.external, n);
    }
    NewMessageInv(w, w2, s, pick.msg);
    forall j | j in w2.jobs ensures w2.jobs[j].message != pick.msg { assert JobOk(w, j); }
    forall j | j in w2.jobs && w2.jobs[j].conv == conv ensures j < pick.job { assert JobOk(w, j); }
    NewJobInv(w2, s, pick.job, NewJob(pick.msg, conv));
    assert InsertMessage(w1, item, pick, conv) == SetJob(w2, pick.job, NewJob(pick.msg, conv));
  }

  /** The message of a redelivered external id is unique, so the choice of it is no choice. */
  lemma KnownInv(w: World, s: Settings, item: Incoming, pick: Pick, m: MsgId)
    requires Inv(w, s) && PickOk(w, item, pick) && HasMessage(w, item.external, m) && !pick.staff
    requires PersistOne(w, item, pick).Some?
    ensures Inv(PersistOne(w, item, pick).value, s)
  {
    forall n | HasMessage(w, item.external, n) ensures m == n { assert OneMessage(w, m, n); }
    if !(exists j :: HasJob(w, m, j)) {
      RedeliveryInv(w, s, item, pick, m);
    }
  }

  lemma OpenConversationInv(w: World, s: Settings, item: Incoming, pick: Pick, c: ConvId)
    requires Inv(w, s) && PickOk(w, item, pick) && forall m :: !HasMessage(w, item.external, m)
    requires NewestActive(w, item.phone, c) && !pick.staff
    ensures PersistOne(w, item, pick) == Some(InsertMessage(w, item, pick, c))
    ensures Inv(InsertMessage(w, item, pick, c), s)
  {
    InsertInv(w, w, s, item, pick, c);
    forall d | NewestActive(w, item.phone, d) ensures d == c { }
  }

  lemma PersistOneInv(w: World, s: Settings, item: Incoming, pick: Pick)
    requires Inv(w, s) && PickOk(w, item, pick) && PersistOne(w, item, pick).Some?
    ensures Inv(PersistOne(w, item, pick).value, s)
  {
    if pick.staff {
    } else if exists m :: HasMessage(w, item.external, m) {
      var m :| HasMessage(w, item.external, m);
      KnownInv(w, s, item, pick, m);
    } else if exists c :: NewestActive(w, item.phone, c) {
      var c :| NewestActive(w, item.phone, c);
      OpenConversationInv(w, s, item, pick, c);
    } else {
      var w1 := w.(convs := w.convs[pick.conv := Conv(item.phone, pick.ctx)]);
      InsertInv(w, w1, s, item, pick, pick.conv);
    }
  }

  lemma PersistOneAdds(w: World, item: Incoming, pick: Pick)
    requires PickOk(w, item, pick) && PersistOne(w, item, pick).Some?
    ensures OnlyAdds(w, PersistOne(w, item, pick).value)
  {
    if !pick.staff && !(exists m :: HasMessage(w, item.external, m)) {
      if exists c :: NewestActive(w, item.phone, c) {
        var c :| NewestActive(w, item.phone, c) && PersistOne(w, item, pick) == Some(InsertMessage(w, item, pick, c));
        InsertAdds(w, w, item, pick, c);
      } else {
        InsertAdds(w, w.(convs := w.convs[pick.conv := Conv(item.phone, pick.ctx)]), item, pick, pick.conv);
      }
    }
  }

  lemma InsertAdds(w: World, w1: World, item: Incoming, pick: Pick, conv: ConvId)
    requires PickOk(w, item, pick)
    requires w1 == w || w1 == w.(convs := w.convs[pick.conv := Conv(item.phone, pick.ctx)])
    ensures OnlyAdds(w, InsertMessage(w1, item, pick, conv))
  {
  }

  lemma {:induction false} PersistAllInv(w: World, s: Settings, items: seq<Incoming>, picks: seq<Pick>)
    requires Inv(w, s) && |picks| == |items| && PicksOk(w, items, picks) && PersistAll(w, items, picks).Some?
    ensures Inv(PersistAll(w, items, picks).value, s)
    decreases |items|
  {
    if items != [] {
      PersistOneInv(w, s, items[0], picks[0]);
      PersistAllInv(PersistOne(w, items[0], picks[0]).value, s, items[1..], picks[1..]);
    }
  }

  lemma {:induction false} PersistAllAdds(w: World, items: seq<Incoming>, picks: seq<Pick>)
    requires |picks| == |items| && PicksOk(w, items, picks) && PersistAll(w, items, picks).Some?
    ensures OnlyAdds(w, PersistAll(w, items, picks).value)
    decreases |items|
  {
    if items != [] {
      PersistOneAdds(w, items[0], picks[0]);
      PersistAllAdds(PersistOne(w, items[0], picks[0]).value, items[1..], picks[1..]);
    }
  }

  // --- events ---

  lemma SetEventInv(w: World, s: Settings, id: EventId, e: Event)
    requires Inv(w, s) && EventOk(SetEvent(w, id, e), s, id)
    ensures Inv(SetEvent(w, id, e), s)
  {
    var w' := SetEvent(w, id, e);
    ManyEventsInv(w, w', s);
  }

  /** Only events change, each to an acceptable one or not at all. */
  lemma ManyEventsInv(w: World, w': World, s: Settings)
    requires Inv(w, s) && w' == w.(events := w'.events)
    requires forall e | e in w'.events :: EventOk(w', s, e) || (e in w.events && w'.events[e] == w.events[e])
    ensures Inv(w', s)
  {
    forall m, n ensures OneMessage(w', m, n) { assert OneMessage(w, m, n); }
    forall j, k ensures OneJob(w', j, k) && InOrder(w', j, k) { assert OneJob(w, j, k) && InOrder(w, j, k); }
    forall m | m in w'.messages ensures MessageOk(w', m) { assert MessageOk(w, m); }
    forall j | j in w'.jobs ensures JobOk(w', j) { assert JobOk(w, j); }
    LedgerKept(w, w');
    forall e | e in w'.events ensures EventOk(w', s, e) {
      if e in w.events && w'.events[e] == w.events[e] {
        assert EventOk(w, s, e);
        forall x | Covered(w, x) ensures Covered(w', x) { CoveredStays(w, w', x); }
      }
    }
  }

  lemma ExpandInv(w: World, s: Settings, id: EventId, now: int, picks: seq<Pick>, fault: bool)
    requires Inv(w, s) && id in w.events && |picks| == |w.events[id].payload|
    requires PicksOk(w, w.events[id].payload, picks)
    ensures Inv(DoExpand(w, s, id, now, picks, fault), s)
  {
    var e := w.events[id];
    assert EventOk(w, s, id);
    if e.status == Processed || e.status == Exhausted || e.status == EventReview {
    } else if !e.versionTwo {
      SetEventInv(w, s, id, e.(status := EventReview));
    } else if e.status == Prepared || !Due(e.nextAttempt, now) {
    } else {
      var persisted := if fault then None else PersistAll(w, e.payload, picks);
      match persisted
      case None => SetEventInv(w, s, id, FailedIngest(e, now, s));
      case Some(w1) =>
        PersistAllInv(w, s, e.payload, picks);
        PersistAllAdds(w, e.payload, picks);
        SetEventInv(w1, s, id, e.(status := Prepared, nextAttempt := None));
    }
  }

  /** As many jobs as distinct ids, and no two jobs for one id: every id has its job. */
  lemma EveryIdHasItsJob(w: World, ids: set<ExternalId>)
    requires RowsOk(w) && |JobsOf(w, ids)| == |ids|
    ensures forall x | x in ids :: exists j :: j in JobsOf(w, ids) && w.messages[w.jobs[j].message].external == x
  {
    var jobs := JobsOf(w, ids);
    var found := set j | j in jobs :: w.messages[w.jobs[j].message].external;
    forall j, k | j in jobs && k in jobs
                  && w.messages[w.jobs[j].message].external == w.messages[w.jobs[k].message].external
      ensures j == k
    {
      assert OneMessage(w, w.jobs[j].message, w.jobs[k].message) && OneJob(w, j, k);
    }
    ImageSize(w, jobs);
    assert found <= ids;
    SameSizeSubset(found, ids);
  }

  lemma {:induction false} ImageSize(w: World, jobs: set<JobId>)
    requires forall j | j in jobs :: j in w.jobs && w.jobs[j].message in w.messages
    requires forall j, k | j in jobs && k in jobs
                           && w.messages[w.jobs[j].message].external == w.messages[w.jobs[k].message].external :: j == k
    ensures |set j | j in jobs :: w.messages[w.jobs[j].message].external| == |jobs|
    decreases jobs
  {
    var image := set j | j in jobs :: w.messages[w.jobs[j].message].external;
    if jobs == {} {
      assert image == {};
    } else {
      var k :| k in jobs;
      var rest := jobs - {k};
      ImageSize(w, rest);
      assert image == (set j | j in rest :: w.messages[w.jobs[j].message].external)
                      + {w.messages[w.jobs[k].message].external};
    }
  }

  lemma SameSizeSubset<T>(a: set<T>, b: set<T>)
    requires a <= b && |a| == |b|
    ensures a == b
  {
    if a != b {
      var x :| x in b && x !in a;
      assert a + {x} <= b;
      SubsetSize(a + {x}, b);
    }
  }

  lemma {:induction false} SubsetSize<T>(a: set<T>, b: set<T>)
    requires a <= b
    ensures |a| <= |b|
    decreases a
  {
    if a != {} {
      var x :| x in a;
      SubsetSize(a - {x}, b - {x});
    }
  }

  lemma ProcessedIsCovered(w: World, e: Event)
    requires RowsOk(w) && RefreshedStatus(w, e) == Processed
    ensures forall x | x in Externals(e.payload) :: Covered(w, x)
  {
    var ids := Externals(e.payload);
    EveryIdHasItsJob(w, ids);
    forall x | x in ids ensures Covered(w, x) {
      var j :| j in JobsOf(w, ids) && w.messages[w.jobs[j].message].external == x;
      assert HasMessage(w, x, w.jobs[j].message) && HasJob(w, w.jobs[j].message, j);
    }
  }

  lemma RefreshInv(w: World, s: Settings, id: EventId)
    requires Inv(w, s) && id in w.events
    ensures Inv(DoRefresh(w, id), s)
  {
    var e := w.events[id];
    assert EventOk(w, s, id);
    if e.status == Prepared {
      var e' := e.(status := RefreshedStatus(w, e));
      var w' := SetEvent(w, id, e');
      if e'.status == Processed {
        ProcessedIsCovered(w, e);
        forall x | Covered(w, x) ensures Covered(w', x) { CoveredStays(w, w', x); }
      }
      SetEventInv(w, s, id, e');
    }
  }

  lemma RetryInv(w: World, s: Settings, id: JobId)
    requires Inv(w, s) && CanRetry(w, id) && w.jobs[id].message in w.messages
    ensures Inv(DoRetry(w, id), s)
  {
    var j' := Retire(w.jobs[id], Pending, NoCause).(attempts := 0);
    ReleasedInv(w, s, id, j');
    var w1 := SetJob(w, id, j');
    var w' := DoRetry(w, id);
    forall e | e in w'.events ensures EventOk(w', s, e) || (e in w1.events && w'.events[e] == w1.events[e]) {
      assert EventOk(w1, s, e);
    }
    ManyEventsInv(w1, w', s);
  }

  // --- every step ---

  lemma StepInv(w: World, s: Settings, step: Step)
    requires Inv(w, s) && s.maxAttempts >= 1 && Enabled(w, s, step)
    ensures Inv(Next(w, s, step), s)
  {
    match step
    case Store(id, payload) => SetEventInv(w, s, id, Event(payload, Received, true, 0, None));
    case Expand(id, now, picks, fault) => ExpandInv(w, s, id, now, picks, fault);
    case RecordOutbound(msg, external, conv) => OutboundInv(w, s, msg, external, conv);
    case Refresh(id) => RefreshInv(w, s, id);
    case Adopt(id) =>
      assert EventOk(w, s, id);
      SetEventInv(w, s, id, w.events[id].(versionTwo := true, status := Received, nextAttempt := None));
    case ChangeContext(conv, ctx) => ContextInv(w, s, conv, ctx);
    case Reset(phone, rest) => ResetInv(w, s, phone, rest);
    case Claim(conv, job, now, only) => ClaimInv(w, s, conv, job, now);
    case Reap(job, now) => ReapInv(w, s, job, now);
    case Apply(token, plan, after, now) => ApplyInv(w, s, token, plan, after, now);
    case Prepare(token, now) => PrepareInv(w, s, token, w.workers[token].pc.call, now);
    case CallAgenda(token, answer) => CallInv(w, s, token, answer);
    case Record(token) =>
      assert WorkerOk(w, token);
      RecordInv(w, s, token, w.workers[token].pc.call, w.workers[token].pc.value);
    case Raise(token) => MoveInv(w, s, token, Failing);
    case SettleFailure(token, now) => SettleFailureInv(w, s, token, now);
    case Cancel(token) => SettleFailureInv(w, s, token, 0);
    case Crash(token) => DropInv(w, s, token);
    case RetryJob(job) => RetryInv(w, s, job);
  }
}
