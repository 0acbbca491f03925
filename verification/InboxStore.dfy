/** Inbox jobs as the objects the worker updates in place. */
module InboxStore {
  import opened Common
  import opened Inbox
  import Protocol = InboxProtocol

  class JobRow {
    const message: MsgId
    const conv: ConvId
    const origin: JobOrigin
    var status: JobStatus
    var attempts: nat
    var token: Option<Unique>
    var claimedAt: Option<int>
    var nextAttempt: Option<int>
    var externalOp: bool
    var cause: Cause

    function Value(): Job
      reads this
    {
      Job(message, conv, status, origin, attempts, token, claimedAt, nextAttempt, externalOp, cause)
    }

    method Retire(result: JobStatus, why: Cause)
      modifies this
      ensures Value() == Inbox.Retire(old(Value()), result, why)
    {
      status := result;
      token, claimedAt, nextAttempt := None, None, None;
      cause := why;
    }

    method FailLocked(why: Cause, now: int, s: Settings)
      modifies this
      ensures Value() == Inbox.FailLocked(old(Value()), why, now, s)
      ensures attempts == old(attempts) + 1 && token.None? && claimedAt.None?
      ensures status == if externalOp then Review else if attempts >= s.maxAttempts then Failed else Pending
      ensures status == Pending && s.maxBackoff > 0 ==>
                nextAttempt.Some? && now < nextAttempt.value <= now + s.maxBackoff
    {
      if !externalOp {
        var delay := FailureOutcome(Value(), why, now, s);
      }
      attempts := attempts + 1;
      if externalOp {
        Retire(Review, OutcomeUncertain);
      } else if attempts >= s.maxAttempts {
        Retire(Failed, why);
      } else {
        Retire(Pending, why);
        nextAttempt := Some(now + Backoff(attempts, s.maxBackoff));
      }
    }

    /** One candidate of recover_stale_inbox; afterwards the job is not an expired claim. */
    method Reap(now: int, s: Settings) returns (failed: bool)
      modifies this
      ensures failed <==> Expired(old(Value()), now, s)
      ensures Value() == if failed then Inbox.FailLocked(old(Value()), ClaimExpired, now, s) else old(Value())
      ensures !Expired(Value(), now, s)
    {
      failed := (status == Processing || status == External) && claimedAt.Some?
                && claimedAt.value < now - s.claimTimeout;
      if failed {
        FailLocked(ClaimExpired, now, s);
      }
    }

    /** The cancellation branch of process_claimed_inbox. */
    method Cancel()
      modifies this
      ensures Value() == CancelLocked(old(Value()))
    {
      Retire(if externalOp then Review else Pending, if externalOp then OutcomeUncertain else Cancelled);
    }
  }

  /** The claims a reaper pass fails: expired, and not held by another transaction. */
  predicate Reapable(job: Job, locked: set<ConvId>, now: int, s: Settings) {
    Expired(job, now, s) && job.conv !in locked
  }

  function ReapableCount(jobs: map<JobId, Job>, ids: seq<JobId>, locked: set<ConvId>, now: int, s: Settings): nat
    requires forall id | id in ids :: id in jobs
  {
    if ids == [] then 0
    else
      var last := ids[|ids|-1];
      assert last in ids;
      ReapableCount(jobs, ids[..|ids|-1], locked, now, s) + (if Reapable(jobs[last], locked, now, s) then 1 else 0)
  }

  /** The jobs after a reaper pass. */
  function ReapedJobs(jobs: map<JobId, Job>, ids: seq<JobId>, locked: set<ConvId>, now: int, s: Settings): map<JobId, Job> {
    map id | id in jobs ::
      if id in ids && Reapable(jobs[id], locked, now, s) then FailLocked(jobs[id], ClaimExpired, now, s) else jobs[id]
  }

  /** One candidate further. */
  lemma ReapedStep(jobs: map<JobId, Job>, ids: seq<JobId>, locked: set<ConvId>, now: int, s: Settings, n: nat)
    requires n < |ids| && ids[n] in jobs && ids[n] !in ids[..n] && forall id | id in ids[..n] :: id in jobs
    ensures var id := ids[n];
            && (forall k | k in ids[..n+1] :: k in jobs)
            && ReapedJobs(jobs, ids[..n+1], locked, now, s)
               == (if Reapable(jobs[id], locked, now, s)
                   then ReapedJobs(jobs, ids[..n], locked, now, s)[id := FailLocked(jobs[id], ClaimExpired, now, s)]
                   else ReapedJobs(jobs, ids[..n], locked, now, s))
            && ReapableCount(jobs, ids[..n+1], locked, now, s)
               == ReapableCount(jobs, ids[..n], locked, now, s)
                  + (if Reapable(jobs[id], locked, now, s) then 1 else 0)
  {
    assert ids[..n+1] == ids[..n] + [ids[n]] && ids[..n+1][..n] == ids[..n];
  }

  datatype ClaimOf = ClaimOf(job: JobId, token: Unique)

  class JobTable {
    var jobs: map<JobId, JobRow>
    var supply: Unique

    ghost predicate Valid()
      reads this
    {
      forall a, b | a in jobs && b in jobs && jobs[a] == jobs[b] :: a == b
    }

    function Snapshot(): map<JobId, Job>
      reads this, jobs.Values
    {
      map id | id in jobs :: jobs[id].Value()
    }

    twostate lemma OneJobChanged(id: JobId)
      requires old(Valid()) && jobs == old(jobs) && id in jobs
      requires forall o | o in jobs.Values && o != jobs[id] :: o.Value() == old(o.Value())
      ensures Snapshot() == old(Snapshot())[id := jobs[id].Value()]
    {
      forall other | other in jobs && other != id
        ensures Snapshot()[other] == old(Snapshot())[other]
      {
        assert jobs[other] in jobs.Values;
      }
    }

    method ReapOne(id: JobId, now: int, s: Settings) returns (failed: bool)
      requires Valid() && id in jobs
      modifies jobs[id]
      ensures Valid() && jobs == old(jobs) && (failed <==> Expired(old(Snapshot())[id], now, s))
      ensures Snapshot() == if failed then old(Snapshot())[id := FailLocked(old(Snapshot())[id], ClaimExpired, now, s)]
                            else old(Snapshot())
    {
      failed := jobs[id].Reap(now, s);
      OneJobChanged(id);
      assert old(Snapshot())[id := old(Snapshot())[id]] == old(Snapshot());
    }

    /** recover_stale_inbox over its candidates. `locked` are the conversations that, when their turn comes,
        another transaction holds: their claims are passed over. All other claims still expired are failed. */
    method RecoverStale(candidates: seq<JobId>, locked: set<ConvId>, now: int, s: Settings) returns (recovered: nat)
      requires Valid() && forall id | id in candidates :: id in jobs
      requires forall i, k | 0 <= i < k < |candidates| :: candidates[i] != candidates[k]
      modifies jobs.Values
      ensures jobs == old(jobs) && recovered == ReapableCount(old(Snapshot()), candidates, locked, now, s)
      ensures Snapshot() == ReapedJobs(old(Snapshot()), candidates, locked, now, s)
      ensures forall id | id in candidates && Expired(Snapshot()[id], now, s) :: Snapshot()[id].conv in locked
    {
      recovered := 0;
      ghost var start := Snapshot();
      forall k | 0 <= k < |candidates| ensures candidates[k] in start { assert candidates[k] in candidates; }
      for i := 0 to |candidates|
        invariant Valid() && jobs == old(jobs) && (forall id | id in candidates[..i] :: id in start)
        invariant recovered == ReapableCount(start, candidates[..i], locked, now, s)
        invariant Snapshot() == ReapedJobs(start, candidates[..i], locked, now, s)
      {
        ReapedStep(start, candidates, locked, now, s, i);
        assert Snapshot()[candidates[i]] == start[candidates[i]];
        if jobs[candidates[i]].conv in locked {
          continue;
        }
        var failed := ReapOne(candidates[i], now, s);
        if failed {
          recovered := recovered + 1;
        }
      }
      assert candidates[..|candidates|] == candidates;
      forall id | id in candidates && Expired(Snapshot()[id], now, s) ensures Snapshot()[id].conv in locked { }
    }

    /** The unfinished job of a conversation with the least id. */
    method EarliestUnfinished(conv: ConvId) returns (head: Option<JobId>)
      ensures head.Some? ==> HeadOf(Snapshot(), conv, head.value)
      ensures head.None? ==> forall id :: !HeadOf(Snapshot(), conv, id)
    {
      head := None;
      var todo := jobs.Keys;
      while todo != {}
        invariant todo <= jobs.Keys
        invariant head.Some? ==> head.value in jobs && jobs[head.value].conv == conv
                                 && jobs[head.value].status != Completed
        invariant forall id | id in jobs && id !in todo && jobs[id].conv == conv && jobs[id].status != Completed ::
                    head.Some? && head.value <= id
        decreases |todo|
      {
        var id :| id in todo;
        todo := todo - {id};
        if jobs[id].conv == conv && jobs[id].status != Completed && (head.None? || id < head.value) {
          head := Some(id);
        }
      }
    }

    /** One transaction of claim_inbox_batch: the conversation's head is claimed if it is offered, and
        nothing changes otherwise. */
    method ClaimHead(conv: ConvId, now: int, only: Option<set<MsgId>>) returns (claim: Option<ClaimOf>)
      requires Valid()
      modifies this`supply, jobs.Values
      ensures Valid() && jobs == old(jobs)
      ensures claim.None? ==> Snapshot() == old(Snapshot()) && supply == old(supply)
                              && forall id :: !Offered(Snapshot(), conv, id, now, only)
      ensures claim.Some? ==>
                && Offered(old(Snapshot()), conv, claim.value.job, now, only)
                && claim.value.token == old(supply) && supply == old(supply) + 1
                && Snapshot() == old(Snapshot())[claim.value.job :=
                     Claimed(old(Snapshot())[claim.value.job], old(supply), now)]
    {
      var head := EarliestUnfinished(conv);
      if head.None? {
        return None;
      }
      var job := jobs[head.value];
      if job.status != Pending || !Due(job.nextAttempt, now) || (only.Some? && job.message !in only.value) {
        return None;
      }
      job.status := Processing;
      job.token := Some(supply);
      job.claimedAt := Some(now);
      supply := supply + 1;
      OneJobChanged(head.value);
      return Some(ClaimOf(head.value, supply - 1));
    }

    /** claim_inbox_batch over its candidate conversations. Those in `locked` are held by another transaction
        when their turn comes, and are passed over. */
    method ClaimBatch(candidates: seq<ConvId>, locked: set<ConvId>, now: int, only: Option<set<MsgId>>)
      returns (claims: seq<ClaimOf>)
      requires Valid() && InOrder(Snapshot())
      modifies this`supply, jobs.Values
      ensures Valid() && jobs == old(jobs) && supply == old(supply) + |claims|
      ensures Claiming(old(Snapshot()), Snapshot(), claims, old(supply), Reachable(candidates, locked), now, only)
      ensures forall c | c in candidates && c !in locked :: NothingOffered(Snapshot(), c, now, only)
    {
      claims := [];
      ghost var start := Snapshot();
      ghost var convs := Reachable(candidates, locked);
      ClaimingNothing(start, supply, convs, now, only);
      for n := 0 to |candidates|
        invariant Valid() && jobs == old(jobs) && supply == old(supply) + |claims|
        invariant Claiming(start, Snapshot(), claims, old(supply), convs, now, only)
        invariant forall k | 0 <= k < n && candidates[k] !in locked :: NothingOffered(Snapshot(), candidates[k], now, only)
      {
        if candidates[n] in locked {
          continue;
        }
        ghost var before := Snapshot();
        var claim := ClaimHead(candidates[n], now, only);
        if claim.Some? {
          assert Offered(before, candidates[n], claim.value.job, now, only);
          ClaimStep(start, before, claims, old(supply), convs, now, only, candidates[n], claim.value);
          claims := claims + [claim.value];
        }
      }
    }
  }

  // ----- Values -----

  /** Every job before an active or finished one of the same conversation is finished. */
  predicate InOrder(jobs: map<JobId, Job>) {
    forall j, k | j in jobs && k in jobs && j < k && jobs[j].conv == jobs[k].conv
                  && (Active(jobs[k]) || jobs[k].status == Completed) :: jobs[j].status == Completed
  }

  ghost predicate NothingOffered(jobs: map<JobId, Job>, conv: ConvId, now: int, only: Option<set<MsgId>>) {
    forall id: JobId :: !Offered(jobs, conv, id, now, only)
  }

  /** The candidate conversations that no other transaction holds. */
  function Reachable(candidates: seq<ConvId>, locked: set<ConvId>): set<ConvId> {
    set c | c in candidates && c !in locked
  }

  predicate ClaimedHead(start: map<JobId, Job>, jobs: map<JobId, Job>, claim: ClaimOf, now: int,
                        only: Option<set<MsgId>>) {
    && claim.job in start && claim.job in jobs && Offered(start, start[claim.job].conv, claim.job, now, only)
    && jobs[claim.job] == Claimed(start[claim.job], claim.token, now)
  }

  /** Claims taken from `start`: each took the head of one of these conversations under the next token, no
      conversation was taken from twice, every other job is untouched, and order is kept. */
  ghost predicate Claiming(start: map<JobId, Job>, jobs: map<JobId, Job>, claims: seq<ClaimOf>, supply: Unique,
                           convs: set<ConvId>, now: int, only: Option<set<MsgId>>) {
    && InOrder(jobs) && jobs.Keys == start.Keys
    && (forall i | 0 <= i < |claims| :: claims[i].token == supply + i && ClaimedHead(start, jobs, claims[i], now, only))
    && (forall i | 0 <= i < |claims| :: start[claims[i].job].conv in convs)
    && (forall i, k | 0 <= i < k < |claims| :: start[claims[i].job].conv != start[claims[k].job].conv)
    && (forall id | id in start :: jobs[id] == start[id] || exists i :: 0 <= i < |claims| && claims[i].job == id)
  }

  lemma ClaimingNothing(jobs: map<JobId, Job>, supply: Unique, convs: set<ConvId>, now: int, only: Option<set<MsgId>>)
    requires InOrder(jobs)
    ensures Claiming(jobs, jobs, [], supply, convs, now, only)
  {
  }

  lemma ClaimStep(start: map<JobId, Job>, jobs: map<JobId, Job>, claims: seq<ClaimOf>, supply: Unique,
                  convs: set<ConvId>, now: int, only: Option<set<MsgId>>, conv: ConvId, claim: ClaimOf)
    requires Claiming(start, jobs, claims, supply, convs, now, only) && claim.token == supply + |claims|
    requires Offered(jobs, conv, claim.job, now, only) && conv in convs
    ensures var after := jobs[claim.job := Claimed(jobs[claim.job], claim.token, now)];
            && Claiming(start, after, claims + [claim], supply, convs, now, only)
            && (forall c :: c == conv || NothingOffered(jobs, c, now, only) ==> NothingOffered(after, c, now, only))
  {
    var id := claim.job;
    var after := jobs[id := Claimed(jobs[id], claim.token, now)];
    ClaimKeepsOrder(jobs, conv, id, claim.token, now, only);
    forall i | 0 <= i < |claims| ensures start[claims[i].job].conv != conv && claims[i].job != id {
      assert ClaimedHead(start, jobs, claims[i], now, only);
      assert Active(jobs[claims[i].job]);
    }
    assert jobs[id] == start[id];
    forall j | j in start && start[j].conv == conv && j < id ensures start[j].status == Completed {
      assert jobs[j].status == Completed;
    }
    var more := claims + [claim];
    forall i | 0 <= i < |more| ensures more[i].token == supply + i && ClaimedHead(start, after, more[i], now, only) {
      if i < |claims| { assert ClaimedHead(start, jobs, claims[i], now, only); }
    }
    forall k | k in start ensures after[k] == start[k] || exists i :: 0 <= i < |more| && more[i].job == k {
      if k == id {
        assert more[|claims|].job == k;
      } else if jobs[k] != start[k] {
        var i :| 0 <= i < |claims| && claims[i].job == k;
        assert more[i].job == k;
      }
    }
  }

  lemma ClaimKeepsOrder(jobs: map<JobId, Job>, conv: ConvId, id: JobId, token: Unique, now: int, only: Option<set<MsgId>>)
    requires InOrder(jobs) && Offered(jobs, conv, id, now, only)
    ensures var after := jobs[id := Claimed(jobs[id], token, now)];
            && InOrder(after)
            && (forall c, k: JobId :: Offered(after, c, k, now, only) ==> c != conv && Offered(jobs, c, k, now, only))
  {
    var after := jobs[id := Claimed(jobs[id], token, now)];
    forall c, k: JobId | Offered(after, c, k, now, only) ensures c != conv && Offered(jobs, c, k, now, only) {
      forall j | j in jobs && jobs[j].conv == c && j < k ensures jobs[j].status == Completed {
        assert after[j].status == Completed;
      }
    }
  }

  // ----- Batch and reaper as runs of the protocol -----

  predicate AmongFirst(claims: seq<ClaimOf>, n: nat, id: JobId) {
    exists i | 0 <= i < |claims| :: i < n && claims[i].job == id
  }

  /** The jobs after the first n claims. */
  function AfterClaims(start: map<JobId, Job>, final: map<JobId, Job>, claims: seq<ClaimOf>, n: nat): map<JobId, Job>
    requires final.Keys == start.Keys
  {
    map id | id in start :: if AmongFirst(claims, n, id) then final[id] else start[id]
  }

  /** The n-th claim is offered after those before it, in one of these conversations. */
  predicate TurnOf(start: map<JobId, Job>, final: map<JobId, Job>, claims: seq<ClaimOf>, supply: Unique,
                   convs: set<ConvId>, now: int, only: Option<set<MsgId>>, n: nat)
    requires final.Keys == start.Keys && n < |claims|
  {
    var jobs, id := AfterClaims(start, final, claims, n), claims[n].job;
    && id in start && start[id].conv in convs && Offered(jobs, start[id].conv, id, now, only)
    && AfterClaims(start, final, claims, n + 1) == jobs[id := Claimed(jobs[id], supply + n, now)]
  }

  lemma NextClaim(start: map<JobId, Job>, final: map<JobId, Job>, claims: seq<ClaimOf>, supply: Unique,
                  convs: set<ConvId>, now: int, only: Option<set<MsgId>>, n: nat)
    requires Claiming(start, final, claims, supply, convs, now, only) && n < |claims|
    ensures TurnOf(start, final, claims, supply, convs, now, only, n)
  {
    var jobs, id := AfterClaims(start, final, claims, n), claims[n].job;
    assert ClaimedHead(start, final, claims[n], now, only);
    assert forall i | 0 <= i < n :: start[claims[i].job].conv != start[id].conv;
    forall j | j in start && start[j].conv == start[id].conv ensures jobs[j] == start[j] { }
    forall j | j in start ensures AmongFirst(claims, n + 1, j) <==> AmongFirst(claims, n, j) || j == id {
      AmongFirstMore(claims, n, j);
    }
  }

  lemma AmongFirstMore(claims: seq<ClaimOf>, n: nat, j: JobId)
    requires n < |claims|
    ensures AmongFirst(claims, n + 1, j) <==> AmongFirst(claims, n, j) || j == claims[n].job
  {
    if AmongFirst(claims, n + 1, j) && j != claims[n].job {
      var i :| 0 <= i < |claims| && i < n + 1 && claims[i].job == j;
      assert i < n;
    }
    if j == claims[n].job { assert n < n + 1 && claims[n].job == j; }
  }

  lemma AllClaims(start: map<JobId, Job>, final: map<JobId, Job>, claims: seq<ClaimOf>, supply: Unique,
                  convs: set<ConvId>, now: int, only: Option<set<MsgId>>)
    requires Claiming(start, final, claims, supply, convs, now, only)
    ensures AfterClaims(start, final, claims, 0) == start && AfterClaims(start, final, claims, |claims|) == final
  {
    forall id | id in start ensures final[id] == start[id] || AmongFirst(claims, |claims|, id) {
      if final[id] != start[id] {
        var i :| 0 <= i < |claims| && claims[i].job == id;
      }
    }
  }

  /** A world after the first n claims. */
  predicate ClaimedSoFar(w: Protocol.World, v: Protocol.World, final: map<JobId, Job>, claims: seq<ClaimOf>, n: nat)
    requires final.Keys == w.jobs.Keys
  {
    v.jobs == AfterClaims(w.jobs, final, claims, n) && v.supply == w.supply + n && v.convs == w.convs
  }

  lemma ClaimLeads(s: Settings, w: Protocol.World, steps: seq<Protocol.Step>, v: Protocol.World, conv: ConvId, id: JobId,
                   now: int, only: Option<set<MsgId>>)
    requires Protocol.Leads(s, w, steps, v) && conv in v.convs && Offered(v.jobs, conv, id, now, only)
    ensures Protocol.Leads(s, w, steps + [Protocol.Claim(conv, id, now, only)], Protocol.DoClaim(v, conv, id, now))
  {
    Protocol.OneMore(s, w, steps, v, Protocol.Claim(conv, id, now, only));
  }

  lemma OneClaimed(w: Protocol.World, v: Protocol.World, final: map<JobId, Job>, claims: seq<ClaimOf>,
                   convs: set<ConvId>, now: int, only: Option<set<MsgId>>, n: nat)
    requires final.Keys == w.jobs.Keys && convs <= w.convs.Keys && n < |claims|
    requires TurnOf(w.jobs, final, claims, w.supply, convs, now, only, n) && ClaimedSoFar(w, v, final, claims, n)
    ensures var id := claims[n].job;
            && id in w.jobs && id in v.jobs && w.jobs[id].conv in v.convs
            && Offered(v.jobs, w.jobs[id].conv, id, now, only)
            && ClaimedSoFar(w, Protocol.DoClaim(v, w.jobs[id].conv, id, now), final, claims, n + 1)
  {
  }

  /** These are the steps of the first claims. */
  predicate StepsOf(steps: seq<Protocol.Step>, claims: seq<ClaimOf>, n: nat)
    requires n <= |claims|
  {
    |steps| == n && forall i | 0 <= i < n :: steps[i].Claim? && steps[i].job == claims[i].job
  }

  lemma NextLeads(s: Settings, w: Protocol.World, steps: seq<Protocol.Step>, v: Protocol.World,
                  final: map<JobId, Job>, claims: seq<ClaimOf>, convs: set<ConvId>, now: int, only: Option<set<MsgId>>,
                  n: nat)
    returns (steps': seq<Protocol.Step>, v': Protocol.World)
    requires final.Keys == w.jobs.Keys && convs <= w.convs.Keys && n < |claims|
    requires TurnOf(w.jobs, final, claims, w.supply, convs, now, only, n) && ClaimedSoFar(w, v, final, claims, n)
    requires Protocol.Leads(s, w, steps, v) && StepsOf(steps, claims, n)
    ensures Protocol.Leads(s, w, steps', v') && ClaimedSoFar(w, v', final, claims, n + 1) && StepsOf(steps', claims, n + 1)
  {
    OneClaimed(w, v, final, claims, convs, now, only, n);
    var id := claims[n].job;
    var conv := w.jobs[id].conv;
    ClaimLeads(s, w, steps, v, conv, id, now, only);
    steps', v' := steps + [Protocol.Claim(conv, id, now, only)], Protocol.DoClaim(v, conv, id, now);
  }

  lemma {:induction false} ClaimsLead(s: Settings, w: Protocol.World, final: map<JobId, Job>, claims: seq<ClaimOf>,
                                      convs: set<ConvId>, now: int, only: Option<set<MsgId>>, n: nat)
    returns (steps: seq<Protocol.Step>, v: Protocol.World)
    requires final.Keys == w.jobs.Keys && convs <= w.convs.Keys && n <= |claims|
    requires forall i | 0 <= i < |claims| :: TurnOf(w.jobs, final, claims, w.supply, convs, now, only, i)
    ensures Protocol.Leads(s, w, steps, v) && ClaimedSoFar(w, v, final, claims, n) && StepsOf(steps, claims, n)
  {
    if n == 0 {
      steps, v := [], w;
      assert AfterClaims(w.jobs, final, claims, 0) == w.jobs;
    } else {
      steps, v := ClaimsLead(s, w, final, claims, convs, now, only, n - 1);
      steps, v := NextLeads(s, w, steps, v, final, claims, convs, now, only, n - 1);
    }
  }

  /** The claim batch is a run of the protocol's claim steps, one for each claim, each enabled in its turn. */
  lemma ClaimBatchRefinesProtocol(s: Settings, w: Protocol.World, final: map<JobId, Job>, claims: seq<ClaimOf>,
                                  convs: set<ConvId>, now: int, only: Option<set<MsgId>>)
    returns (steps: seq<Protocol.Step>, w': Protocol.World)
    requires Claiming(w.jobs, final, claims, w.supply, convs, now, only) && convs <= w.convs.Keys
    ensures Protocol.Leads(s, w, steps, w') && w'.jobs == final && w'.supply == w.supply + |claims|
    ensures StepsOf(steps, claims, |claims|)
  {
    forall i | 0 <= i < |claims| ensures TurnOf(w.jobs, final, claims, w.supply, convs, now, only, i) {
      NextClaim(w.jobs, final, claims, w.supply, convs, now, only, i);
    }
    steps, w' := ClaimsLead(s, w, final, claims, convs, now, only, |claims|);
    AllClaims(w.jobs, final, claims, w.supply, convs, now, only);
  }

  lemma {:induction false} ReapsLead(s: Settings, w: Protocol.World, ids: seq<JobId>, locked: set<ConvId>, now: int,
                                     n: nat)
    returns (steps: seq<Protocol.Step>, v: Protocol.World)
    requires n <= |ids| && (forall i | 0 <= i < |ids| :: ids[i] in w.jobs)
    requires forall i, k | 0 <= i < k < |ids| :: ids[i] != ids[k]
    ensures Protocol.Leads(s, w, steps, v) && forall i | 0 <= i < |steps| :: steps[i].Reap?
    ensures forall id | id in ids[..n] :: id in w.jobs
    ensures |steps| == ReapableCount(w.jobs, ids[..n], locked, now, s)
    ensures v.jobs == ReapedJobs(w.jobs, ids[..n], locked, now, s)
  {
    if n == 0 {
      steps, v := [], w;
    } else {
      steps, v := ReapsLead(s, w, ids, locked, now, n - 1);
      var id := ids[n-1];
      assert id !in ids[..n-1];
      ReapedStep(w.jobs, ids, locked, now, s, n - 1);
      if Reapable(w.jobs[id], locked, now, s) {
        Protocol.OneMore(s, w, steps, v, Protocol.Reap(id, now));
        steps, v := steps + [Protocol.Reap(id, now)],
                    Protocol.SetJob(v, id, FailLocked(v.jobs[id], ClaimExpired, now, s));
      }
    }
  }

  /** The reaper pass is a run of the protocol's reap steps, one for each claim it fails. */
  lemma ReaperRefinesProtocol(s: Settings, w: Protocol.World, ids: seq<JobId>, locked: set<ConvId>, now: int)
    returns (steps: seq<Protocol.Step>, w': Protocol.World)
    requires forall id | id in ids :: id in w.jobs
    requires forall i, k | 0 <= i < k < |ids| :: ids[i] != ids[k]
    ensures Protocol.Leads(s, w, steps, w') && forall i | 0 <= i < |steps| :: steps[i].Reap?
    ensures |steps| == ReapableCount(w.jobs, ids, locked, now, s)
    ensures w'.jobs == ReapedJobs(w.jobs, ids, locked, now, s)
  {
    forall i | 0 <= i < |ids| ensures ids[i] in w.jobs { assert ids[i] in ids; }
    steps, w' := ReapsLead(s, w, ids, locked, now, |ids|);
    assert ids[..|ids|] == ids;
  }
}
