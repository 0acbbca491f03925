/** Inbox jobs and webhook events: the row changes of app/channel/inbox.py, of intake
    (app/channel/inbound.py), of the manual retry script and of the administrative reset. */
module Inbox {
  import opened Common
  import Ownership

  type Phone = nat
  type ConvId = nat
  type MsgId = nat
  type JobId = nat
  type EventId = nat
  type ExternalId = nat
  type Unique = nat

  datatype JobStatus = Pending | Processing | External | Completed | Failed | Review

  datatype JobOrigin = NewWork | Legacy

  datatype Cause =
    | NoCause | OutcomeUncertain | ContextChangedAfterExternal | ContextChangedReclassify | ClaimExpired
    | Cancelled | ResetByAdmin | LegacyUnproven | AttemptRaised

  datatype Job = Job(
    message: MsgId, conv: ConvId, status: JobStatus, origin: JobOrigin, attempts: nat, token: Option<Unique>,
    claimedAt: Option<int>, nextAttempt: Option<int>, externalOp: bool, cause: Cause)

  datatype Message = Message(external: ExternalId, conv: ConvId, customer: Phone, inbound: bool)

  /** Everything the context fingerprint covers. The fingerprint is a SHA-256 digest; two contexts
      are taken to have equal digests exactly when they are equal. */
  datatype Context = Context(state: Ownership.State, botEnabled: bool, rest: int)

  datatype Conv = Conv(customer: Phone, ctx: Context)

  datatype EventStatus = Received | IngestFailed | Prepared | Processed | Exhausted | EventReview

  /** One inbound message of a webhook payload. */
  datatype Incoming = Incoming(external: ExternalId, phone: Phone)

  /** `payload` lists the messages in the order intake handles them. */
  datatype Event = Event(
    payload: seq<Incoming>, status: EventStatus, versionTwo: bool, ingestAttempts: nat, nextAttempt: Option<int>)

  datatype Settings = Settings(maxAttempts: nat, maxBackoff: nat, claimTimeout: nat)

  predicate Silent(c: Context) {
    Ownership.Paused(c.state) || !c.botEnabled
  }

  predicate Active(j: Job) {
    j.status == Processing || j.status == External
  }

  function Retire(j: Job, status: JobStatus, cause: Cause): Job {
    j.(status := status, token := None, claimedAt := None, nextAttempt := None, cause := cause)
  }

  function FailLocked(j: Job, cause: Cause, now: int, s: Settings): Job {
    var tried := j.(attempts := j.attempts + 1);
    if tried.externalOp then Retire(tried, Review, OutcomeUncertain)
    else if tried.attempts >= s.maxAttempts then Retire(tried, Failed, cause)
    else Retire(tried, Pending, cause).(nextAttempt := Some(now + Backoff(tried.attempts, s.maxBackoff)))
  }

  /** A failure without external work counts once. Below the limit the job waits for a delay that is positive,
      within the cap, and two seconds after the first failure; at the limit it is FAILED. */
  lemma FailureOutcome(job: Job, cause: Cause, now: int, s: Settings) returns (delay: nat)
    requires !job.externalOp
    ensures delay <= s.maxBackoff && (s.maxBackoff > 0 ==> delay > 0)
    ensures job.attempts == 0 && s.maxBackoff >= 2 ==> delay == 2
    ensures var job' := FailLocked(job, cause, now, s);
            && job'.conv == job.conv && job'.attempts == job.attempts + 1 && job'.token.None? && !job'.externalOp
            && (if job.attempts + 1 < s.maxAttempts
                then job'.status == Pending && job'.nextAttempt == Some(now + delay) else job'.status == Failed)
  {
    delay := Backoff(job.attempts + 1, s.maxBackoff);
    BackoffDoubles(job.attempts, s.maxBackoff);
    BackoffDoubles(job.attempts + 1, s.maxBackoff);
  }

  /** The cancellation branch of process_claimed_inbox. */
  function CancelLocked(j: Job): Job {
    if j.externalOp then Retire(j, Review, OutcomeUncertain) else Retire(j, Pending, Cancelled)
  }

  predicate Due(next: Option<int>, now: int) {
    next.None? || next.value <= now
  }

  function NewJob(message: MsgId, conv: ConvId): Job {
    Job(message, conv, Pending, NewWork, 0, None, None, None, false, NoCause)
  }

  function LegacyJob(message: MsgId, conv: ConvId): Job {
    Job(message, conv, Review, Legacy, 0, None, None, None, false, LegacyUnproven)
  }

  /** The unfinished job of a conversation with the least id. */
  predicate HeadOf(jobs: map<JobId, Job>, conv: ConvId, id: JobId) {
    && id in jobs && jobs[id].conv == conv && jobs[id].status != Completed
    && forall j | j in jobs && jobs[j].conv == conv && j < id :: jobs[j].status == Completed
  }

  /** What the claim query may take: the pending, due head, within the messages asked for. */
  predicate Offered(jobs: map<JobId, Job>, conv: ConvId, id: JobId, now: int, only: Option<set<MsgId>>) {
    && HeadOf(jobs, conv, id) && jobs[id].status == Pending && Due(jobs[id].nextAttempt, now)
    && (only.Some? ==> jobs[id].message in only.value)
  }

  function Claimed(job: Job, token: Unique, now: int): Job {
    job.(status := Processing, token := Some(token), claimedAt := Some(now))
  }

  predicate Expired(job: Job, now: int, s: Settings) {
    Active(job) && job.claimedAt.Some? && job.claimedAt.value < now - s.claimTimeout
  }
}
