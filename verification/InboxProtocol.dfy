/** The inbox protocol as a state machine. One step is one database transaction, one agenda call,
    or the loss of a worker. */
module InboxProtocol {
  import opened Common
  import Ownership
  import opened Inbox
  import opened Replay

  datatype Pc =
    | Ready                              // about to run apply_turn
    | Wants(call: Call)                  // apply_turn rolled back on a deferred call
    | MayCall(call: Call)                // prepare_external committed
    | Has(call: Call, value: int)        // the call returned
    | Failing                            // an exception is on its way to settle_inbox_failure

  /** An acquisition as its worker remembers it: `ctx` is the fingerprint taken at claim. */
  datatype Worker = Worker(job: JobId, conv: ConvId, ctx: Context, log: seq<Logged>, pc: Pc)

  datatype Happening =
    | Acquired(job: JobId)
    | Applied(job: JobId)
    | ClosedByReset(job: JobId)
    | Called(token: Unique, position: nat)
    | Mutated(job: JobId, token: Unique)

  /** `issued` remembers the job of each claim token; `opener` the acquisition that committed a job's
      external operation. */
  datatype World = World(
    convs: map<ConvId, Conv>, messages: map<MsgId, Message>, jobs: map<JobId, Job>, events: map<EventId, Event>,
    supply: nat, workers: map<Unique, Worker>, issued: map<Unique, JobId>, opener: map<JobId, Unique>,
    hist: multiset<Happening>)

  /** What the environment decides for one incoming message: whether staff interception swallows it,
      the ids that inserts would draw, and the context of a conversation created for it. */
  datatype Pick = Pick(staff: bool, msg: MsgId, job: JobId, conv: ConvId, ctx: Context)

  datatype Step =
    | Store(id: EventId, payload: seq<Incoming>)
    | Expand(id: EventId, now: int, picks: seq<Pick>, fault: bool)
    | RecordOutbound(msg: MsgId, external: ExternalId, conv: ConvId)
    | Refresh(id: EventId)
    | Adopt(id: EventId)
    | ChangeContext(conv: ConvId, ctx: Context)
    | Reset(phone: Phone, rest: int)
    | Claim(conv: ConvId, job: JobId, now: int, only: Option<set<MsgId>>)
    | Reap(job: JobId, now: int)
    | Apply(token: Unique, plan: Plan, after: Context, now: int)
    | Prepare(token: Unique, now: int)
    | CallAgenda(token: Unique, answer: Option<int>)
    | Record(token: Unique)
    | Raise(token: Unique)
    | SettleFailure(token: Unique, now: int)
    | Cancel(token: Unique)
    | Crash(token: Unique)
    | RetryJob(job: JobId)

  // ----- Intake -----

  ghost predicate HasMessage(w: World, x: ExternalId, m: MsgId) {
    m in w.messages && w.messages[m].external == x
  }

  ghost predicate HasJob(w: World, m: MsgId, j: JobId) {
    j in w.jobs && w.jobs[j].message == m
  }

  ghost predicate ActiveConversation(w: World, phone: Phone, c: ConvId) {
    && c in w.convs && w.convs[c].customer == phone
    && w.convs[c].ctx.state != Ownership.Resolved && w.convs[c].ctx.state != Ownership.Closed
  }

  /** get_or_create_active_conversation takes the one with the highest id. */
  ghost predicate NewestActive(w: World, phone: Phone, c: ConvId) {
    ActiveConversation(w, phone, c) && forall d: ConvId | ActiveConversation(w, phone, d) :: d <= c
  }

  /** Sequence-drawn ids are new, and a job id drawn under the customer lock is above every job id of
      that customer's conversations: intake for one customer is serialized by that lock. */
  ghost predicate PickOk(w: World, item: Incoming, pick: Pick) {
    && pick.msg !in w.messages && pick.job !in w.jobs && pick.conv !in w.convs
    && forall j | j in w.jobs && w.jobs[j].conv in w.convs && w.convs[w.jobs[j].conv].customer == item.phone ::
         j < pick.job
  }

  ghost function InsertMessage(w: World, item: Incoming, pick: Pick, conv: ConvId): World {
    w.(messages := w.messages[pick.msg := Message(item.external, conv, item.phone, true)],
       jobs := w.jobs[pick.job := NewJob(pick.msg, conv)])
  }

  /** persist_inbound_message_in_session; None is an exception, which rolls the payload back. */
  ghost function PersistOne(w: World, item: Incoming, pick: Pick): Option<World> {
    if pick.staff then Some(w)
    else if exists m :: HasMessage(w, item.external, m) then
      var m :| HasMessage(w, item.external, m);
      if !w.messages[m].inbound || w.messages[m].customer != item.phone then None
      else if exists j :: HasJob(w, m, j) then Some(w)
      else Some(w.(jobs := w.jobs[pick.job := LegacyJob(m, w.messages[m].conv)]))
    else if exists c :: NewestActive(w, item.phone, c) then
      var c :| NewestActive(w, item.phone, c);
      Some(InsertMessage(w, item, pick, c))
    else
      Some(InsertMessage(w.(convs := w.convs[pick.conv := Conv(item.phone, pick.ctx)]), item, pick, pick.conv))
  }

  ghost predicate PicksOk(w: World, items: seq<Incoming>, picks: seq<Pick>)
    decreases |items|
  {
    |picks| == |items| &&
    (items == [] ||
     (PickOk(w, items[0], picks[0]) &&
      (PersistOne(w, items[0], picks[0]).Some? ==>
         PicksOk(PersistOne(w, items[0], picks[0]).value, items[1..], picks[1..]))))
  }

  /** persist_payload_phase_a_in_session: all messages or none. */
  ghost function PersistAll(w: World, items: seq<Incoming>, picks: seq<Pick>): Option<World>
    requires |picks| == |items|
    decreases |items|
  {
    if items == [] then Some(w)
    else
      match PersistOne(w, items[0], picks[0])
      case None => None
      case Some(w1) => PersistAll(w1, items[1..], picks[1..])
  }

  /** A delivered message, stored when its outbox row is settled, under the provider's id. */
  function DoRecordOutbound(w: World, msg: MsgId, external: ExternalId, conv: ConvId): World
    requires conv in w.convs
  {
    w.(messages := w.messages[msg := Message(external, conv, w.convs[conv].customer, false)])
  }

  function SetEvent(w: World, id: EventId, e: Event): World {
    w.(events := w.events[id := e])
  }

  function FailedIngest(e: Event, now: int, s: Settings): Event {
    var n := e.ingestAttempts + 1;
    e.(ingestAttempts := n, status := if n >= s.maxAttempts then Exhausted else IngestFailed,
       nextAttempt := Some(now + Backoff(n, s.maxBackoff)))
  }

  ghost function DoExpand(w: World, s: Settings, id: EventId, now: int, picks: seq<Pick>, fault: bool): World
    requires id in w.events && |picks| == |w.events[id].payload|
  {
    var e := w.events[id];
    if e.status == Processed || e.status == Exhausted || e.status == EventReview then w
    else if !e.versionTwo then SetEvent(w, id, e.(status := EventReview))
    else if e.status == Prepared || !Due(e.nextAttempt, now) then w
    else
      var persisted := if fault then None else PersistAll(w, e.payload, picks);
      match persisted
      case None => SetEvent(w, id, FailedIngest(e, now, s))
      case Some(w1) => SetEvent(w1, id, e.(status := Prepared, nextAttempt := None))
  }

  function Externals(payload: seq<Incoming>): set<ExternalId> {
    set i | 0 <= i < |payload| :: payload[i].external
  }

  /** The jobs that refresh_event's join returns, one row per job. */
  ghost function JobsOf(w: World, ids: set<ExternalId>): set<JobId> {
    set j | j in w.jobs && w.jobs[j].message in w.messages && w.messages[w.jobs[j].message].external in ids
  }

  ghost function RefreshedStatus(w: World, e: Event): EventStatus {
    var ids := Externals(e.payload);
    var jobs := JobsOf(w, ids);
    if |jobs| != |ids| then EventReview
    else if forall j | j in jobs :: w.jobs[j].status == Completed then Processed
    else if exists j | j in jobs :: w.jobs[j].status == Review then EventReview
    else if exists j | j in jobs :: w.jobs[j].status == Failed then Exhausted
    else Prepared
  }

  ghost function DoRefresh(w: World, id: EventId): World
    requires id in w.events
  {
    var e := w.events[id];
    if e.status != Prepared then w else SetEvent(w, id, e.(status := RefreshedStatus(w, e)))
  }

  /** adopt_unmaterialized accepts only a legacy event none of whose messages is stored. */
  ghost predicate Adoptable(w: World, id: EventId) {
    && id in w.events && !w.events[id].versionTwo
    && (w.events[id].status == Received || w.events[id].status == IngestFailed)
    && forall m | m in w.messages :: w.messages[m].external !in Externals(w.events[id].payload)
  }

  function DoAdopt(w: World, id: EventId): World
    requires id in w.events
  {
    SetEvent(w, id, w.events[id].(versionTwo := true, status := Received, nextAttempt := None))
  }

  // ----- Administrative reset, reaper, manual retry -----

  predicate OfCustomer(w: World, phone: Phone, j: JobId)
    requires j in w.jobs
  {
    w.jobs[j].conv in w.convs && w.convs[w.jobs[j].conv].customer == phone
  }

  predicate BusyCustomer(w: World, phone: Phone) {
    exists j | j in w.jobs :: OfCustomer(w, phone, j) && Active(w.jobs[j])
  }

  function ClosedJobs(w: World, phone: Phone): set<JobId> {
    set j | j in w.jobs && OfCustomer(w, phone, j) && w.jobs[j].status != Completed
  }

  /** reset_conversation_by_phone: refused while any job is being processed. */
  function DoReset(w: World, phone: Phone, rest: int): World {
    if BusyCustomer(w, phone) then w
    else
      var closed := ClosedJobs(w, phone);
      w.(convs := map c | c in w.convs ::
                    if w.convs[c].customer == phone
                    then w.convs[c].(ctx := Context(Ownership.Closed, true, rest)) else w.convs[c],
         jobs := map j | j in w.jobs ::
                   if j in closed then Retire(w.jobs[j], Completed, ResetByAdmin) else w.jobs[j],
         hist := w.hist + multiset(set j | j in closed :: ClosedByReset(j)))
  }

  function SetJob(w: World, id: JobId, j: Job): World {
    w.(jobs := w.jobs[id := j])
  }

  function CanRetry(w: World, id: JobId): bool {
    id in w.jobs && w.jobs[id].status == Failed && w.jobs[id].origin == NewWork && !w.jobs[id].externalOp
  }

  ghost function DoRetry(w: World, id: JobId): World
    requires id in w.jobs && w.jobs[id].message in w.messages
  {
    var x := w.messages[w.jobs[id].message].external;
    SetJob(w, id, Retire(w.jobs[id], Pending, NoCause).(attempts := 0))
    .(events := map e | e in w.events ::
        if w.events[e].status == Exhausted && w.events[e].versionTwo && x in Externals(w.events[e].payload)
        then w.events[e].(status := Prepared, nextAttempt := None) else w.events[e])
  }

  // ----- Claim -----

  predicate Head(w: World, conv: ConvId, id: JobId) {
    HeadOf(w.jobs, conv, id)
  }

  predicate Claimable(w: World, conv: ConvId, id: JobId, now: int, only: Option<set<MsgId>>) {
    conv in w.convs && Offered(w.jobs, conv, id, now, only)
  }

  function DoClaim(w: World, conv: ConvId, id: JobId, now: int): World
    requires conv in w.convs && id in w.jobs
  {
    w.(jobs := w.jobs[id := Claimed(w.jobs[id], w.supply, now)],
       workers := w.workers[w.supply := Worker(id, conv, w.convs[conv].ctx, [], Ready)],
       issued := w.issued[w.supply := id],
       supply := w.supply + 1,
       hist := w.hist + multiset{Acquired(id)})
  }

  predicate StaleClaim(w: World, s: Settings, id: JobId, now: int) {
    id in w.jobs && Expired(w.jobs[id], now, s)
  }

  // ----- The worker's transactions -----

  /** owned: the job is still held under this very token, in a known conversation. */
  predicate Owns(w: World, token: Unique)
    requires token in w.workers
  {
    var k := w.workers[token];
    k.job in w.jobs && k.conv in w.convs && Active(w.jobs[k.job]) && w.jobs[k.job].token == Some(token)
  }

  function Drop(w: World, token: Unique): World {
    w.(workers := map t | t in w.workers && t != token :: w.workers[t])
  }

  function MoveTo(w: World, token: Unique, pc: Pc): World
    requires token in w.workers
  {
    w.(workers := w.workers[token := w.workers[token].(pc := pc)])
  }

  function ContextKept(w: World, token: Unique): bool
    requires token in w.workers && Owns(w, token)
  {
    w.convs[w.workers[token].conv].ctx == w.workers[token].ctx
  }

  function CommitTurn(w: World, token: Unique, after: Context): World
    requires token in w.workers && Owns(w, token)
  {
    var k := w.workers[token];
    Drop(SetJob(w, k.job, Retire(w.jobs[k.job], Completed, NoCause))
         .(convs := w.convs[k.conv := w.convs[k.conv].(ctx := after)],
           hist := w.hist + multiset{Applied(k.job)}), token)
  }

  /** apply_turn. A deferred call or an exception rolls the whole transaction back. */
  ghost function DoApply(w: World, s: Settings, token: Unique, plan: Plan, after: Context, now: int): World
    requires token in w.workers
  {
    if !Owns(w, token) then Drop(w, token)
    else
      var k := w.workers[token];
      var job := w.jobs[k.job];
      if !ContextKept(w, token) && job.externalOp then
        Drop(SetJob(w, k.job, Retire(job, Review, ContextChangedAfterExternal)), token)
      else if !ContextKept(w, token) && !Silent(w.convs[k.conv].ctx) then
        Drop(SetJob(w, k.job, FailLocked(job, ContextChangedReclassify, now, s)), token)
      else
        match Attempt(plan, k.log, 0)
        case Commits(_) => CommitTurn(w, token, after)
        case Defers(call) => MoveTo(w, token, Wants(call))
        case Raises => MoveTo(w, token, Failing)
  }

  /** prepare_external */
  function DoPrepare(w: World, s: Settings, token: Unique, call: Call, now: int): World
    requires token in w.workers
  {
    if !Owns(w, token) then Drop(w, token)
    else
      var k := w.workers[token];
      var job := w.jobs[k.job];
      if !ContextKept(w, token) then
        Drop(SetJob(w, k.job, FailLocked(job, ContextChangedReclassify, now, s)), token)
      else if Mutating(call) then
        MoveTo(SetJob(w, k.job, job.(status := External, externalOp := true)), token, MayCall(call))
        .(opener := w.opener[k.job := token])
      else MoveTo(w, token, MayCall(call))
  }

  /** The agenda service runs outside every lock; it may take effect and still raise. */
  function DoCall(w: World, token: Unique, call: Call, answer: Option<int>): World
    requires token in w.workers
  {
    var k := w.workers[token];
    MoveTo(w, token, if answer.Some? then Has(call, answer.value) else Failing)
    .(hist := w.hist + multiset{Called(token, |k.log|)}
              + (if Mutating(call) then multiset{Mutated(k.job, token)} else multiset{}))
  }

  /** record_external_result, then the append to the in-memory log; the twelfth attempt was the last. */
  function DoRecord(w: World, token: Unique, call: Call, value: int): World
    requires token in w.workers
  {
    if Mutating(call) && !Owns(w, token) then Drop(w, token)
    else
      var k := w.workers[token];
      var log := k.log + [Logged(call, value)];
      w.(workers := w.workers[token := k.(log := log, pc := if |log| < 12 then Ready else Failing)])
  }

  function DoSettleFailure(w: World, s: Settings, token: Unique, now: int): World
    requires token in w.workers
  {
    if !Owns(w, token) then Drop(w, token)
    else
      var id := w.workers[token].job;
      Drop(SetJob(w, id, FailLocked(w.jobs[id], AttemptRaised, now, s)), token)
  }

  function DoCancel(w: World, token: Unique): World
    requires token in w.workers
  {
    if !Owns(w, token) then Drop(w, token)
    else
      var id := w.workers[token].job;
      Drop(SetJob(w, id, CancelLocked(w.jobs[id])), token)
  }

  // ----- Steps and runs -----

  ghost predicate Enabled(w: World, s: Settings, step: Step) {
    match step
    case Store(id, payload) => id !in w.events
    case Expand(id, now, picks, fault) =>
      id in w.events && |picks| == |w.events[id].payload| && PicksOk(w, w.events[id].payload, picks)
    case RecordOutbound(msg, external, conv) =>
      msg !in w.messages && conv in w.convs && forall m :: !HasMessage(w, external, m)
    case Refresh(id) => id in w.events
    case Adopt(id) => Adoptable(w, id)
    case ChangeContext(conv, ctx) => conv in w.convs
    case Reset(phone, rest) => true
    case Claim(conv, job, now, only) => Claimable(w, conv, job, now, only)
    case Reap(job, now) => StaleClaim(w, s, job, now)
    case Apply(token, plan, after, now) => token in w.workers && w.workers[token].pc == Ready
    case Prepare(token, now) => token in w.workers && w.workers[token].pc.Wants?
    case CallAgenda(token, answer) => token in w.workers && w.workers[token].pc.MayCall?
    case Record(token) => token in w.workers && w.workers[token].pc.Has?
    case Raise(token) => token in w.workers && w.workers[token].pc != Failing
    case SettleFailure(token, now) => token in w.workers && w.workers[token].pc == Failing
    case Cancel(token) => token in w.workers
    case Crash(token) => token in w.workers
    case RetryJob(job) => CanRetry(w, job) && w.jobs[job].message in w.messages
  }

  ghost function Next(w: World, s: Settings, step: Step): World
    requires Enabled(w, s, step)
  {
    match step
    case Store(id, payload) => SetEvent(w, id, Event(payload, Received, true, 0, None))
    case Expand(id, now, picks, fault) => DoExpand(w, s, id, now, picks, fault)
    case RecordOutbound(msg, external, conv) => DoRecordOutbound(w, msg, external, conv)
    case Refresh(id) => DoRefresh(w, id)
    case Adopt(id) => DoAdopt(w, id)
    case ChangeContext(conv, ctx) => w.(convs := w.convs[conv := w.convs[conv].(ctx := ctx)])
    case Reset(phone, rest) => DoReset(w, phone, rest)
    case Claim(conv, job, now, only) => DoClaim(w, conv, job, now)
    case Reap(job, now) => SetJob(w, job, FailLocked(w.jobs[job], ClaimExpired, now, s))
    case Apply(token, plan, after, now) => DoApply(w, s, token, plan, after, now)
    case Prepare(token, now) => DoPrepare(w, s, token, w.workers[token].pc.call, now)
    case CallAgenda(token, answer) => DoCall(w, token, w.workers[token].pc.call, answer)
    case Record(token) => DoRecord(w, token, w.workers[token].pc.call, w.workers[token].pc.value)
    case Raise(token) => MoveTo(w, token, Failing)
    case SettleFailure(token, now) => DoSettleFailure(w, s, token, now)
    case Cancel(token) => DoCancel(w, token)
    case Crash(token) => Drop(w, token)
    case RetryJob(job) => DoRetry(w, job)
  }

  /** The inbox starts without jobs; conversations, messages and unproven events may be historical. */
  ghost predicate Initial(w: World, s: Settings) {
    && w.jobs == map[] && w.workers == map[] && w.issued == map[] && w.opener == map[] && w.hist == multiset{}
    && (forall m, n | m in w.messages && n in w.messages && w.messages[m].external == w.messages[n].external :: m == n)
    && (forall m | m in w.messages :: w.messages[m].conv in w.convs
                                      && w.convs[w.messages[m].conv].customer == w.messages[m].customer)
    && (forall e | e in w.events :: !w.events[e].versionTwo && w.events[e].ingestAttempts == 0)
  }

  ghost predicate StepAt(s: Settings, worlds: seq<World>, steps: seq<Step>, i: nat)
    requires i < |steps| && |worlds| == |steps| + 1
  {
    Enabled(worlds[i], s, steps[i]) && worlds[i+1] == Next(worlds[i], s, steps[i])
  }

  ghost predicate IsRun(s: Settings, worlds: seq<World>, steps: seq<Step>) {
    && |worlds| == |steps| + 1
    && Initial(worlds[0], s)
    && forall i | 0 <= i < |steps| :: StepAt(s, worlds, steps, i)
  }

  // ----- Stretches of a run -----

  /** These steps lead from one world to the other, each enabled in its turn. */
  ghost predicate Leads(s: Settings, w: World, steps: seq<Step>, w': World)
    decreases |steps|
  {
    if steps == [] then w' == w
    else Enabled(w, s, steps[0]) && Leads(s, Next(w, s, steps[0]), steps[1..], w')
  }

  lemma Prepend(s: Settings, w: World, step: Step, steps: seq<Step>, w': World)
    requires Enabled(w, s, step) && Leads(s, Next(w, s, step), steps, w')
    ensures Leads(s, w, [step] + steps, w')
  {
    assert ([step] + steps)[1..] == steps;
  }

  lemma {:induction false} Chain(s: Settings, w: World, first: seq<Step>, v: World, second: seq<Step>, w': World)
    requires Leads(s, w, first, v) && Leads(s, v, second, w')
    ensures Leads(s, w, first + second, w')
    decreases |first|
  {
    if first == [] {
      assert first + second == second;
    } else {
      Chain(s, Next(w, s, first[0]), first[1..], v, second, w');
      assert (first + second)[1..] == first[1..] + second;
    }
  }

  lemma OneMore(s: Settings, w: World, steps: seq<Step>, v: World, step: Step)
    requires Leads(s, w, steps, v) && Enabled(v, s, step)
    ensures Leads(s, w, steps + [step], Next(v, s, step))
  {
    assert Leads(s, Next(v, s, step), [], Next(v, s, step));
    assert [step][1..] == [] && Leads(s, v, [step], Next(v, s, step));
    Chain(s, w, steps, v, [step], Next(v, s, step));
  }
}
