/** The outbox protocol as a state machine. One step is one database transaction, one provider
    call, or the loss of a worker; a worker's memory lives only in `workers`. */
module DeliveryProtocol {
  import opened Common
  import opened Ownership
  import opened Delivery

  /** Where a worker stands between its transactions (process_claimed_outbox_item and
      process_claimed_document_outbox_item). */
  datatype Pc =
    | AtText | SendText
    | AtCheck1 | AtAdmit1 | SendDoc1 | AtReject | AtCheck2 | AtAdmit2 | SendDoc2
    | AtSuccess | AtFailure(permanent: bool)

  datatype Worker = Worker(row: RowId, kind: Kind, pc: Pc)

  /** What has happened so far, counted. */
  datatype Event =
    | Acquired(row: RowId)
    | TokenAdmitted(token: Unique)
    | RowAdmitted(row: RowId)
    | RowCalled(row: RowId)

  /** `supply` is above every token and epoch ever drawn; `issued` remembers the row each claim
      token was issued for. */
  datatype World = World(
    desks: map<ConvId, Desk>, rows: map<RowId, Row>, facts: Facts, supply: nat,
    workers: map<Unique, Worker>, issued: map<Unique, RowId>, hist: multiset<Event>)

  datatype SendOutcome = Delivered | InvalidMedia | SendError

  datatype Step =
    | HumanCommand(conv: ConvId, command: Command)
    | AgentMessage(conv: ConvId, agent: AgentId, id: RowId, message: MessageId)
    | Turn(conv: ConvId, desk: Desk)
    | Reset(customer: CustomerId, top: nat)
    | OpenConversation(conv: ConvId, customer: CustomerId)
    | PaymentNotice(conv: ConvId, conflict: Option<CaseId>, settled: set<ConvId>, top: nat)
    | Enqueue(id: RowId, row: Row)
    | Learn(facts: Facts)
    | Claim(id: RowId, now: int)
    | Reap(id: RowId, now: int)
    | Decision(token: Unique)
    | Send(token: Unique, outcome: SendOutcome)
    | Raise(token: Unique, permanent: bool)
    | RejectedByProvider(token: Unique)
    | SettleOk(token: Unique, now: int)
    | SettleFail(token: Unique, now: int)
    | Crash(token: Unique)

  function FreshRow(conv: ConvId, message: MessageId, kind: Kind, agentPayload: bool, context: Option<Context>,
                    now: int): Row {
    Row(conv, message, kind, agentPayload, context, Pending, 0, None, None, now, None, None, NoReason)
  }

  predicate IsFresh(row: Row) {
    row == FreshRow(row.conv, row.message, row.kind, row.agentPayload, row.context, row.createdAt)
  }

  /** Producers stamp automatic output and transfer notices with the current epoch. */
  predicate StampedNow(w: World, row: Row)
    requires row.conv in w.desks
  {
    OriginIs(row, Auto) || OriginIs(row, HandoffNotice) ==>
      row.context.value.epoch == Some(w.desks[row.conv].conv.epoch)
  }

  function Deciding(pc: Pc): bool {
    pc == AtText || pc == AtCheck1 || pc == AtAdmit1 || pc == AtCheck2 || pc == AtAdmit2
  }

  function Admitting(pc: Pc): bool {
    pc == AtText || pc == AtAdmit1 || pc == AtAdmit2
  }

  function Calling(pc: Pc): bool {
    pc == SendText || pc == SendDoc1 || pc == SendDoc2
  }

  predicate Located(w: World, id: RowId) {
    id in w.rows && w.rows[id].conv in w.desks
  }

  predicate Working(w: World, token: Unique) {
    token in w.workers && Located(w, w.workers[token].row)
  }

  ghost predicate Enabled(w: World, s: Settings, step: Step) {
    match step
    case HumanCommand(conv, command) => conv in w.desks && FreshCase(w.desks[conv], command)
    case AgentMessage(conv, agent, id, message) => conv in w.desks && id !in w.rows
    case Turn(conv, desk) => conv in w.desks && TurnContract(w.desks[conv], desk, w.supply)
    case Reset(customer, top) => w.supply <= top && forall c | c in w.desks :: w.supply + c < top
    case OpenConversation(conv, customer) => conv !in w.desks
    case PaymentNotice(conv, conflict, settled, top) =>
      && conv in w.desks && (conflict.Some? ==> conflict.value !in w.desks[conv].cases)
      && (forall c | c in settled :: c in w.desks && w.desks[c].conv.customer == w.desks[conv].conv.customer)
      && w.supply <= top && forall c | c in w.desks :: w.supply + 4 * c + 4 <= top
    case Enqueue(id, row) =>
      id !in w.rows && IsFresh(row) && row.conv in w.desks && StampedNow(w, row) && EpochDrawn(w, row)
    case Learn(facts) => facts.audits == w.facts.audits
    case Claim(id, now) => Located(w, id) && Selected(w.rows, w.rows[id], now)
    case Reap(id, now) =>
      Located(w, id) && w.rows[id].status == Sending && Stale(w.rows[id], now - s.sendingTimeout)
    case Decision(token) => Working(w, token) && Deciding(w.workers[token].pc)
    case Send(token, outcome) => Working(w, token) && Calling(w.workers[token].pc)
    case Raise(token, permanent) =>
      Working(w, token) && !w.workers[token].pc.AtSuccess? && !w.workers[token].pc.AtFailure?
      && (permanent ==> w.workers[token].kind == Document)
    case RejectedByProvider(token) => Working(w, token) && w.workers[token].pc == AtReject
    case SettleOk(token, now) => Working(w, token) && w.workers[token].pc == AtSuccess
    case SettleFail(token, now) => Working(w, token) && w.workers[token].pc.AtFailure?
    case Crash(token) => token in w.workers
  }

  function SetRow(w: World, id: RowId, row: Row): World {
    w.(rows := w.rows[id := row])
  }

  function SetDesk(w: World, conv: ConvId, desk: Desk): World {
    w.(desks := w.desks[conv := desk], supply := w.supply + 5)
  }

  function MoveTo(w: World, token: Unique, pc: Pc): World
    requires token in w.workers
  {
    w.(workers := w.workers[token := w.workers[token].(pc := pc)])
  }

  function Drop(w: World, token: Unique): World {
    w.(workers := map t | t in w.workers && t != token :: w.workers[t])
  }

  /** claim_due_outbox_batch, one row of the batch. */
  function ClaimRow(w: World, id: RowId, now: int): World
    requires id in w.rows
  {
    match DependencyGate(w.rows, w.rows[id])
    case Wait => w
    case Retire(row) => SetRow(w, id, row)
    case Clear =>
      var row := w.rows[id];
      var pc := if row.kind == Text then AtText else AtCheck1;
      w.(rows := w.rows[id := row.(status := Sending, claimedAt := Some(now), token := Some(w.supply))],
         workers := w.workers[w.supply := Worker(id, row.kind, pc)],
         issued := w.issued[w.supply := id],
         supply := w.supply + 1,
         hist := w.hist + multiset{Acquired(id)})
  }

  function AfterDecision(pc: Pc): Pc {
    match pc
    case AtText => SendText
    case AtCheck1 => AtAdmit1
    case AtAdmit1 => SendDoc1
    case AtCheck2 => AtAdmit2
    case AtAdmit2 => SendDoc2
    case _ => pc
  }

  function DecideRow(w: World, token: Unique): World
    requires Working(w, token)
  {
    var worker := w.workers[token];
    var row := w.rows[worker.row];
    var (row', decision) := Decide(w.facts, w.desks[row.conv], worker.row, row, token, Admitting(worker.pc));
    var w1 := SetRow(w, worker.row, row');
    match decision
    case AdmittedNow =>
      MoveTo(w1, token, AfterDecision(worker.pc))
      .(hist := w.hist + multiset{TokenAdmitted(token), RowAdmitted(worker.row)})
    case EligibleNow => MoveTo(w1, token, AfterDecision(worker.pc))
    case _ => Drop(w1, token)
  }

  function AfterSend(pc: Pc, outcome: SendOutcome): Pc {
    match outcome
    case Delivered => AtSuccess
    case InvalidMedia => if pc == SendDoc1 then AtReject else AtFailure(false)
    case SendError => AtFailure(false)
  }

  function CallProvider(w: World, token: Unique, outcome: SendOutcome): World
    requires token in w.workers
  {
    MoveTo(w, token, AfterSend(w.workers[token].pc, outcome))
    .(hist := w.hist + multiset{RowCalled(w.workers[token].row)})
  }

  function DoCommand(w: World, conv: ConvId, command: Command): World
    requires conv in w.desks && FreshCase(w.desks[conv], command)
  {
    match Perform(w.desks[conv], command, w.supply)
    case Applied(desk) => SetDesk(w, conv, desk)
    case Refused(_) => w
  }

  function ReplyRow(conv: ConvId, agent: AgentId, message: MessageId): Row {
    var context := Object(Some(HumanReply), AgentReply, None, None, None, None, OtherVerdict, Some(agent), NoKey);
    FreshRow(conv, message, Text, true, Some(context), 0)
  }

  /** create_agent_message: the row and the audit record that proves its origin, in one commit. */
  function DoReply(w: World, conv: ConvId, agent: AgentId, id: RowId, message: MessageId): World
    requires conv in w.desks
  {
    if ReplySpec(w.desks[conv], agent).Applied? then
      SetRow(w, id, ReplyRow(conv, agent, message))
      .(facts := w.facts.(audits := w.facts.audits + {(id, conv)}))
    else w
  }

  function FailedRow(w: World, s: Settings, id: RowId, now: int, permanent: bool): Row
    requires Located(w, id)
  {
    MarkFailure(w.facts, w.desks[w.rows[id].conv], id, w.rows[id], now, permanent, s)
  }

  function DoReject(w: World, token: Unique): World
    requires Working(w, token)
  {
    match RejectMedia(w.rows[w.workers[token].row], token)
    case None => Drop(w, token)
    case Some(row) => MoveTo(SetRow(w, w.workers[token].row, row), token, AtCheck2)
  }

  function DoSettleOk(w: World, s: Settings, token: Unique, now: int): World
    requires Working(w, token)
  {
    var id := w.workers[token].row;
    var row := w.rows[id];
    if Holds(row, token)
    then Drop(SetRow(w, id, SettleSuccess(w.facts, w.desks[row.conv], id, row, now, s)), token)
    else Drop(w, token)
  }

  function DoSettleFail(w: World, s: Settings, token: Unique, now: int, permanent: bool): World
    requires Working(w, token)
  {
    var id := w.workers[token].row;
    if Holds(w.rows[id], token) then Drop(SetRow(w, id, FailedRow(w, s, id, now, permanent)), token)
    else Drop(w, token)
  }

  ghost function Next(w: World, s: Settings, step: Step): World
    requires Enabled(w, s, step)
  {
    match step
    case HumanCommand(conv, command) => DoCommand(w, conv, command)
    case AgentMessage(conv, agent, id, message) => DoReply(w, conv, agent, id, message)
    case Turn(conv, desk) => SetDesk(w, conv, desk)
    case Reset(customer, top) => ResetCustomer(w, customer, top)
    case OpenConversation(conv, customer) => SetDesk(w, conv, NewDesk(customer, w.supply))
    case PaymentNotice(conv, conflict, settled, top) => DoPaymentNotice(w, conv, conflict, settled, top)
    case Enqueue(id, row) => SetRow(w, id, row)
    case Learn(facts) => w.(facts := facts)
    case Claim(id, now) => ClaimRow(w, id, now)
    case Reap(id, now) => SetRow(w, id, FailedRow(w, s, id, now, false))
    case Decision(token) => DecideRow(w, token)
    case Send(token, outcome) => CallProvider(w, token, outcome)
    case Raise(token, permanent) => MoveTo(w, token, AtFailure(permanent))
    case RejectedByProvider(token) => DoReject(w, token)
    case SettleOk(token, now) => DoSettleOk(w, s, token, now)
    case SettleFail(token, now) => DoSettleFail(w, s, token, now, w.workers[token].pc.permanent)
    case Crash(token) => Drop(w, token)
  }

  /** reset_conversation_by_phone on conversations and cases: every conversation of the customer is
      closed under a new epoch of its own, all drawn below `top`. Outbox rows are not changed. */
  function ResetCustomer(w: World, customer: CustomerId, top: nat): World {
    w.(desks := map c | c in w.desks ::
                  if w.desks[c].conv.customer == customer then ResetDesk(w.desks[c], w.supply + c) else w.desks[c],
       supply := top)
  }

  /** get_or_create_active_conversation, when there is none. */
  function NewDesk(customer: CustomerId, uid: Unique): Desk {
    Desk(Conversation(customer, BotActive, true, None, uid), map[])
  }

  /** One conversation's share of a payment notice: the case of a conflict, then the settlement. */
  function Noticed(d: Desk, conflict: Option<CaseId>, settles: bool, uid: Unique): Desk {
    var waiting := if conflict.Some? && CreateHandoff(d, conflict.value, OtherReason, uid).Applied?
                  then CreateHandoff(d, conflict.value, OtherReason, uid).desk else d;
    if settles then ResolvePayment(waiting, uid + 1) else waiting
  }

  function ConflictOf(c: ConvId, conv: ConvId, conflict: Option<CaseId>): Option<CaseId> {
    if c == conv then conflict else None
  }

  /** notify_booking_payment on conversations and cases: a conflict opens a case in the evidence's
      conversation, then the conversations whose evidence is all reviewed are settled. A transition that
      is not allowed rolls everything back. */
  function DoPaymentNotice(w: World, conv: ConvId, conflict: Option<CaseId>, settled: set<ConvId>, top: nat): World
    requires conv in w.desks
  {
    if conflict.Some? && CreateHandoff(w.desks[conv], conflict.value, OtherReason, w.supply + 4 * conv).Refused? then w
    else
      w.(desks := map c | c in w.desks ::
                    Noticed(w.desks[c], ConflictOf(c, conv, conflict), c in settled, w.supply + 4 * c),
         supply := top)
  }

  // ----- Runs -----

  ghost predicate Initial(w: World, s: Settings) {
    && w.workers == map[] && w.issued == map[] && w.hist == multiset{}
    && (forall c | c in w.desks :: Coherent(w.desks[c]) && w.desks[c].conv.epoch < w.supply)
    && (forall id | id in w.rows ::
          && w.rows[id].token.None? && w.rows[id].admission.None?
          && EpochDrawn(w, w.rows[id])
          && (w.rows[id].status == Pending || w.rows[id].status == Sending ==> w.rows[id].attempts < s.maxAttempts))
  }

  /** A context names only epochs that exist already. */
  predicate EpochDrawn(w: World, row: Row) {
    row.context.Some? && row.context.value.Object? && row.context.value.epoch.Some? ==>
      row.context.value.epoch.value < w.supply
  }

  /** The worlds of a run: one more than its steps. */
  ghost predicate IsRun(s: Settings, worlds: seq<World>, steps: seq<Step>) {
    && |worlds| == |steps| + 1
    && Initial(worlds[0], s)
    && forall i | 0 <= i < |steps| :: StepAt(s, worlds, steps, i)
  }

  ghost predicate StepAt(s: Settings, worlds: seq<World>, steps: seq<Step>, i: nat)
    requires i < |steps| && |worlds| == |steps| + 1
  {
    Enabled(worlds[i], s, steps[i]) && worlds[i+1] == Next(worlds[i], s, steps[i])
  }

  // ----- Stretches of a run -----

  /** These steps lead from one world to the other, each enabled in its turn. */
  ghost predicate Leads(s: Settings, w: World, steps: seq<Step>, w': World)
    decreases |steps|
  {
    if steps == [] then w' == w
    else Enabled(w, s, steps[0]) && Leads(s, Next(w, s, steps[0]), steps[1..], w')
  }

  lemma Prepend(s: Settings, w: World, step: Step, steps: seq<Step>, w': World)
    requires Enabled(w, s, step) && Leads(s, Next(w, s, step), steps, w')
    ensures Leads(s, w, [step] + steps, w')
  {
    assert ([step] + steps)[1..] == steps;
  }

  lemma {:induction false} Chain(s: Settings, w: World, first: seq<Step>, v: World, second: seq<Step>, w': World)
    requires Leads(s, w, first, v) && Leads(s, v, second, w')
    ensures Leads(s, w, first + second, w')
    decreases |first|
  {
    if first == [] {
      assert first + second == second;
    } else {
      Chain(s, Next(w, s, first[0]), first[1..], v, second, w');
      assert (first + second)[1..] == first[1..] + second;
    }
  }
}
