/** Outbox rows: provenance, eligibility, and the row changes each transaction makes
    (app/channel/delivery.py, app/channel/worker.py). */
module Delivery {
  import opened Common
  import opened Ownership

  type RowId = int
  type ConvId = nat
  type MessageId = nat

  datatype Kind = Text | Document

  datatype RowStatus = Pending | Sending | Sent | Failed | Suppressed | Review

  datatype Phase = Admitted | Unknown | RejectedMedia | PhaseSent

  /** send_admission; the token is absent when a media rejection finds no earlier admission. */
  datatype Admission = Admission(token: Option<Unique>, phase: Phase)

  datatype Origin = Auto | HandoffNotice | HumanReply | PaymentEvidenceAck | PaymentReviewResult | OtherOrigin

  datatype Purpose = Template | Catalog | Transfer | AgentReply | EvidenceReceipt | PaymentDecision | OtherPurpose

  datatype Verdict = PendingReview | Accepted | Rejected | OtherVerdict

  /** The JSON value under "after_outbox_id". */
  datatype Dependency = NoKey | Number(n: int) | NotAnInteger

  /** delivery_context. A missing or ill-typed field is None (or the Other... value). */
  datatype Context =
    | NotAnObject
    | Object(origin: Option<Origin>, purpose: Purpose, epoch: Option<Unique>, caseId: Option<CaseId>,
             evidenceId: Option<nat>, handoffId: Option<CaseId>, decision: Verdict, agentId: Option<AgentId>,
             after: Dependency)

  datatype Reason =
    | NoReason
    | LegacyOriginUnproven | InvalidDeliveryContext | InvalidDeliveryOrigin | HumanOriginUnproven
    | AuthorizedHumanReply | PaymentDecisionUnproven | AuthorizedPaymentDecision | UnknownDeliveryOrigin
    | HandoffNoticeUnproven | HandoffNoticeUnrelated | HandoffWaitEnded | AutomaticPurposeUnproven
    | AutomationPeriodUnproven | AutomationPeriodRevoked | AutomationPaused | CurrentAutomationPeriod
    | AckInvalidPurpose | AckInvalidProof | AckHumanActive | AckClosed | AckWaitEnded | AckBotDisabled
    | AckHandoffTaken | AckOtherHandoff | AckEvidenceUnlinked | AckReservationUnrelated | AckNotImage
    | AuthorizedPaymentEvidenceAck
    | PrecedingTextUnproven | PrecedingTextSuppressed | PrecedingTextFailed | PrecedingTextReview
    | ExternalResultUncertain(cause: Reason)

  datatype Row = Row(
    conv: ConvId, message: MessageId, kind: Kind, agentPayload: bool, context: Option<Context>,
    status: RowStatus, attempts: nat, token: Option<Unique>, claimedAt: Option<int>, createdAt: int,
    nextAttempt: Option<int>, admission: Option<Admission>, reason: Reason)

  // ----- Facts that eligibility reads outside the conversation -----

  datatype Evidence = Evidence(
    conv: ConvId, customer: CustomerId, message: MessageId, reservation: Option<nat>, verdict: Verdict,
    reviewer: Option<AgentId>, reviewed: bool)

  datatype MessageFact = MessageFact(conv: ConvId, customer: CustomerId, inbound: bool, image: bool)

  datatype Facts = Facts(
    evidence: map<nat, Evidence>, reservations: map<nat, CustomerId>, messages: map<MessageId, MessageFact>,
    audits: set<(RowId, ConvId)>)

  datatype Settings = Settings(maxAttempts: nat, maxBackoff: nat, sendingTimeout: nat)

  // ----- Eligibility -----

  datatype Result = Eligible | SuppressIt | ReviewIt

  datatype Ruling = Ruling(result: Result, reason: Reason)

  predicate HumanProof(facts: Facts, id: RowId, row: Row) {
    row.kind == Text && row.agentPayload && (id, row.conv) in facts.audits
  }

  const LegacyHumanContext := Object(Some(HumanReply), AgentReply, None, None, None, None, OtherVerdict, None, NoKey)

  /** A row without context adopts one only through an exact audit record of a human reply. */
  function Adopt(facts: Facts, id: RowId, row: Row): Row {
    if row.context.None? && HumanProof(facts, id, row) then row.(context := Some(LegacyHumanContext)) else row
  }

  function PaymentDecisionRuling(facts: Facts, conv: ConvId, customer: CustomerId, row: Row, c: Context): Ruling
    requires c.Object?
  {
    var unproven := Ruling(ReviewIt, PaymentDecisionUnproven);
    if c.evidenceId.None? || c.purpose != PaymentDecision || c.evidenceId.value !in facts.evidence then unproven
    else
      var e := facts.evidence[c.evidenceId.value];
      if e.conv != conv || e.customer != customer || e.message != row.message
         || (e.verdict != Accepted && e.verdict != Rejected) || e.verdict != c.decision
         || c.agentId.None? || e.reviewer != c.agentId || !e.reviewed
      then unproven
      else Ruling(Eligible, AuthorizedPaymentDecision)
  }

  function PaymentAckRuling(facts: Facts, conv: ConvId, d: Desk, row: Row, c: Context): Ruling
    requires c.Object?
  {
    if c.purpose != EvidenceReceipt then Ruling(SuppressIt, AckInvalidPurpose)
    else if c.evidenceId.None? || c.handoffId.None? then Ruling(SuppressIt, AckInvalidProof)
    else if d.conv.state == HumanActive then Ruling(SuppressIt, AckHumanActive)
    else if d.conv.state == Closed then Ruling(SuppressIt, AckClosed)
    else if d.conv.state != WaitingForHuman then Ruling(SuppressIt, AckWaitEnded)
    else if !d.conv.botEnabled then Ruling(SuppressIt, AckBotDisabled)
    else if exists id | id in d.cases :: d.cases[id].status == CaseTaken then Ruling(SuppressIt, AckHandoffTaken)
    else if !OnlyOpen(d, c.handoffId.value) || d.cases[c.handoffId.value].reason != PaymentReview
    then Ruling(SuppressIt, AckOtherHandoff)
    else if c.evidenceId.value !in facts.evidence then Ruling(SuppressIt, AckEvidenceUnlinked)
    else
      var e := facts.evidence[c.evidenceId.value];
      if e.reservation.None? || e.conv != conv || e.customer != d.conv.customer || e.message != row.message
      then Ruling(SuppressIt, AckEvidenceUnlinked)
      else if e.reservation.value !in facts.reservations
              || facts.reservations[e.reservation.value] != d.conv.customer
      then Ruling(SuppressIt, AckReservationUnrelated)
      else if e.message !in facts.messages then Ruling(SuppressIt, AckNotImage)
      else
        var m := facts.messages[e.message];
        if !m.inbound || !m.image || m.customer != d.conv.customer || m.conv != conv
        then Ruling(SuppressIt, AckNotImage)
        else Ruling(Eligible, AuthorizedPaymentEvidenceAck)
  }

  function EpochRuling(d: Desk, c: Context): Ruling
    requires c.Object?
  {
    if c.epoch.None? then Ruling(ReviewIt, AutomationPeriodUnproven)
    else if c.epoch.value != d.conv.epoch then Ruling(SuppressIt, AutomationPeriodRevoked)
    else if c.origin == Some(Auto) && Silent(d.conv) then Ruling(SuppressIt, AutomationPaused)
    else Ruling(Eligible, CurrentAutomationPeriod)
  }

  function NoticeRuling(d: Desk, c: Context): Ruling
    requires c.Object?
  {
    if c.caseId.None? || c.purpose != Transfer then Ruling(ReviewIt, HandoffNoticeUnproven)
    else if c.caseId.value !in d.cases then Ruling(ReviewIt, HandoffNoticeUnrelated)
    else if d.cases[c.caseId.value].status != CasePending || d.conv.state != WaitingForHuman
    then Ruling(SuppressIt, HandoffWaitEnded)
    else EpochRuling(d, c)
  }

  function Eligibility(facts: Facts, d: Desk, id: RowId, row: Row): Ruling {
    match row.context
    case None =>
      if HumanProof(facts, id, row) then Ruling(Eligible, AuthorizedHumanReply)
      else Ruling(ReviewIt, LegacyOriginUnproven)
    case Some(NotAnObject) => Ruling(ReviewIt, InvalidDeliveryContext)
    case Some(c) =>
      match c.origin
      case None => Ruling(ReviewIt, InvalidDeliveryOrigin)
      case Some(HumanReply) =>
        if c.purpose != AgentReply || !HumanProof(facts, id, row) then Ruling(ReviewIt, HumanOriginUnproven)
        else Ruling(Eligible, AuthorizedHumanReply)
      case Some(PaymentEvidenceAck) => PaymentAckRuling(facts, row.conv, d, row, c)
      case Some(PaymentReviewResult) => PaymentDecisionRuling(facts, row.conv, d.conv.customer, row, c)
      case Some(OtherOrigin) => Ruling(ReviewIt, UnknownDeliveryOrigin)
      case Some(HandoffNotice) => NoticeRuling(d, c)
      case Some(Auto) =>
        if c.purpose != Template && c.purpose != Catalog then Ruling(ReviewIt, AutomaticPurposeUnproven)
        else EpochRuling(d, c)
  }

  predicate OriginIs(row: Row, o: Origin) {
    row.context.Some? && row.context.value.Object? && row.context.value.origin == Some(o)
  }

  /** While a human is active only human replies and human payment decisions may be sent. */
  lemma HumanActiveSilencesBot(facts: Facts, d: Desk, id: RowId, row: Row)
    requires d.conv.state == HumanActive && Eligibility(facts, d, id, row).result == Eligible
    ensures OriginIs(Adopt(facts, id, row), HumanReply) || OriginIs(Adopt(facts, id, row), PaymentReviewResult)
  {
  }

  // ----- Row changes -----

  predicate MaybeSent(row: Row) {
    row.admission.Some? && (row.admission.value.phase == Admitted || row.admission.value.phase == Unknown)
  }

  function StatusFor(r: Result): RowStatus
    requires r != Eligible
  {
    if r == SuppressIt then Suppressed else Review
  }

  /** stop_delivery */
  function Stop(row: Row, ruling: Ruling): Row
    requires ruling.result != Eligible
  {
    row.(status := if MaybeSent(row) then Review else StatusFor(ruling.result),
         reason := if MaybeSent(row) then ExternalResultUncertain(ruling.reason) else ruling.reason,
         token := None, claimedAt := None, nextAttempt := None)
  }

  datatype Decision = EligibleNow | AdmittedNow | SuppressedNow | ReviewNow | Discarded

  function Holds(row: Row, token: Unique): bool {
    row.status == Sending && row.token == Some(token)
  }

  function AdmitPhase(row: Row): bool {
    row.admission.Some? && row.admission.value.phase == Admitted
  }

  /** _decide under the canonical locks; `admit` tells admit_outbox from check_outbox. */
  function Decide(facts: Facts, d: Desk, id: RowId, row: Row, token: Unique, admit: bool): (Row, Decision) {
    if !Holds(row, token) || AdmitPhase(row) then (row, Discarded)
    else DecideBy(Eligibility(facts, d, id, row), Adopt(facts, id, row), token, admit)
  }

  function DecideBy(ruling: Ruling, row: Row, token: Unique, admit: bool): (Row, Decision) {
    if ruling.result != Eligible then
      var stopped := Stop(row, ruling);
      (stopped, if stopped.status == Suppressed then SuppressedNow else ReviewNow)
    else if !admit then (row, EligibleNow)
    else (row.(admission := Some(Admission(Some(token), Admitted))), AdmittedNow)
  }

  /** reject_media_admission */
  function RejectMedia(row: Row, token: Unique): Option<Row> {
    if !Holds(row, token) then None
    else
      var t := if row.admission.Some? then row.admission.value.token else None;
      Some(row.(admission := Some(Admission(t, RejectedMedia))))
  }

  function WithPhase(row: Row, p: Phase): Row {
    if row.admission.Some? then row.(admission := Some(row.admission.value.(phase := p))) else row
  }

  /** _mark_outbox_failure_locked */
  function MarkFailure(facts: Facts, d: Desk, id: RowId, row: Row, now: int, permanent: bool, s: Settings): Row {
    FailBy(Eligibility(facts, d, id, row), Adopt(facts, id, row), now, permanent, s)
  }

  function FailBy(ruling: Ruling, row: Row, now: int, permanent: bool, s: Settings): Row {
    if ruling.result != Eligible then
      var stopped := Stop(row, ruling);
      if AdmitPhase(stopped) then WithPhase(stopped, Unknown).(attempts := stopped.attempts + 1) else stopped
    else
      var marked := if AdmitPhase(row) then WithPhase(row, Unknown) else row;
      var released := marked.(token := None, attempts := marked.attempts + 1, claimedAt := None);
      if permanent || released.attempts >= s.maxAttempts then released.(status := Failed, nextAttempt := None)
      else released.(status := Pending, nextAttempt := Some(now + Backoff(released.attempts, s.maxBackoff)))
  }

  /** settle_outbox_success; a missing input message is settled as a failure. */
  function SettleSuccess(facts: Facts, d: Desk, id: RowId, row: Row, now: int, s: Settings): Row {
    if row.message !in facts.messages then MarkFailure(facts, d, id, row, now, false, s)
    else WithPhase(row, PhaseSent).(status := Sent, token := None, claimedAt := None, nextAttempt := None)
  }

  function Stale(row: Row, cutoff: int): bool {
    (row.claimedAt.Some? && row.claimedAt.value < cutoff) ||
    (row.claimedAt.None? && row.token.None? && row.createdAt < cutoff)
  }

  // ----- Text before document -----

  const MaxRowId: int := 2147483647

  datatype Gate = Clear | Wait | Retire(row: Row)

  predicate PrecedingText(rows: map<RowId, Row>, row: Row, n: int) {
    && n in rows && rows[n].kind == Text && rows[n].conv == row.conv && rows[n].message == row.message
  }

  function DependencyOf(row: Row): Dependency {
    if row.context.Some? && row.context.value.Object? then row.context.value.after else NoKey
  }

  /** _dependency_blocks_claim */
  function DependencyGate(rows: map<RowId, Row>, row: Row): Gate {
    var unproven := Retire(Stop(row, Ruling(ReviewIt, PrecedingTextUnproven)));
    match DependencyOf(row)
    case NoKey => Clear
    case NotAnInteger => unproven
    case Number(n) =>
      if row.kind != Document || !(0 < n <= MaxRowId) then unproven
      else if !PrecedingText(rows, row, n) then unproven
      else
        match rows[n].status
        case Sent => Clear
        case Pending => Wait
        case Sending => Wait
        case Suppressed =>
          Retire(Stop(row, Ruling(SuppressIt,
                                  if rows[n].reason == NoReason then PrecedingTextSuppressed else rows[n].reason)))
        case Failed => Retire(Stop(row, Ruling(SuppressIt, PrecedingTextFailed)))
        case Review => Retire(Stop(row, Ruling(ReviewIt, PrecedingTextReview)))
  }

  /** The SQL cast: only a JSON integer of one to ten digits without leading zero. */
  function SqlDependency(row: Row): Option<int> {
    match DependencyOf(row)
    case Number(n) => if 1 <= n <= 9999999999 then Some(n) else None
    case _ => None
  }

  predicate Due(row: Row, now: int) {
    row.nextAttempt.None? || row.nextAttempt.value <= now
  }

  predicate TextBlocked(rows: map<RowId, Row>, row: Row) {
    var dep := SqlDependency(row);
    && dep.Some? && PrecedingText(rows, row, dep.value)
    && rows[dep.value].status != Pending && rows[dep.value].status != Sending && rows[dep.value].status != Sent
  }

  /** The WHERE clause of claim_due_outbox_batch. */
  predicate Selected(rows: map<RowId, Row>, row: Row, now: int) {
    var dep := SqlDependency(row);
    && row.status == Pending
    && (Due(row, now) || TextBlocked(rows, row))
    && (dep.None? || !PrecedingText(rows, row, dep.value)
        || (rows[dep.value].status != Pending && rows[dep.value].status != Sending))
  }

  /** The WHERE clause drops, among due or text-blocked pending documents, exactly the rows on which
      the check under the row lock would change nothing. Row ids are 32-bit primary keys. */
  lemma PrefilterIsExact(rows: map<RowId, Row>, row: Row, now: int)
    requires forall n | n in rows :: 0 < n <= MaxRowId
    requires row.kind == Document && row.status == Pending
    requires Due(row, now) || TextBlocked(rows, row)
    ensures Selected(rows, row, now) <==> DependencyGate(rows, row) != Wait
  {
  }

  /** A predecessor that ended without being sent never strands its document: the document is
      selected on the next pass, whatever its retry time, and that pass retires it. */
  lemma BlockedDocumentIsRetired(rows: map<RowId, Row>, row: Row, n: int, now: int)
    requires row.status == Pending && row.kind == Document && DependencyOf(row) == Number(n) && 0 < n <= MaxRowId
    requires PrecedingText(rows, row, n)
    requires rows[n].status == Failed || rows[n].status == Suppressed || rows[n].status == Review
    ensures Selected(rows, row, now) && DependencyGate(rows, row).Retire?
    ensures DependencyGate(rows, row).row.status == Suppressed || DependencyGate(rows, row).row.status == Review
    ensures DependencyGate(rows, row).row.status == Suppressed <==> rows[n].status != Review && !MaybeSent(row)
  {
  }
}
