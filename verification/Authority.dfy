/** Who may speak to a customer: the five kinds of authority that the eligibility check of
    app/channel/delivery.py looks for, each stated by the facts that give it. */
module Authority {
  import opened Common
  import opened Ownership
  import opened Delivery

  /** A text typed by an agent in the panel, as the audit record of that very row proves. */
  predicate AgentSpoke(facts: Facts, id: RowId, row: Row) {
    && row.kind == Text && row.agentPayload && (id, row.conv) in facts.audits
    && (row.context.None? || (OriginIs(row, HumanReply) && row.context.value.purpose == AgentReply))
  }

  /** Automatic output of the period that is still running, while nothing silences the bot. */
  predicate BotSpeaks(d: Desk, row: Row) {
    && OriginIs(row, Auto) && (row.context.value.purpose == Template || row.context.value.purpose == Catalog)
    && row.context.value.epoch == Some(d.conv.epoch)
    && d.conv.botEnabled && d.conv.state != WaitingForHuman && d.conv.state != HumanActive && d.conv.state != Closed
  }

  /** The notice of a transfer that the customer is still waiting for. */
  predicate TransferAwaited(d: Desk, row: Row) {
    && OriginIs(row, HandoffNotice) && row.context.value.purpose == Transfer
    && row.context.value.epoch == Some(d.conv.epoch) && d.conv.state == WaitingForHuman
    && row.context.value.caseId.Some? && row.context.value.caseId.value in d.cases
    && d.cases[row.context.value.caseId.value].status == CasePending
  }

  /** A payment decision as it is recorded: the same verdict by the same reviewer on the evidence that came
      with this message. */
  predicate DecisionRecorded(facts: Facts, d: Desk, row: Row) {
    && OriginIs(row, PaymentReviewResult) && row.context.value.purpose == PaymentDecision
    && row.context.value.agentId.Some?
    && (row.context.value.decision == Accepted || row.context.value.decision == Rejected)
    && row.context.value.evidenceId.Some? && row.context.value.evidenceId.value in facts.evidence
    && var e := facts.evidence[row.context.value.evidenceId.value];
    && e.conv == row.conv && e.customer == d.conv.customer && e.message == row.message
    && e.verdict == row.context.value.decision && e.reviewer == row.context.value.agentId && e.reviewed
  }

  /** A receipt that is still due: the payment review it names is the only open case, nobody took it, and the
      evidence is an image of this customer, in this conversation, for a reservation of theirs. */
  predicate ReceiptDue(facts: Facts, d: Desk, row: Row) {
    && OriginIs(row, PaymentEvidenceAck) && row.context.value.purpose == EvidenceReceipt
    && row.context.value.handoffId.Some? && row.context.value.evidenceId.Some?
    && d.conv.state == WaitingForHuman && d.conv.botEnabled
    && row.context.value.handoffId.value in d.cases
    && d.cases[row.context.value.handoffId.value].status == CasePending
    && d.cases[row.context.value.handoffId.value].reason == PaymentReview
    && (forall k | k in d.cases && k != row.context.value.handoffId.value ::
          d.cases[k].status == CaseReturned || d.cases[k].status == CaseResolved)
    && row.context.value.evidenceId.value in facts.evidence
    && var e := facts.evidence[row.context.value.evidenceId.value];
    && e.conv == row.conv && e.customer == d.conv.customer && e.message == row.message
    && e.reservation.Some? && e.reservation.value in facts.reservations
    && facts.reservations[e.reservation.value] == d.conv.customer
    && row.message in facts.messages
    && facts.messages[row.message] == MessageFact(row.conv, d.conv.customer, true, true)
  }

  predicate MaySpeak(facts: Facts, d: Desk, id: RowId, row: Row) {
    AgentSpoke(facts, id, row) || BotSpeaks(d, row) || TransferAwaited(d, row) || DecisionRecorded(facts, d, row)
    || ReceiptDue(facts, d, row)
  }

  /** Well-formed output whose time is over: its period has ended or is silenced, its case is no longer
      awaited, or the receipt is not due. */
  predicate TimeIsOver(facts: Facts, d: Desk, row: Row) {
    || (OriginIs(row, Auto) && (row.context.value.purpose == Template || row.context.value.purpose == Catalog)
        && row.context.value.epoch.Some? && !BotSpeaks(d, row))
    || (OriginIs(row, HandoffNotice) && row.context.value.purpose == Transfer && row.context.value.caseId.Some?
        && row.context.value.caseId.value in d.cases
        && (d.cases[row.context.value.caseId.value].status != CasePending || d.conv.state != WaitingForHuman
            || (row.context.value.epoch.Some? && row.context.value.epoch.value != d.conv.epoch)))
    || (OriginIs(row, PaymentEvidenceAck) && !ReceiptDue(facts, d, row))
  }

  lemma ReceiptRuling(facts: Facts, d: Desk, id: RowId, row: Row)
    requires OriginIs(row, PaymentEvidenceAck)
    ensures Eligibility(facts, d, id, row).result == if ReceiptDue(facts, d, row) then Eligible else SuppressIt
  {
    var c := row.context.value;
    if ReceiptDue(facts, d, row) {
      assert OnlyOpen(d, c.handoffId.value);
    } else if c.handoffId.Some? && OnlyOpen(d, c.handoffId.value) && !(exists k | k in d.cases :: d.cases[k].status == CaseTaken) {
      assert d.cases[c.handoffId.value].status == CasePending;
      forall k | k in d.cases && k != c.handoffId.value
        ensures d.cases[k].status == CaseReturned || d.cases[k].status == CaseResolved
      {
        assert !Open(d.cases[k]);
      }
    }
  }

  /** The eligibility check finds exactly these: it lets a row through when one of the five authorities stands,
      suppresses it when its time is over, and asks for review when it never was proven. */
  lemma EligibleIff(facts: Facts, d: Desk, id: RowId, row: Row)
    ensures Eligibility(facts, d, id, row).result == if MaySpeak(facts, d, id, row) then Eligible
                                                     else if TimeIsOver(facts, d, row) then SuppressIt else ReviewIt
  {
    if OriginIs(row, PaymentEvidenceAck) { ReceiptRuling(facts, d, id, row); }
  }

  /** While a human is active the active agents' replies and the recorded decisions are heard, and nobody else. */
  lemma HumanActiveHears(facts: Facts, d: Desk, id: RowId, row: Row)
    requires d.conv.state == HumanActive
    ensures Eligibility(facts, d, id, row).result == Eligible <==>
              AgentSpoke(facts, id, row) || DecisionRecorded(facts, d, row)
  {
    EligibleIff(facts, d, id, row);
  }

  /** The columns by which a row speaks. */
  predicate SameVoice(r: Row, r': Row) {
    r'.conv == r.conv && r'.message == r.message && r'.kind == r.kind && r'.agentPayload == r.agentPayload
    && (r.context.Some? ==> r'.context == r.context)
  }

  /** A delivery that fails while its row may speak counts once, marks a send that was under way as uncertain,
      and is due again after the delay unless the failure is permanent or the last; otherwise the row is stopped
      for good. */
  lemma FailedRowOutcome(facts: Facts, d: Desk, id: RowId, row: Row, now: int, permanent: bool, s: Settings)
    returns (delay: nat)
    requires row.status == Sending
    ensures delay <= s.maxBackoff && (s.maxBackoff > 0 ==> delay > 0)
    ensures row.attempts == 0 && s.maxBackoff >= 2 ==> delay == 2
    ensures var r := MarkFailure(facts, d, id, row, now, permanent, s);
            && r.token.None? && SameVoice(row, r)
            && (MaySpeak(facts, d, id, row) ==>
                  && r.attempts == row.attempts + 1
                  && (row.admission.Some? ==>
                        r.admission == Some(if row.admission.value.phase == Admitted
                                            then row.admission.value.(phase := Unknown) else row.admission.value))
                  && (if permanent || row.attempts + 1 >= s.maxAttempts then r.status == Failed
                      else r.status == Pending && r.nextAttempt == Some(now + delay)))
            && (!MaySpeak(facts, d, id, row) ==>
                  r.status == if TimeIsOver(facts, d, row) && !MaybeSent(row) then Suppressed else Review)
  {
    delay := Backoff(row.attempts + 1, s.maxBackoff);
    BackoffDoubles(row.attempts, s.maxBackoff);
    BackoffDoubles(row.attempts + 1, s.maxBackoff);
    EligibleIff(facts, d, id, row);
  }

  /** A document whose preceding text cannot be proven is taken out for review, never sent. */
  lemma UnprovenDocumentIsReviewed(rows: map<RowId, Row>, row: Row, n: int)
    requires DependencyOf(row) == NotAnInteger || DependencyOf(row) == Number(n)
    requires DependencyOf(row) == Number(n) ==>
               row.kind != Document || n <= 0 || n > 2147483647
               || n !in rows || rows[n].kind != Text || rows[n].conv != row.conv || rows[n].message != row.message
    ensures DependencyGate(rows, row).Retire? && DependencyGate(rows, row).row.status == Review
    ensures DependencyGate(rows, row).row.token.None?
  {
  }
}
