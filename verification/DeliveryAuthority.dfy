/** Exactly those are heard who may speak: what the five authorities come to in the transactions of the outbox
    protocol and over its runs. */
module DeliveryAuthority {
  import opened Common
  import opened Ownership
  import opened Delivery
  import opened Authority
  import opened DeliveryProtocol
  import opened DeliverySafety
  import opened DeliveryRuns

  // ----- One decision -----

  predicate Speaks(w: World, id: RowId)
    requires Located(w, id)
  {
    MaySpeak(w.facts, w.desks[w.rows[id].conv], id, w.rows[id])
  }

  /** The step is a decision about this row under the row's own token, with no send under way. */
  predicate Decides(w: World, step: Step, id: RowId) {
    && step.Decision? && step.token in w.workers && w.workers[step.token].row == id && id in w.rows
    && w.rows[id].status == Sending && w.rows[id].token == Some(step.token)
    && !(w.rows[id].admission.Some? && w.rows[id].admission.value.phase == Admitted)
  }

  /** What a decision does to its row and to the counts. */
  lemma DecisionOutcome(w: World, s: Settings, token: Unique)
    requires Enabled(w, s, Decision(token))
    ensures var id, w' := w.workers[token].row, Next(w, s, Decision(token));
            && id in w'.rows
            && (!Decides(w, Decision(token), id) ==> w'.rows == w.rows && w'.hist == w.hist && token !in w'.workers)
            && (Decides(w, Decision(token), id) && Speaks(w, id) ==>
                  && w'.rows[id].status == Sending && w'.rows[id].token == Some(token) && token in w'.workers
                  && (if Admitting(w.workers[token].pc)
                      then w'.rows[id].admission == Some(Admission(Some(token), Admitted))
                           && w'.hist == w.hist + multiset{TokenAdmitted(token), RowAdmitted(id)}
                      else w'.rows[id].admission == w.rows[id].admission && w'.hist == w.hist))
            && (Decides(w, Decision(token), id) && !Speaks(w, id) ==>
                  && w'.rows[id].token.None? && token !in w'.workers && w'.hist == w.hist
                  && w'.rows[id].status ==
                       if TimeIsOver(w.facts, w.desks[w.rows[id].conv], w.rows[id])
                          && !(w.rows[id].admission.Some? && w.rows[id].admission.value.phase == Unknown)
                       then Suppressed else Review)
  {
    var id := w.workers[token].row;
    EligibleIff(w.facts, w.desks[w.rows[id].conv], id, w.rows[id]);
    assert w.rows[id := w.rows[id]] == w.rows;
  }

  /** A row is admitted in a step exactly when the step is the deciding transaction for it and one of the five
      authorities stands at that moment; and then once. */
  lemma AdmittedIff(w: World, s: Settings, step: Step, id: RowId)
    requires Enabled(w, s, step) && Located(w, id)
    ensures Next(w, s, step).hist[RowAdmitted(id)] ==
              w.hist[RowAdmitted(id)]
              + (if Decides(w, step, id) && Admitting(w.workers[step.token].pc) && Speaks(w, id) then 1 else 0)
  {
    if step.Decision? {
      DecisionOutcome(w, s, step.token);
    } else {
      OnlyDecisionsAdmit(w, s, step, id);
    }
  }

  // ----- Human replies over runs -----

  lemma AuditStep(w: World, s: Settings, step: Step, id: RowId, c: ConvId)
    requires Enabled(w, s, step)
    ensures (id, c) in Next(w, s, step).facts.audits <==>
              (id, c) in w.facts.audits
              || (step.AgentMessage? && step.id == id && step.conv == c && ReplySpec(w.desks[c], step.agent).Applied?)
  {
    if TokenTransaction(step) { AuditsKeptByToken(w, s, step); }
  }

  lemma AuditsKeptByToken(w: World, s: Settings, step: Step)
    requires Enabled(w, s, step) && TokenTransaction(step)
    ensures Next(w, s, step).facts == w.facts
  {
  }

  /** The active agent of the conversation writes a message. */
  predicate OwnerWrites(w: World, step: Step, id: RowId, c: ConvId) {
    && step.AgentMessage? && step.id == id && step.conv == c && c in w.desks
    && w.desks[c].conv.state == HumanActive && w.desks[c].conv.agent == Some(step.agent)
  }

  lemma OwnerIsAccepted(w: World, s: Settings, step: Step)
    requires Inv(w, s) && Enabled(w, s, step) && step.AgentMessage?
    ensures ReplySpec(w.desks[step.conv], step.agent).Applied? <==> OwnerWrites(w, step, step.id, step.conv)
  {
    assert DeskOk(w, step.conv);
    var d := w.desks[step.conv];
    if Coherent(d) && d.conv.state == HumanActive { var id := HeldIsOwned(d); }
  }

  lemma VoiceStep(w: World, s: Settings, step: Step, id: RowId)
    requires Inv(w, s) && Enabled(w, s, step) && Located(w, id)
    ensures var w' := Next(w, s, step);
            && Located(w', id) && SameVoice(w.rows[id], w'.rows[id])
            && forall c | (id, c) in w.facts.audits :: (id, c) in w'.facts.audits
  {
    RowStep(w, s, step, id);
    DesksStay(w, s, step, w.rows[id].conv);
    forall c | (id, c) in w.facts.audits ensures (id, c) in Next(w, s, step).facts.audits { AuditStep(w, s, step, id, c); }
  }

  lemma {:induction false} VoicePersists(s: Settings, worlds: seq<World>, steps: seq<Step>, i: nat, j: nat, id: RowId)
    requires s.maxAttempts >= 1 && IsRun(s, worlds, steps) && i <= j < |worlds| && Located(worlds[i], id)
    ensures Located(worlds[j], id) && SameVoice(worlds[i].rows[id], worlds[j].rows[id])
    ensures forall c | (id, c) in worlds[i].facts.audits :: (id, c) in worlds[j].facts.audits
    decreases j
  {
    if i < j {
      VoicePersists(s, worlds, steps, i, j - 1, id);
      RunInv(s, worlds, steps, j - 1);
      assert StepAt(s, worlds, steps, j - 1);
      VoiceStep(worlds[j-1], s, steps[j-1], id);
    }
  }

  /** An agent is heard. The message of the active agent, and nobody else's, becomes a pending row; and in every
      later world, whoever has taken over meanwhile, that row may speak, so the decision under its token
      admits it. */
  lemma AgentIsHeard(s: Settings, worlds: seq<World>, steps: seq<Step>, i: nat, j: nat, id: RowId, c: ConvId)
    requires s.maxAttempts >= 1 && IsRun(s, worlds, steps) && i < j < |worlds|
    requires steps[i].AgentMessage? && steps[i].id == id && steps[i].conv == c
    ensures id in worlds[i+1].rows <==> OwnerWrites(worlds[i], steps[i], id, c)
    ensures OwnerWrites(worlds[i], steps[i], id, c) ==>
              && worlds[i+1].rows[id].status == Pending && worlds[i+1].rows[id].conv == c
              && worlds[i+1].rows[id].message == steps[i].message
              && Located(worlds[j], id) && Speaks(worlds[j], id)
  {
    var w := worlds[i];
    assert StepAt(s, worlds, steps, i);
    RunInv(s, worlds, steps, i);
    OwnerIsAccepted(w, s, steps[i]);
    AuditStep(w, s, steps[i], id, c);
    if OwnerWrites(w, steps[i], id, c) {
      assert AgentSpoke(worlds[i+1].facts, id, worlds[i+1].rows[id]);
      VoicePersists(s, worlds, steps, i + 1, j, id);
    }
  }

  lemma {:induction false} AuditsAreReplies(
    s: Settings, worlds: seq<World>, steps: seq<Step>, j: nat, id: RowId, c: ConvId) returns (i: nat)
    requires s.maxAttempts >= 1 && IsRun(s, worlds, steps) && j < |worlds|
    requires (id, c) in worlds[j].facts.audits && (id, c) !in worlds[0].facts.audits
    ensures i < j && OwnerWrites(worlds[i], steps[i], id, c)
  {
    assert StepAt(s, worlds, steps, j - 1);
    RunInv(s, worlds, steps, j - 1);
    AuditStep(worlds[j-1], s, steps[j-1], id, c);
    if (id, c) in worlds[j-1].facts.audits {
      i := AuditsAreReplies(s, worlds, steps, j - 1, id, c);
    } else {
      i := j - 1;
      OwnerIsAccepted(worlds[i], s, steps[i]);
    }
  }

  /** Nobody speaks in an agent's name. A row of human origin is admitted only as the text that the active agent
      of its conversation wrote in an earlier step of the run (or before the run began). */
  lemma HumanVoiceIsReal(s: Settings, worlds: seq<World>, steps: seq<Step>, j: nat, id: RowId) returns (i: nat)
    requires s.maxAttempts >= 1 && IsRun(s, worlds, steps) && j < |steps| && Located(worlds[j], id)
    requires worlds[j+1].hist[RowAdmitted(id)] != worlds[j].hist[RowAdmitted(id)]
    requires worlds[j].rows[id].context.None? || OriginIs(worlds[j].rows[id], HumanReply)
    ensures worlds[j].rows[id].kind == Text && worlds[j].rows[id].agentPayload
    ensures var c := worlds[j].rows[id].conv;
            (id, c) in worlds[0].facts.audits || (i < j && OwnerWrites(worlds[i], steps[i], id, c))
  {
    assert StepAt(s, worlds, steps, j);
    AdmittedIff(worlds[j], s, steps[j], id);
    i := 0;
    if (id, worlds[j].rows[id].conv) !in worlds[0].facts.audits {
      i := AuditsAreReplies(s, worlds, steps, j, id, worlds[j].rows[id].conv);
    }
  }

  // ----- Automatic output over runs -----

  /** Nothing that matters to automatic output changed: the bot speaks as before, and whoever was waited for
      is waited for. */
  predicate SamePeriod(d: Desk, d': Desk) {
    Silent(d'.conv) == Silent(d.conv)
    && (Paused(d.conv.state) || Paused(d'.conv.state) ==> d'.conv.state == d.conv.state)
  }

  predicate PeriodMoves(supply: Unique, d: Desk, d': Desk) {
    if d'.conv.epoch == d.conv.epoch then SamePeriod(d, d') else supply <= d'.conv.epoch
  }

  lemma CommandPeriod(d: Desk, command: Command, uid: Unique)
    requires d.conv.epoch < uid && FreshCase(d, command) && Perform(d, command, uid).Applied?
    ensures PeriodMoves(uid, d, Perform(d, command, uid).desk)
  {
  }

  lemma TurnPeriod(d: Desk, d': Desk, uid: Unique)
    requires d.conv.epoch < uid && TurnContract(d, d', uid)
    ensures PeriodMoves(uid, d, d')
  {
  }

  lemma NoticePeriod(d: Desk, conflict: Option<CaseId>, settles: bool, uid: Unique)
    requires d.conv.epoch < uid
    ensures PeriodMoves(uid, d, Noticed(d, conflict, settles, uid))
  {
  }

  /** A period's epoch stands for it: while the epoch is the same so is what matters, and once it has changed
      it is one never seen before. */
  lemma PeriodStep(w: World, s: Settings, step: Step, c: ConvId)
    requires Inv(w, s) && Enabled(w, s, step) && c in w.desks
    ensures c in Next(w, s, step).desks && w.supply <= Next(w, s, step).supply
    ensures PeriodMoves(w.supply, w.desks[c], Next(w, s, step).desks[c])
  {
    assert DeskOk(w, c);
    SupplyStep(w, s, step);
    if step.HumanCommand? {
      CommandMoves(w, step.conv, step.command, c);
    } else if step.PaymentNotice? {
      NoticeMoves(w, step.conv, step.conflict, step.settled, step.top, c);
    } else if step.Turn? {
      TurnPeriod(w.desks[step.conv], step.desk, w.supply);
    } else if step.Reset? {
      ResetMoves(w, step.customer, step.top, c);
    } else if !TouchesDesks(step) {
      DesksUntouched(w, s, step);
    }
  }

  lemma ResetMoves(w: World, customer: CustomerId, top: nat, c: ConvId)
    requires c in w.desks && w.desks[c].conv.epoch < w.supply
    ensures PeriodMoves(w.supply, w.desks[c], ResetCustomer(w, customer, top).desks[c])
  {
  }

  lemma NoticeMoves(w: World, conv: ConvId, conflict: Option<CaseId>, settled: set<ConvId>, top: nat, c: ConvId)
    requires conv in w.desks && c in w.desks && w.desks[c].conv.epoch < w.supply
    ensures c in DoPaymentNotice(w, conv, conflict, settled, top).desks
    ensures PeriodMoves(w.supply, w.desks[c], DoPaymentNotice(w, conv, conflict, settled, top).desks[c])
  {
    NoticeUnfolds(w, conv, conflict, settled, top, c);
    NoticePeriod(w.desks[c], ConflictOf(c, conv, conflict), c in settled, w.supply + 4 * c);
  }

  lemma CommandMoves(w: World, conv: ConvId, command: Command, c: ConvId)
    requires conv in w.desks && c in w.desks && FreshCase(w.desks[conv], command) && w.desks[conv].conv.epoch < w.supply
    ensures PeriodMoves(w.supply, w.desks[c], DoCommand(w, conv, command).desks[c])
  {
    if Perform(w.desks[conv], command, w.supply).Applied? { CommandPeriod(w.desks[conv], command, w.supply); }
  }

  lemma SupplyStep(w: World, s: Settings, step: Step)
    requires Enabled(w, s, step)
    ensures w.supply <= Next(w, s, step).supply
  {
  }

  lemma {:induction false} PeriodStands(s: Settings, worlds: seq<World>, steps: seq<Step>, i: nat, j: nat, c: ConvId)
    requires s.maxAttempts >= 1 && IsRun(s, worlds, steps) && i <= j < |worlds| && c in worlds[i].desks
    ensures c in worlds[j].desks && worlds[i].supply <= worlds[j].supply
    ensures PeriodMoves(worlds[i].supply, worlds[i].desks[c], worlds[j].desks[c])
    decreases j
  {
    if i < j {
      PeriodStands(s, worlds, steps, i, j - 1, c);
      RunInv(s, worlds, steps, i);
      RunInv(s, worlds, steps, j - 1);
      assert DeskOk(worlds[i], c);
      assert StepAt(s, worlds, steps, j - 1);
      PeriodStep(worlds[j-1], s, steps[j-1], c);
    }
  }

  /** Automatic output produced while the bot speaks may be sent at any later moment exactly while the period
      it was produced in still runs; output produced in silence never. */
  lemma OutputIsHeardInItsPeriod(s: Settings, worlds: seq<World>, steps: seq<Step>, i: nat, j: nat, id: RowId, row: Row)
    requires s.maxAttempts >= 1 && IsRun(s, worlds, steps) && i < j < |worlds| && steps[i] == Enqueue(id, row)
    requires OriginIs(row, Auto) && (row.context.value.purpose == Template || row.context.value.purpose == Catalog)
    ensures Located(worlds[j], id) && row.conv in worlds[i].desks && worlds[j].rows[id].conv == row.conv
    ensures Speaks(worlds[j], id) <==>
              worlds[j].desks[row.conv].conv.epoch == worlds[i].desks[row.conv].conv.epoch
              && !Silent(worlds[i].desks[row.conv].conv)
  {
    assert StepAt(s, worlds, steps, i);
    VoicePersists(s, worlds, steps, i + 1, j, id);
    PeriodStands(s, worlds, steps, i, j, row.conv);
  }

  /** A conversation that intake opens is the bot's: active, enabled, nobody's, without cases, in a period of its
      own, so that output produced in it is heard. */
  lemma OpenedSpeaks(w: World, s: Settings, conv: ConvId, customer: CustomerId)
    requires Inv(w, s) && Enabled(w, s, OpenConversation(conv, customer))
    ensures var w' := Next(w, s, OpenConversation(conv, customer));
            && conv in w'.desks && w'.desks[conv] == Desk(Conversation(customer, BotActive, true, None, w.supply), map[])
            && (forall c | c in w.desks :: w'.desks[c] == w.desks[c] && w.desks[c].conv.epoch < w'.desks[conv].conv.epoch)
            && w'.rows == w.rows
  {
    forall c | c in w.desks ensures w.desks[c].conv.epoch < w.supply { assert DeskOk(w, c); }
  }

  /** The notice of a transfer may be sent exactly while its case is pending in the period in which the
      customer was told to wait. */
  lemma NoticeIsHeardWhileAwaited(
    s: Settings, worlds: seq<World>, steps: seq<Step>, i: nat, j: nat, id: RowId, row: Row, k: CaseId)
    requires s.maxAttempts >= 1 && IsRun(s, worlds, steps) && i < j < |worlds| && steps[i] == Enqueue(id, row)
    requires OriginIs(row, HandoffNotice) && row.context.value.purpose == Transfer && row.context.value.caseId == Some(k)
    ensures Located(worlds[j], id) && row.conv in worlds[i].desks && worlds[j].rows[id].conv == row.conv
    ensures Speaks(worlds[j], id) <==>
              && worlds[i].desks[row.conv].conv.state == WaitingForHuman
              && worlds[j].desks[row.conv].conv.epoch == worlds[i].desks[row.conv].conv.epoch
              && k in worlds[j].desks[row.conv].cases && worlds[j].desks[row.conv].cases[k].status == CasePending
  {
    assert StepAt(s, worlds, steps, i);
    VoicePersists(s, worlds, steps, i + 1, j, id);
    PeriodStands(s, worlds, steps, i, j, row.conv);
  }

  // ----- Failed deliveries are tried again -----

  /** A delivery fails in this step: its claim goes stale, or its worker reports a failure it may still report. */
  predicate DeliveryFails(w: World, step: Step, id: RowId, now: int, permanent: bool) {
    match step
    case Reap(r, t) => r == id && t == now && !permanent
    case SettleFail(token, t) =>
      t == now && token in w.workers && w.workers[token].row == id && w.workers[token].pc == AtFailure(permanent)
      && id in w.rows && w.rows[id].status == Sending && w.rows[id].token == Some(token)
    case _ => false
  }

  /** A delivery that fails while it may still speak counts once, and a send that was under way is marked
      uncertain. Below the limit, unless the failure is permanent, the row is due again from `delay` seconds on
      and not before; otherwise it is FAILED. One that may no longer speak is stopped for good. */
  lemma DeliveryIsRetried(w: World, s: Settings, step: Step, id: RowId, now: int, permanent: bool) returns (delay: nat)
    requires Enabled(w, s, step) && Located(w, id) && DeliveryFails(w, step, id, now, permanent)
    ensures delay <= s.maxBackoff && (s.maxBackoff > 0 ==> delay > 0)
    ensures w.rows[id].attempts == 0 && s.maxBackoff >= 2 ==> delay == 2
    ensures id in Next(w, s, step).rows
    ensures var r := Next(w, s, step).rows[id];
            && r.token.None?
            && (Speaks(w, id) ==>
                  && r.attempts == w.rows[id].attempts + 1 && !AdmitPhase(r)
                  && (if permanent || w.rows[id].attempts + 1 >= s.maxAttempts then r.status == Failed
                      else r.status == Pending && forall t :: Due(r, t) <==> now + delay <= t))
            && (!Speaks(w, id) ==>
                  r.status == if TimeIsOver(w.facts, w.desks[w.rows[id].conv], w.rows[id]) && !MaybeSent(w.rows[id])
                              then Suppressed else Review)
  {
    delay := FailedRowOutcome(w.facts, w.desks[w.rows[id].conv], id, w.rows[id], now, permanent, s);
  }

  /** The reaper takes exactly the SENDING rows whose claim is older than the timeout, or which never had one and
      were created before that. */
  lemma ReapableIff(w: World, s: Settings, id: RowId, now: int)
    requires Located(w, id)
    ensures Enabled(w, s, Reap(id, now)) <==>
              && w.rows[id].status == Sending
              && match w.rows[id].claimedAt
                 case Some(at) => at + s.sendingTimeout < now
                 case None => w.rows[id].token.None? && w.rows[id].createdAt + s.sendingTimeout < now
  {
  }

  /** A reported success of a row still held makes it SENT, once its input message is known. */
  lemma SuccessIsSent(w: World, s: Settings, token: Unique, now: int)
    requires Enabled(w, s, SettleOk(token, now))
    ensures var id, w' := w.workers[token].row, Next(w, s, SettleOk(token, now));
            && id in w'.rows && token !in w'.workers
            && (w.rows[id].status == Sending && w.rows[id].token == Some(token) && w.rows[id].message in w.facts.messages
                ==> w'.rows[id].status == Sent && w'.rows[id].token.None? && SameVoice(w.rows[id], w'.rows[id]))
            && (!(w.rows[id].status == Sending && w.rows[id].token == Some(token)) ==> w'.rows == w.rows)
  {
  }
}
