/** What the outbox protocol guarantees over every run: any number of workers, crashes, reaps,
    human commands, resets and turns, in any order. */
module DeliveryRuns {
  import opened Common
  import opened Ownership
  import opened Delivery
  import opened DeliveryProtocol
  import opened DeliverySafety

  /** Every world of every run satisfies the invariant. */
  lemma {:induction false} RunInv(s: Settings, worlds: seq<World>, steps: seq<Step>, i: nat)
    requires s.maxAttempts >= 1 && IsRun(s, worlds, steps) && i < |worlds|
    ensures Inv(worlds[i], s)
  {
    if i == 0 {
      InitialInv(worlds[0], s);
    } else {
      RunInv(s, worlds, steps, i - 1);
      assert StepAt(s, worlds, steps, i - 1);
      StepInv(worlds[i-1], s, steps[i-1]);
    }
  }

  // ----- Fencing and call bounds -----

  /** A row in phase ADMITTED is SENDING, under the very token its admission names. */
  lemma AdmittedIsFenced(s: Settings, worlds: seq<World>, steps: seq<Step>, i: nat, id: RowId)
    requires s.maxAttempts >= 1 && IsRun(s, worlds, steps) && i < |worlds| && id in worlds[i].rows
    ensures var r := worlds[i].rows[id];
            AdmitPhase(r) ==> r.status == Sending && r.token.Some? && r.admission.value.token == r.token
  {
    RunInv(s, worlds, steps, i);
    assert RowOk(worlds[i], s, id);
  }

  predicate TokenStep(step: Step, token: Unique) {
    match step
    case Decision(t) => t == token
    case RejectedByProvider(t) => t == token
    case SettleOk(t, _) => t == token
    case SettleFail(t, _) => t == token
    case _ => false
  }

  /** A transaction under a token that is no longer the row's changes no row and grants nothing. */
  lemma StaleTokenChangesNothing(w: World, s: Settings, step: Step, token: Unique)
    requires Enabled(w, s, step) && TokenStep(step, token)
    requires !Holds(w.rows[w.workers[token].row], token)
    ensures Next(w, s, step).rows == w.rows && Next(w, s, step).hist == w.hist
  {
    assert w.rows[w.workers[token].row := w.rows[w.workers[token].row]] == w.rows;
  }

  /** Provider calls per row: at most one per acquisition for a text, two for a document, and at
      most max_attempts acquisitions. */
  lemma CallsAreBounded(s: Settings, worlds: seq<World>, steps: seq<Step>, i: nat, id: RowId)
    requires s.maxAttempts >= 1 && IsRun(s, worlds, steps) && i < |worlds| && id in worlds[i].rows
    ensures var w := worlds[i];
            && w.hist[Acquired(id)] <= s.maxAttempts
            && w.hist[RowCalled(id)] <= w.hist[RowAdmitted(id)]
            && w.hist[RowAdmitted(id)] <= (if w.rows[id].kind == Text then s.maxAttempts else 2 * s.maxAttempts)
    ensures forall t | t in worlds[i].issued ::
              worlds[i].issued[t] in worlds[i].rows &&
              worlds[i].hist[TokenAdmitted(t)] <= (if worlds[i].rows[worlds[i].issued[t]].kind == Text then 1 else 2)
  {
    var w := worlds[i];
    RunInv(s, worlds, steps, i);
    assert RowOk(w, s, id);
    var r := w.rows[id];
    if r.token.Some? { assert TokenOk(w, r.token.value); }
    assert Remaining(r, s) >= 0 && Allowance(w, r) >= 0;
    forall t | t in w.issued
      ensures w.issued[t] in w.rows && w.hist[TokenAdmitted(t)] <= SendsPerClaim(w.rows[w.issued[t]].kind)
    {
      assert TokenOk(w, t);
    }
  }

  // ----- Honest terminal states -----

  /** What a row says of the whole run: its admission is absent exactly when it was never admitted. When a
      SUPPRESSED row has none, it was never handed to the provider either; when it has one, it was: its last
      admission was rejected by the provider. A suppressed text has none. */
  lemma SuppressedIsHonest(s: Settings, worlds: seq<World>, steps: seq<Step>, i: nat, id: RowId)
    requires s.maxAttempts >= 1 && IsRun(s, worlds, steps) && i < |worlds| && id in worlds[i].rows
    ensures worlds[i].hist[RowAdmitted(id)] == 0 <==> worlds[i].rows[id].admission.None?
    ensures worlds[i].rows[id].admission.None? ==> worlds[i].hist[RowCalled(id)] == 0
    ensures worlds[i].rows[id].status == Suppressed ==>
              && (worlds[i].hist[RowCalled(id)] == 0 <==> worlds[i].rows[id].admission.None?)
              && (worlds[i].rows[id].admission.None? || MediaRejected(worlds[i].rows[id]))
              && (worlds[i].rows[id].kind == Text ==> worlds[i].rows[id].admission.None?)
  {
    RunInv(s, worlds, steps, i);
    assert RowOk(worlds[i], s, id);
  }

  // ----- What one step may do to one row -----

  function Rank(status: RowStatus): nat {
    match status
    case Pending => 2
    case Sending => 1
    case _ => 0
  }

  predicate Ineligible(w: World, id: RowId)
    requires Located(w, id)
  {
    Eligibility(w.facts, w.desks[w.rows[id].conv], id, w.rows[id]).result != Eligible
  }

  predicate RowChange(w: World, id: RowId, r': Row)
    requires Located(w, id)
  {
    var r := w.rows[id];
    && Evolves(r, r')
    && (r.context.Some? ==> r'.context == r.context)
    && (Rank(r.status) == 0 ==> r' == r)
    && (MaybeSent(r) && r'.status != r.status ==> r'.status != Suppressed)
    && (Ineligible(w, id) ==> r'.status == r.status || Rank(r'.status) < Rank(r.status))
  }

  /** The row a step is about, if any. */
  function Subject(w: World, step: Step): Option<RowId> {
    match step
    case Claim(id, _) => Some(id)
    case Reap(id, _) => Some(id)
    case Decision(t) => if t in w.workers then Some(w.workers[t].row) else None
    case RejectedByProvider(t) => if t in w.workers then Some(w.workers[t].row) else None
    case SettleOk(t, _) => if t in w.workers then Some(w.workers[t].row) else None
    case SettleFail(t, _) => if t in w.workers then Some(w.workers[t].row) else None
    case _ => None
  }

  /** Another row's columns and counts are exactly as before. */
  predicate RowAsBefore(w: World, w': World, id: RowId) {
    && id in w.rows && id in w'.rows && w'.rows[id] == w.rows[id]
    && w'.hist[RowAdmitted(id)] == w.hist[RowAdmitted(id)] && w'.hist[Acquired(id)] == w.hist[Acquired(id)]
  }

  predicate TokenTransaction(step: Step) {
    step.Decision? || step.RejectedByProvider? || step.SettleOk? || step.SettleFail?
  }

  lemma OtherRowsUntouchedByToken(w: World, s: Settings, step: Step, id: RowId)
    requires Enabled(w, s, step) && id in w.rows && Subject(w, step) != Some(id) && TokenTransaction(step)
    ensures RowAsBefore(w, Next(w, s, step), id)
  {
  }

  lemma OtherRowsUntouched(w: World, s: Settings, step: Step, id: RowId)
    requires Enabled(w, s, step) && id in w.rows && Subject(w, step) != Some(id)
    ensures RowAsBefore(w, Next(w, s, step), id)
  {
    if TokenTransaction(step) { OtherRowsUntouchedByToken(w, s, step, id); }
  }

  lemma FailByChange(w: World, s: Settings, id: RowId, a: Row, ruling: Ruling, now: int, permanent: bool)
    requires Located(w, id) && Fenced(w, id) && w.rows[id].status == Sending && SameButContext(w.rows[id], a)
    requires Ineligible(w, id) ==> ruling.result != Eligible
    ensures RowChange(w, id, FailBy(ruling, a, now, permanent, s))
  {
  }

  lemma FailureChange(w: World, s: Settings, id: RowId, now: int, permanent: bool)
    requires Located(w, id) && Fenced(w, id) && w.rows[id].status == Sending
    ensures RowChange(w, id, FailedRow(w, s, id, now, permanent))
  {
    FailByChange(w, s, id, Adopt(w.facts, id, w.rows[id]),
                 Eligibility(w.facts, w.desks[w.rows[id].conv], id, w.rows[id]), now, permanent);
  }

  lemma SuccessChange(w: World, s: Settings, id: RowId, now: int)
    requires Located(w, id) && Fenced(w, id) && w.rows[id].status == Sending
    ensures RowChange(w, id, SettleSuccess(w.facts, w.desks[w.rows[id].conv], id, w.rows[id], now, s))
  {
    FailureChange(w, s, id, now, false);
  }

  lemma StopChange(w: World, id: RowId, ruling: Ruling)
    requires Located(w, id) && w.rows[id].status == Pending && ruling.result != Eligible
    ensures RowChange(w, id, Stop(w.rows[id], ruling))
  {
  }

  lemma ClaimChange(w: World, s: Settings, id: RowId, now: int)
    requires Located(w, id) && w.rows[id].status == Pending
    ensures id in ClaimRow(w, id, now).rows && RowChange(w, id, ClaimRow(w, id, now).rows[id])
  {
    forall ruling: Ruling | ruling.result != Eligible ensures RowChange(w, id, Stop(w.rows[id], ruling)) {
      StopChange(w, id, ruling);
    }
  }

  lemma DecideByChange(w: World, id: RowId, a: Row, ruling: Ruling, token: Unique, admit: bool)
    requires Located(w, id) && w.rows[id].status == Sending && SameButContext(w.rows[id], a)
    requires Ineligible(w, id) ==> ruling.result != Eligible
    ensures RowChange(w, id, DecideBy(ruling, a, token, admit).0)
  {
  }

  lemma DecisionChange(w: World, id: RowId, token: Unique, admit: bool)
    requires Located(w, id)
    ensures RowChange(w, id, Decide(w.facts, w.desks[w.rows[id].conv], id, w.rows[id], token, admit).0)
  {
    if Holds(w.rows[id], token) {
      DecideByChange(w, id, Adopt(w.facts, id, w.rows[id]),
                     Eligibility(w.facts, w.desks[w.rows[id].conv], id, w.rows[id]), token, admit);
    }
  }

  lemma AcquisitionsGrow(w: World, s: Settings, step: Step, id: RowId)
    requires Enabled(w, s, step) && id in w.rows
    ensures w.hist[Acquired(id)] <= Next(w, s, step).hist[Acquired(id)]
  {
    if Subject(w, step) != Some(id) { OtherRowsUntouched(w, s, step, id); }
  }

  lemma TokenRowStep(w: World, s: Settings, step: Step, id: RowId)
    requires Enabled(w, s, step) && Located(w, id) && Fenced(w, id)
    requires TokenTransaction(step) && Subject(w, step) == Some(id)
    ensures id in Next(w, s, step).rows && RowChange(w, id, Next(w, s, step).rows[id])
  {
    match step
    case Decision(token) => DecisionChange(w, id, token, Admitting(w.workers[token].pc));
    case RejectedByProvider(token) =>
    case SettleOk(token, now) => if Holds(w.rows[id], token) { SuccessChange(w, s, id, now); }
    case SettleFail(token, now) =>
      if Holds(w.rows[id], token) { FailureChange(w, s, id, now, w.workers[token].pc.permanent); }
  }

  /** How any step may change any row. */
  lemma RowStep(w: World, s: Settings, step: Step, id: RowId)
    requires Inv(w, s) && Enabled(w, s, step) && Located(w, id)
    ensures id in Next(w, s, step).rows && RowChange(w, id, Next(w, s, step).rows[id])
    ensures w.hist[Acquired(id)] <= Next(w, s, step).hist[Acquired(id)]
  {
    assert RowOk(w, s, id);
    AcquisitionsGrow(w, s, step, id);
    if Subject(w, step) != Some(id) {
      OtherRowsUntouched(w, s, step, id);
    } else if step.Claim? {
      ClaimChange(w, s, id, step.now);
    } else if step.Reap? {
      FailureChange(w, s, id, step.now, false);
    } else {
      TokenRowStep(w, s, step, id);
    }
  }

  lemma OnlyDecisionsAdmit(w: World, s: Settings, step: Step, id: RowId)
    requires Enabled(w, s, step) && !step.Decision?
    ensures Next(w, s, step).hist[RowAdmitted(id)] == w.hist[RowAdmitted(id)]
  {
  }

  lemma OnlyGrantsAdmit(w: World, token: Unique, id: RowId)
    requires Working(w, token) && DecideRow(w, token).hist[RowAdmitted(id)] != w.hist[RowAdmitted(id)]
    ensures id == w.workers[token].row && Granting(w, token)
    ensures DecideRow(w, token).rows[id].context == Adopt(w.facts, id, w.rows[id]).context
  {
  }

  /** A row is admitted only by a decision that found it eligible, in its own conversation, now. */
  lemma AdmissionStep(w: World, s: Settings, step: Step, id: RowId)
    requires Enabled(w, s, step) && Located(w, id)
    requires Next(w, s, step).hist[RowAdmitted(id)] != w.hist[RowAdmitted(id)]
    ensures step.Decision? && !Ineligible(w, id)
    ensures id in Next(w, s, step).rows
    ensures Next(w, s, step).rows[id].context == Adopt(w.facts, id, w.rows[id]).context
  {
    if step.Decision? { OnlyGrantsAdmit(w, step.token, id); } else { OnlyDecisionsAdmit(w, s, step, id); }
  }

  /** Any delivery stopped after ADMITTED or UNKNOWN ends in REVIEW, never in SUPPRESSED. */
  lemma StoppedAfterAdmission(w: World, s: Settings, step: Step, id: RowId)
    requires Inv(w, s) && Enabled(w, s, step) && Located(w, id) && MaybeSent(w.rows[id])
    ensures id in Next(w, s, step).rows
    ensures var r' := Next(w, s, step).rows[id];
            r'.status != w.rows[id].status && (r'.status == Suppressed || r'.status == Review) ==> r'.status == Review
  {
    RowStep(w, s, step, id);
  }

  /** Conversations are never deleted, so a located row stays located. */
  lemma DesksStay(w: World, s: Settings, step: Step, c: ConvId)
    requires Enabled(w, s, step) && c in w.desks
    ensures c in Next(w, s, step).desks
  {
  }

  /** SENT, FAILED, SUPPRESSED and REVIEW are final: such a row never changes again. */
  lemma {:induction false} RowPersists(s: Settings, worlds: seq<World>, steps: seq<Step>, i: nat, j: nat, id: RowId)
    requires s.maxAttempts >= 1 && IsRun(s, worlds, steps) && i <= j < |worlds| && Located(worlds[i], id)
    ensures Located(worlds[j], id) && Evolves(worlds[i].rows[id], worlds[j].rows[id])
    ensures Rank(worlds[i].rows[id].status) == 0 ==> worlds[j].rows[id] == worlds[i].rows[id]
    ensures worlds[i].hist[Acquired(id)] <= worlds[j].hist[Acquired(id)]
    decreases j
  {
    if i < j {
      RowPersists(s, worlds, steps, i, j - 1, id);
      RunInv(s, worlds, steps, j - 1);
      assert StepAt(s, worlds, steps, j - 1);
      RowStep(worlds[j-1], s, steps[j-1], id);
      DesksStay(worlds[j-1], s, steps[j-1], worlds[j-1].rows[id].conv);
    }
  }

  // ----- Text before document -----

  /** A row with a predecessor is acquired only after that text was SENT, and the text stays SENT, so
      at every later moment of the run, admissions included, it is sent. */
  lemma TextBeforeDocument(s: Settings, worlds: seq<World>, steps: seq<Step>, i: nat, j: nat, id: RowId, n: int)
    requires s.maxAttempts >= 1 && IsRun(s, worlds, steps) && i <= j < |worlds| && Located(worlds[i], id)
    requires DependencyOf(worlds[i].rows[id]) == Number(n) && worlds[i].hist[Acquired(id)] > 0
    ensures PrecedingText(worlds[i].rows, worlds[i].rows[id], n) && worlds[i].rows[n].status == Sent
    ensures n in worlds[j].rows && worlds[j].rows[n].status == Sent
  {
    RunInv(s, worlds, steps, i);
    assert RowOk(worlds[i], s, id);
    assert Located(worlds[i], n);
    RowPersists(s, worlds, steps, i, j, n);
  }

  // ----- Revocation -----

  /** Automatic output or a transfer notice whose period is over. */
  predicate Revoked(w: World, id: RowId) {
    && Located(w, id)
    && (OriginIs(w.rows[id], Auto) || OriginIs(w.rows[id], HandoffNotice))
    && w.rows[id].context.value.epoch.Some?
    && w.rows[id].context.value.epoch.value != w.desks[w.rows[id].conv].conv.epoch
  }

  lemma RevokedIsIneligible(w: World, id: RowId)
    requires Revoked(w, id)
    ensures Ineligible(w, id)
  {
  }

  predicate EpochMoved(w: World, w': World, c: ConvId)
    requires c in w.desks
  {
    c in w'.desks && (w'.desks[c].conv.epoch == w.desks[c].conv.epoch || w'.desks[c].conv.epoch >= w.supply)
  }

  predicate TouchesDesks(step: Step) {
    step.HumanCommand? || step.Turn? || step.Reset? || step.OpenConversation? || step.PaymentNotice?
  }

  lemma DesksUntouchedByToken(w: World, s: Settings, step: Step)
    requires Enabled(w, s, step) && TokenTransaction(step)
    ensures Next(w, s, step).desks == w.desks
  {
  }

  lemma DesksUntouched(w: World, s: Settings, step: Step)
    requires Enabled(w, s, step) && !TouchesDesks(step)
    ensures Next(w, s, step).desks == w.desks
  {
    if TokenTransaction(step) { DesksUntouchedByToken(w, s, step); }
  }

  predicate Allowed(w: World, conv: ConvId, conflict: Option<CaseId>)
    requires conv in w.desks
  {
    conflict.Some? ==> CreateHandoff(w.desks[conv], conflict.value, OtherReason, w.supply + 4 * conv).Applied?
  }

  lemma AllowedForDesk(w: World, conv: ConvId, conflict: Option<CaseId>, c: ConvId, own: Option<CaseId>)
    requires conv in w.desks && Allowed(w, conv, conflict) && own == ConflictOf(c, conv, conflict)
    requires conflict.Some? ==> conflict.value !in w.desks[conv].cases
    ensures own.Some? ==> c == conv && own.value !in w.desks[c].cases
                          && CreateHandoff(w.desks[c], own.value, OtherReason, w.supply + 4 * c).Applied?
  {
  }

  lemma NoticeUnfolds(w: World, conv: ConvId, conflict: Option<CaseId>, settled: set<ConvId>, top: nat, c: ConvId)
    requires conv in w.desks && c in w.desks
    ensures var w' := DoPaymentNotice(w, conv, conflict, settled, top);
            && c in w'.desks
            && w'.desks[c] == if !Allowed(w, conv, conflict) then w.desks[c]
                              else Noticed(w.desks[c], ConflictOf(c, conv, conflict), c in settled, w.supply + 4 * c)
  {
  }

  predicate StruckBy(d: Desk, c: ConvId, conv: ConvId, conflict: Option<CaseId>) {
    c == conv && conflict.Some? && d.conv.state == HumanActive
  }

  predicate NoticeEffect(w: World, d: Desk, d': Desk, struck: bool) {
    && (d'.conv.epoch == d.conv.epoch || d'.conv.epoch >= w.supply) && d'.conv.customer == d.conv.customer
    && (Stranded(d') <==> Stranded(d) || struck)
  }

  lemma AllowedNotice(w: World, conv: ConvId, conflict: Option<CaseId>, c: ConvId, settles: bool)
    requires conv in w.desks && c in w.desks && (Coherent(w.desks[c]) || Stranded(w.desks[c]))
    requires Allowed(w, conv, conflict) && (conflict.Some? ==> conflict.value !in w.desks[conv].cases)
    ensures NoticeEffect(w, w.desks[c], Noticed(w.desks[c], ConflictOf(c, conv, conflict), settles, w.supply + 4 * c),
                         StruckBy(w.desks[c], c, conv, conflict))
  {
    AllowedForDesk(w, conv, conflict, c, ConflictOf(c, conv, conflict));
    NoticedDesk(w.desks[c], ConflictOf(c, conv, conflict), settles, w.supply + 4 * c);
  }

  /** What a payment notice does to one desk: nothing, or its share. */
  lemma NoticeShare(w: World, conv: ConvId, conflict: Option<CaseId>, settled: set<ConvId>, top: nat, c: ConvId)
    requires conv in w.desks && c in w.desks && (Coherent(w.desks[c]) || Stranded(w.desks[c]))
    requires conflict.Some? ==> conflict.value !in w.desks[conv].cases
    ensures var w' := DoPaymentNotice(w, conv, conflict, settled, top);
            c in w'.desks && NoticeEffect(w, w.desks[c], w'.desks[c], StruckBy(w.desks[c], c, conv, conflict))
  {
    NoticeUnfolds(w, conv, conflict, settled, top, c);
    if Allowed(w, conv, conflict) {
      AllowedNotice(w, conv, conflict, c, c in settled);
    } else if StruckBy(w.desks[c], c, conv, conflict) {
      ActiveAllowsHandoff(w.desks[c], conflict.value, w.supply + 4 * c);
    }
  }

  lemma ActiveAllowsHandoff(d: Desk, newCase: CaseId, uid: Unique)
    requires d.conv.state == HumanActive
    ensures CreateHandoff(d, newCase, OtherReason, uid).Applied?
  {
  }

  lemma NoticeStep(w: World, s: Settings, step: Step, c: ConvId)
    requires Enabled(w, s, step) && step.PaymentNotice? && c in w.desks && DeskOk(w, c)
    ensures c in Next(w, s, step).desks
    ensures NoticeEffect(w, w.desks[c], Next(w, s, step).desks[c], StruckBy(w.desks[c], c, step.conv, step.conflict))
  {
    NoticeShare(w, step.conv, step.conflict, step.settled, step.top, c);
  }

  /** Every desk keeps its epoch or takes one that was never drawn before. */
  lemma EpochStep(w: World, s: Settings, step: Step, c: ConvId)
    requires Inv(w, s) && Enabled(w, s, step) && c in w.desks
    ensures EpochMoved(w, Next(w, s, step), c)
  {
    if step.HumanCommand? {
      if Perform(w.desks[step.conv], step.command, w.supply).Applied? {
        CommandEpoch(w.desks[step.conv], step.command, w.supply);
      }
    } else if step.PaymentNotice? {
      assert DeskOk(w, c);
      NoticeStep(w, s, step, c);
    } else if !TouchesDesks(step) {
      DesksUntouched(w, s, step);
    }
  }

  lemma RevokedStep(w: World, s: Settings, step: Step, id: RowId)
    requires Inv(w, s) && Enabled(w, s, step) && Revoked(w, id)
    ensures var w' := Next(w, s, step);
            && Revoked(w', id)
            && w'.hist[RowAdmitted(id)] == w.hist[RowAdmitted(id)]
            && (w'.rows[id].status == w.rows[id].status || Rank(w'.rows[id].status) < Rank(w.rows[id].status))
  {
    assert RowOk(w, s, id);
    RevokedIsIneligible(w, id);
    EpochStep(w, s, step, w.rows[id].conv);
    RowStep(w, s, step, id);
    if Next(w, s, step).hist[RowAdmitted(id)] != w.hist[RowAdmitted(id)] { AdmissionStep(w, s, step, id); }
  }

  /** Status changes of a row between two worlds of a run. */
  function StatusChanges(worlds: seq<World>, i: nat, j: nat, id: RowId): nat
    requires i <= j < |worlds|
    decreases j
  {
    if i == j then 0
    else StatusChanges(worlds, i, j - 1, id) + (if SameStatus(worlds[j-1], worlds[j], id) then 0 else 1)
  }

  predicate SameStatus(w: World, w': World, id: RowId) {
    id in w.rows && id in w'.rows && w.rows[id].status == w'.rows[id].status
  }

  /** Revocation is final. From the moment its epoch is rotated away, an automatic row or transfer
      notice is never admitted again, never returns to PENDING, and changes status at most twice. */
  lemma {:induction false} RevocationIsFinal(
      s: Settings, worlds: seq<World>, steps: seq<Step>, i: nat, j: nat, id: RowId)
    requires s.maxAttempts >= 1 && IsRun(s, worlds, steps) && i <= j < |worlds| && Revoked(worlds[i], id)
    ensures Revoked(worlds[j], id)
    ensures worlds[j].hist[RowAdmitted(id)] == worlds[i].hist[RowAdmitted(id)]
    ensures StatusChanges(worlds, i, j, id) + Rank(worlds[j].rows[id].status) <= Rank(worlds[i].rows[id].status) <= 2
    ensures worlds[i].rows[id].status != Pending ==> worlds[j].rows[id].status != Pending
    decreases j
  {
    if i < j {
      RevocationIsFinal(s, worlds, steps, i, j - 1, id);
      RunInv(s, worlds, steps, j - 1);
      assert StepAt(s, worlds, steps, j - 1);
      RevokedStep(worlds[j-1], s, steps[j-1], id);
    }
  }

  /** A reset revokes every automatic row and transfer notice of the customer's conversations. */
  lemma ResetRevokes(w: World, s: Settings, customer: CustomerId, top: nat, id: RowId)
    requires Inv(w, s) && Enabled(w, s, Reset(customer, top)) && Located(w, id)
    requires w.desks[w.rows[id].conv].conv.customer == customer
    requires OriginIs(w.rows[id], Auto) || OriginIs(w.rows[id], HandoffNotice)
    requires w.rows[id].context.value.epoch.Some?
    ensures Revoked(Next(w, s, Reset(customer, top)), id)
  {
    assert RowOk(w, s, id);
  }

  /** So does every accepted take: the period in force before it is over. */
  lemma TakeRevokes(w: World, s: Settings, conv: ConvId, command: Command, id: RowId)
    requires Inv(w, s) && Enabled(w, s, HumanCommand(conv, command)) && Located(w, id) && w.rows[id].conv == conv
    requires command.TakeHandoff? || command.TakeConversation?
    requires Perform(w.desks[conv], command, w.supply).Applied?
    requires OriginIs(w.rows[id], Auto) || OriginIs(w.rows[id], HandoffNotice)
    requires w.rows[id].context.value.epoch.Some?
    ensures Revoked(Next(w, s, HumanCommand(conv, command)), id)
  {
    assert RowOk(w, s, id);
    TakeRotatesEpoch(w.desks[conv], command, w.supply);
  }

  lemma TakeRotatesEpoch(d: Desk, command: Command, uid: Unique)
    requires FreshCase(d, command) && (command.TakeHandoff? || command.TakeConversation?)
    requires Perform(d, command, uid).Applied?
    ensures Perform(d, command, uid).desk.conv.epoch >= uid
  {
  }

  // ----- Who speaks while a human is active -----

  /** HUMAN_ACTIVE holds exactly when a human holds the conversation, at every moment of every run. */
  lemma OwnershipIsCoherent(s: Settings, worlds: seq<World>, steps: seq<Step>, i: nat, c: ConvId)
    requires s.maxAttempts >= 1 && IsRun(s, worlds, steps) && i < |worlds| && c in worlds[i].desks
    ensures worlds[i].desks[c].conv.state == HumanActive <==> HeldByHuman(worlds[i].desks[c])
  {
    RunInv(s, worlds, steps, i);
    assert DeskOk(worlds[i], c);
    if Stranded(worlds[i].desks[c]) { StrandedIsIncoherent(worlds[i].desks[c]); }
    else { HumanActiveIffHeld(worlds[i].desks[c]); }
  }

  /** A payment conflict was reported on conversation `c` while a human was active in it, and its customer
      has not been reset since. */
  predicate ConflictedSinceReset(worlds: seq<World>, steps: seq<Step>, i: nat, c: ConvId)
    requires i < |worlds| && |worlds| == |steps| + 1
  {
    i > 0 && c in worlds[i-1].desks &&
    (match steps[i-1]
     case Reset(customer, _) =>
       worlds[i-1].desks[c].conv.customer != customer && ConflictedSinceReset(worlds, steps, i - 1, c)
     case PaymentNotice(conv, conflict, _, _) =>
       || (conv == c && conflict.Some? && worlds[i-1].desks[c].conv.state == HumanActive)
       || ConflictedSinceReset(worlds, steps, i - 1, c)
     case _ => ConflictedSinceReset(worlds, steps, i - 1, c))
  }

  /** Which steps strand a desk, and which one repairs it. */
  lemma StrandedStep(w: World, s: Settings, step: Step, c: ConvId)
    requires Inv(w, s) && Enabled(w, s, step) && c in w.desks
    ensures c in Next(w, s, step).desks
    ensures Stranded(Next(w, s, step).desks[c]) <==>
              if step.Reset? && w.desks[c].conv.customer == step.customer then false
              else Stranded(w.desks[c]) || (step.PaymentNotice? && c == step.conv && step.conflict.Some?
                                            && w.desks[c].conv.state == HumanActive)
  {
    var w' := Next(w, s, step);
    DesksStay(w, s, step, c);
    assert DeskOk(w, c);
    if step.PaymentNotice? {
      NoticeStep(w, s, step, c);
    } else if !TouchesDesks(step) {
      DesksUntouched(w, s, step);
    } else if Stranded(w.desks[c]) {
      if step.HumanCommand? && step.conv == c { StrandedRefuses(w.desks[c], step.command, w.supply); }
    } else if step.HumanCommand? || step.Turn? {
      if w'.desks[c] != w.desks[c] {
        if step.Turn? { TurnKeepsCoherence(w.desks[c], step.desk, w.supply); }
        else { CommandKeepsCoherence(w.desks[c], step.command, w.supply); }
      }
      if Stranded(w'.desks[c]) { StrandedIsIncoherent(w'.desks[c]); }
    }
  }

  lemma {:induction false} StrandedIff(s: Settings, worlds: seq<World>, steps: seq<Step>, i: nat, c: ConvId)
    requires s.maxAttempts >= 1 && IsRun(s, worlds, steps) && i < |worlds| && c in worlds[i].desks
    ensures Stranded(worlds[i].desks[c]) <==> ConflictedSinceReset(worlds, steps, i, c)
  {
    if i == 0 {
      if Stranded(worlds[0].desks[c]) { StrandedIsIncoherent(worlds[0].desks[c]); }
    } else {
      RunInv(s, worlds, steps, i - 1);
      assert StepAt(s, worlds, steps, i - 1);
      if c in worlds[i-1].desks {
        StrandedIff(s, worlds, steps, i - 1, c);
        StrandedStep(worlds[i-1], s, steps[i-1], c);
      } else {
        NewDeskStep(worlds[i-1], s, steps[i-1], c);
      }
    }
  }

  /** Exactly when ownership is coherent: unless a payment conflict met an active human since the last
      reset. Nothing but a reset repairs such a conversation. */
  lemma CoherentIff(s: Settings, worlds: seq<World>, steps: seq<Step>, i: nat, c: ConvId)
    requires s.maxAttempts >= 1 && IsRun(s, worlds, steps) && i < |worlds| && c in worlds[i].desks
    ensures Coherent(worlds[i].desks[c]) <==> !ConflictedSinceReset(worlds, steps, i, c)
  {
    RunInv(s, worlds, steps, i);
    assert DeskOk(worlds[i], c);
    StrandedIff(s, worlds, steps, i, c);
    if Stranded(worlds[i].desks[c]) { StrandedIsIncoherent(worlds[i].desks[c]); }
  }

  lemma NewDeskStep(w: World, s: Settings, step: Step, c: ConvId)
    requires Enabled(w, s, step) && c !in w.desks && c in Next(w, s, step).desks
    ensures !Stranded(Next(w, s, step).desks[c])
  {
    if !TouchesDesks(step) { DesksUntouched(w, s, step); }
  }

  /** The steps that end a human's turn in conversation `c`: a return, a reset, a payment conflict reported
      on it, and the settlement of the payment review that the human holds. */
  predicate Releases(w: World, step: Step, c: ConvId) {
    match step
    case HumanCommand(conv, command) => conv == c && command.ReturnHandoff?
    case Reset(customer, _) => c in w.desks && w.desks[c].conv.customer == customer
    case PaymentNotice(conv, conflict, settled, _) =>
      (conv == c && conflict.Some?) || (c in settled && c in w.desks && PaymentOnly(w.desks[c]))
    case _ => false
  }

  lemma HumanStaysActive(w: World, s: Settings, step: Step, c: ConvId)
    requires Inv(w, s) && Enabled(w, s, step) && c in w.desks && w.desks[c].conv.state == HumanActive
    requires !Releases(w, step, c)
    ensures c in Next(w, s, step).desks && Next(w, s, step).desks[c].conv.state == HumanActive
  {
    if !TouchesDesks(step) { DesksUntouched(w, s, step); }
    if step.PaymentNotice? { NoticeUnfolds(w, step.conv, step.conflict, step.settled, step.top, c); }
  }

  /** Every row of conversation `c` admitted by step `k` speaks for a human. */
  ghost predicate HumanVoice(w: World, w': World, c: ConvId) {
    forall id | Located(w, id) && w.rows[id].conv == c && w'.hist[RowAdmitted(id)] != w.hist[RowAdmitted(id)] ::
      id in w'.rows && (OriginIs(w'.rows[id], HumanReply) || OriginIs(w'.rows[id], PaymentReviewResult))
  }

  lemma HumanVoiceStep(w: World, s: Settings, step: Step, c: ConvId)
    requires Inv(w, s) && Enabled(w, s, step) && c in w.desks && w.desks[c].conv.state == HumanActive
    ensures HumanVoice(w, Next(w, s, step), c)
  {
    var w' := Next(w, s, step);
    forall id | Located(w, id) && w.rows[id].conv == c && w'.hist[RowAdmitted(id)] != w.hist[RowAdmitted(id)]
      ensures id in w'.rows && (OriginIs(w'.rows[id], HumanReply) || OriginIs(w'.rows[id], PaymentReviewResult))
    {
      AdmissionStep(w, s, step, id);
      HumanActiveSilencesBot(w.facts, w.desks[c], id, w.rows[id]);
    }
  }

  /** A human is active from `i` and nothing up to `j` ends that. */
  ghost predicate HeldBetween(worlds: seq<World>, steps: seq<Step>, i: nat, j: nat, c: ConvId)
    requires i <= j < |worlds| && |worlds| == |steps| + 1
  {
    && c in worlds[i].desks && worlds[i].desks[c].conv.state == HumanActive
    && forall k | i <= k < j :: !Releases(worlds[k], steps[k], c)
  }

  lemma {:induction false} HumanStays(s: Settings, worlds: seq<World>, steps: seq<Step>, i: nat, j: nat, c: ConvId)
    requires s.maxAttempts >= 1 && IsRun(s, worlds, steps) && i <= j < |worlds|
    requires HeldBetween(worlds, steps, i, j, c)
    ensures c in worlds[j].desks && worlds[j].desks[c].conv.state == HumanActive
    decreases j
  {
    if i < j {
      HumanStays(s, worlds, steps, i, j - 1, c);
      RunInv(s, worlds, steps, j - 1);
      assert StepAt(s, worlds, steps, j - 1);
      HumanStaysActive(worlds[j-1], s, steps[j-1], c);
    }
  }

  /** While a human stays active, every send admission in that conversation is a human reply or a human
      payment decision. */
  lemma OnlyHumansSpeak(
      s: Settings, worlds: seq<World>, steps: seq<Step>, i: nat, k: nat, j: nat, c: ConvId)
    requires s.maxAttempts >= 1 && IsRun(s, worlds, steps) && i <= k < j < |worlds|
    requires HeldBetween(worlds, steps, i, j, c)
    ensures c in worlds[k].desks && worlds[k].desks[c].conv.state == HumanActive
    ensures HumanVoice(worlds[k], worlds[k+1], c)
  {
    HumanStays(s, worlds, steps, i, k, c);
    RunInv(s, worlds, steps, k);
    assert StepAt(s, worlds, steps, k);
    HumanVoiceStep(worlds[k], s, steps[k], c);
  }
}
