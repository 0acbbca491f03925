/** Inductive invariants of the outbox protocol and what they give over whole runs. */
module DeliverySafety {
  import opened Common
  import opened Ownership
  import opened Delivery
  import opened DeliveryProtocol

  // ----- The invariant -----

  function SendsPerClaim(kind: Kind): nat {
    if kind == Text then 1 else 2
  }

  function MaxAdmissions(kind: Kind, acquisitions: nat): nat {
    if kind == Text then acquisitions else 2 * acquisitions
  }

  /** Acquisitions a row can still get. */
  function Remaining(row: Row, s: Settings): int {
    match row.status
    case Pending => s.maxAttempts - row.attempts
    case Sending => s.maxAttempts - row.attempts - 1
    case _ => 0
  }

  /** Admissions the current acquisition can still get. */
  function Allowance(w: World, row: Row): int {
    if row.token.Some? then SendsPerClaim(row.kind) - w.hist[TokenAdmitted(row.token.value)] else 0
  }

  /** Workers holding permission for a provider call on this row, current or not. */
  function Callers(w: World, id: RowId): set<Unique> {
    set t | t in w.workers && w.workers[t].row == id && Calling(w.workers[t].pc)
  }

  function AdmittedBy(pc: Pc, kind: Kind): nat {
    match pc
    case AtText => 0
    case AtCheck1 => 0
    case AtAdmit1 => 0
    case AtSuccess => SendsPerClaim(kind)
    case AtFailure(_) => SendsPerClaim(kind)
    case SendDoc2 => 2
    case _ => 1
  }

  predicate PcKind(pc: Pc, kind: Kind) {
    match pc
    case AtText => kind == Text
    case SendText => kind == Text
    case AtSuccess => true
    case AtFailure(_) => true
    case _ => kind == Document
  }

  /** Fencing: a token belongs to a SENDING row it was issued for, and a row ADMITTED is SENDING
      under the very token of its admission. */
  predicate Fenced(w: World, id: RowId)
    requires id in w.rows
  {
    var r := w.rows[id];
    && (r.token.Some? ==> r.status == Sending && r.token.value in w.issued && w.issued[r.token.value] == id)
    && (AdmitPhase(r) ==> r.status == Sending && r.token.Some? && r.admission.value.token == r.token)
  }

  /** The admission column records the whole run: it is filled exactly when the row was ever admitted, and
      a media rejection in it stands for a call that was made. */
  predicate Honest(w: World, id: RowId)
    requires id in w.rows
  {
    var r := w.rows[id];
    && (r.admission.Some? && r.admission.value.phase == PhaseSent ==> r.status == Sent)
    && (r.admission.Some? && r.admission.value.phase == RejectedMedia ==> r.kind == Document)
    && (r.admission.Some? && r.admission.value.phase == RejectedMedia ==> w.hist[RowCalled(id)] > 0)
    && (w.hist[RowAdmitted(id)] > 0 <==> r.admission.Some?)
    && (r.status == Suppressed ==> !MaybeSent(r))
  }

  ghost predicate Bounded(w: World, s: Settings, id: RowId)
    requires id in w.rows
  {
    var r := w.rows[id];
    && (r.status == Pending || r.status == Sending ==> r.attempts < s.maxAttempts)
    && w.hist[Acquired(id)] + Remaining(r, s) <= s.maxAttempts
    && w.hist[RowAdmitted(id)] + Allowance(w, r) <= MaxAdmissions(r.kind, w.hist[Acquired(id)])
    && w.hist[RowCalled(id)] + |Callers(w, id)| <= w.hist[RowAdmitted(id)]
  }

  /** A row that was ever acquired had its preceding text, if any, sent. */
  predicate Ordered(w: World, id: RowId)
    requires id in w.rows
  {
    w.hist[Acquired(id)] > 0 ==>
      match DependencyOf(w.rows[id])
      case NoKey => true
      case NotAnInteger => false
      case Number(n) => PrecedingText(w.rows, w.rows[id], n) && w.rows[n].status == Sent
  }

  predicate WorkerOk(w: World, t: Unique)
    requires t in w.workers
  {
    var k := w.workers[t];
    && t in w.issued && w.issued[t] == k.row
    && k.row in w.rows && w.rows[k.row].kind == k.kind
    && PcKind(k.pc, k.kind)
    && w.hist[TokenAdmitted(t)] <= AdmittedBy(k.pc, k.kind)
    && (k.pc == AtReject ==> w.hist[RowCalled(k.row)] > 0)
  }

  predicate TokenOk(w: World, t: Unique) {
    if t in w.issued then
      && t < w.supply && w.issued[t] in w.rows
      && w.hist[TokenAdmitted(t)] <= SendsPerClaim(w.rows[w.issued[t]].kind)
    else t !in w.workers && w.hist[TokenAdmitted(t)] == 0
  }

  /** Nothing is counted for a row that does not exist yet. */
  predicate RowUnseen(w: World, id: RowId) {
    id !in w.rows ==> w.hist[Acquired(id)] == 0 && w.hist[RowAdmitted(id)] == 0 && w.hist[RowCalled(id)] == 0
  }

  ghost predicate RowOk(w: World, s: Settings, id: RowId)
    requires id in w.rows
  {
    Fenced(w, id) && Honest(w, id) && Bounded(w, s, id) && Ordered(w, id) && EpochDrawn(w, w.rows[id])
  }

  /** Coherent, or stranded by a payment conflict. */
  ghost predicate DeskOk(w: World, c: ConvId)
    requires c in w.desks
  {
    (Coherent(w.desks[c]) || Stranded(w.desks[c])) && w.desks[c].conv.epoch < w.supply
  }

  ghost predicate Inv(w: World, s: Settings) {
    && (forall id | id in w.rows :: RowOk(w, s, id))
    && (forall id :: RowUnseen(w, id))
    && (forall t | t in w.workers :: WorkerOk(w, t))
    && (forall t :: TokenOk(w, t))
    && (forall c | c in w.desks :: DeskOk(w, c))
  }

  lemma InitialInv(w: World, s: Settings)
    requires Initial(w, s)
    ensures Inv(w, s)
  {
    forall id | id in w.rows ensures RowOk(w, s, id) {
      assert Callers(w, id) == {};
    }
  }

  // ----- Preservation -----

  /** What every row change respects. */
  predicate Evolves(r: Row, r': Row) {
    && r'.conv == r.conv && r'.message == r.message && r'.kind == r.kind && r'.agentPayload == r.agentPayload
    && DependencyOf(r') == DependencyOf(r)
    && (r.status == Sent ==> r'.status == Sent)
  }

  /** A step that concerns row `id` only: every other row keeps its columns and its counts. */
  ghost predicate OnlyRow(w: World, w': World, id: RowId) {
    && id in w.rows && id in w'.rows && w'.rows == w.rows[id := w'.rows[id]]
    && Evolves(w.rows[id], w'.rows[id])
    && w'.supply >= w.supply && w'.desks == w.desks
    && (forall t | t in w.issued :: t in w'.issued && w'.issued[t] == w.issued[t])
    && (forall j | j != id :: w'.hist[Acquired(j)] == w.hist[Acquired(j)]
                              && w'.hist[RowAdmitted(j)] == w.hist[RowAdmitted(j)]
                              && w'.hist[RowCalled(j)] == w.hist[RowCalled(j)])
    && (forall t | t in w.issued && w.issued[t] != id :: w'.hist[TokenAdmitted(t)] == w.hist[TokenAdmitted(t)])
    && (forall t | t in w'.workers && w'.workers[t].row != id :: t in w.workers && w'.workers[t] == w.workers[t])
    && (forall t | t in w.workers && w.workers[t].row != id :: t in w'.workers && w'.workers[t] == w.workers[t])
  }

  lemma DesksKept(w: World, w': World, s: Settings)
    requires Inv(w, s) && w'.desks == w.desks && w.supply <= w'.supply
    ensures forall c | c in w'.desks :: DeskOk(w', c)
  {
    forall c | c in w'.desks ensures DeskOk(w', c) { assert DeskOk(w, c); }
  }

  lemma OtherRowsKept(w: World, w': World, s: Settings, id: RowId)
    requires Inv(w, s) && OnlyRow(w, w', id)
    ensures forall j | j in w'.rows && j != id :: RowOk(w', s, j)
    ensures forall j :: RowUnseen(w', j)
    ensures forall t | t in w'.workers && w'.workers[t].row != id :: WorkerOk(w', t)
  {
    forall j | j in w'.rows && j != id ensures RowOk(w', s, j) {
      assert RowOk(w, s, j);
      assert Callers(w', j) == Callers(w, j);
    }
    forall j ensures RowUnseen(w', j) { assert RowUnseen(w, j); }
    forall t | t in w'.workers && w'.workers[t].row != id ensures WorkerOk(w', t) {
      assert WorkerOk(w, t);
    }
  }

  /** A row without its acquisition: no attempt gained, no possibly delivered row called suppressed. */
  predicate Settled(w: World, s: Settings, id: RowId, r': Row)
    requires id in w.rows
  {
    && Evolves(w.rows[id], r') && r'.token.None? && EpochDrawn(w, r')
    && (r'.status == Pending || r'.status == Sending ==> r'.attempts < s.maxAttempts)
    && Remaining(r', s) <= Remaining(w.rows[id], s)
    && !AdmitPhase(r')
    && (r'.admission.Some? && r'.admission.value.phase == PhaseSent ==> r'.status == Sent)
    && (r'.admission.Some? && r'.admission.value.phase == RejectedMedia ==> r'.kind == Document)
    && (w.rows[id].admission.Some? <==> r'.admission.Some?)
    && (r'.admission.Some? && r'.admission.value.phase == RejectedMedia ==> MediaRejected(w.rows[id]))
    && (r'.status == Suppressed ==> !MaybeSent(r'))
  }

  predicate MediaRejected(r: Row) {
    r.admission.Some? && r.admission.value.phase == RejectedMedia
  }

  /** The same row, with at most a legacy context filled in. */
  predicate SameButContext(r: Row, a: Row) {
    a == r.(context := a.context) && (r.context.Some? ==> a.context == r.context)
    && (r.context.None? && a.context.Some? ==> a.context == Some(LegacyHumanContext))
  }

  lemma FailedBySettles(w: World, s: Settings, id: RowId, a: Row, ruling: Ruling, now: int, permanent: bool)
    requires id in w.rows && RowOk(w, s, id) && w.rows[id].status == Sending && SameButContext(w.rows[id], a)
    ensures Settled(w, s, id, FailBy(ruling, a, now, permanent, s))
  {
  }

  /** What _mark_outbox_failure_locked leaves of an acquired row. */
  lemma FailureRow(w: World, s: Settings, id: RowId, now: int, permanent: bool) returns (r': Row)
    requires Located(w, id) && RowOk(w, s, id) && w.rows[id].status == Sending
    ensures r' == FailedRow(w, s, id, now, permanent) && Settled(w, s, id, r')
  {
    r' := FailedRow(w, s, id, now, permanent);
    FailedBySettles(w, s, id, Adopt(w.facts, id, w.rows[id]),
                    Eligibility(w.facts, w.desks[w.rows[id].conv], id, w.rows[id]), now, permanent);
  }

  // --- steps that touch desks only, or add a row ---

  lemma DesksOnlyKeepsRows(w: World, w': World, s: Settings)
    requires Inv(w, s)
    requires w'.rows == w.rows && w'.workers == w.workers && w'.issued == w.issued && w'.hist == w.hist
    requires w.supply <= w'.supply
    ensures forall id | id in w'.rows :: RowOk(w', s, id)
    ensures forall id :: RowUnseen(w', id)
    ensures forall t | t in w'.workers :: WorkerOk(w', t)
    ensures forall t :: TokenOk(w', t)
  {
    forall id | id in w'.rows ensures RowOk(w', s, id) {
      assert RowOk(w, s, id);
      assert Callers(w', id) == Callers(w, id);
    }
    forall id ensures RowUnseen(w', id) { assert RowUnseen(w, id); }
    forall t | t in w'.workers ensures WorkerOk(w', t) { assert WorkerOk(w, t); }
    forall t ensures TokenOk(w', t) { assert TokenOk(w, t); }
  }

  lemma CommandEpoch(d: Desk, command: Command, uid: Unique)
    requires FreshCase(d, command) && Perform(d, command, uid).Applied?
    ensures var e := Perform(d, command, uid).desk.conv.epoch; e == d.conv.epoch || uid <= e < uid + 5
  {
  }

  lemma CommandInv(w: World, s: Settings, conv: ConvId, command: Command)
    requires Inv(w, s) && conv in w.desks && FreshCase(w.desks[conv], command)
    ensures Inv(DoCommand(w, conv, command), s)
  {
    var w' := DoCommand(w, conv, command);
    assert DeskOk(w, conv);
    if Stranded(w.desks[conv]) { StrandedRefuses(w.desks[conv], command, w.supply); }
    if Perform(w.desks[conv], command, w.supply).Applied? {
      CommandKeepsCoherence(w.desks[conv], command, w.supply);
      DesksOnlyKeepsRows(w, w', s);
      CommandEpoch(w.desks[conv], command, w.supply);
      forall c | c in w'.desks ensures DeskOk(w', c) {
        assert DeskOk(w, c);
      }
    }
  }

  lemma TurnInv(w: World, s: Settings, conv: ConvId, desk: Desk)
    requires Inv(w, s) && conv in w.desks && TurnContract(w.desks[conv], desk, w.supply)
    ensures Inv(SetDesk(w, conv, desk), s)
  {
    var w' := SetDesk(w, conv, desk);
    assert DeskOk(w, conv);
    if Coherent(w.desks[conv]) { TurnKeepsCoherence(w.desks[conv], desk, w.supply); }
    DesksOnlyKeepsRows(w, w', s);
    forall c | c in w'.desks ensures DeskOk(w', c) {
      assert DeskOk(w, c);
    }
  }

  lemma ResetInv(w: World, s: Settings, customer: CustomerId, top: nat)
    requires Inv(w, s) && w.supply <= top && forall c | c in w.desks :: w.supply + c < top
    ensures Inv(ResetCustomer(w, customer, top), s)
  {
    var w' := ResetCustomer(w, customer, top);
    DesksOnlyKeepsRows(w, w', s);
    forall c | c in w'.desks ensures DeskOk(w', c) {
      assert DeskOk(w, c);
      ResetKeepsCoherence(w.desks[c], w.supply + c);
    }
  }

  lemma OpenInv(w: World, s: Settings, conv: ConvId, customer: CustomerId)
    requires Inv(w, s) && conv !in w.desks
    ensures Inv(SetDesk(w, conv, NewDesk(customer, w.supply)), s)
  {
    var w' := SetDesk(w, conv, NewDesk(customer, w.supply));
    DesksOnlyKeepsRows(w, w', s);
    forall c | c in w'.desks ensures DeskOk(w', c) { if c != conv { assert DeskOk(w, c); } }
  }

  /** Coherent desks stay so unless the conflict's case meets an active human; stranded desks stay so. */
  lemma NoticedDesk(d: Desk, conflict: Option<CaseId>, settles: bool, uid: Unique)
    requires Coherent(d) || Stranded(d)
    requires conflict.Some? ==> conflict.value !in d.cases && CreateHandoff(d, conflict.value, OtherReason, uid).Applied?
    ensures var d' := Noticed(d, conflict, settles, uid);
            && (Coherent(d') || Stranded(d'))
            && (Stranded(d') <==> Stranded(d) || (conflict.Some? && d.conv.state == HumanActive))
            && (d'.conv.epoch == d.conv.epoch || uid <= d'.conv.epoch < uid + 4)
            && d'.conv.customer == d.conv.customer
  {
    var waiting := if conflict.Some? then CreateHandoff(d, conflict.value, OtherReason, uid).desk else d;
    if conflict.Some? { OpenedDesk(d, conflict.value, uid); }
    if Coherent(waiting) { SettlementKeepsCoherence(waiting, uid + 1); }
    SettledDesk(waiting, uid + 1);
    if Stranded(Noticed(d, conflict, settles, uid)) { StrandedIsIncoherent(Noticed(d, conflict, settles, uid)); }
    if Stranded(waiting) { StrandedIsIncoherent(waiting); }
    if Stranded(d) { StrandedIsIncoherent(d); }
  }

  lemma OpenedDesk(d: Desk, newCase: CaseId, uid: Unique)
    requires (Coherent(d) || Stranded(d)) && newCase !in d.cases && CreateHandoff(d, newCase, OtherReason, uid).Applied?
    ensures var d' := CreateHandoff(d, newCase, OtherReason, uid).desk;
            && (if Stranded(d) || d.conv.state == HumanActive then Stranded(d') else Coherent(d'))
            && (d'.conv.epoch == d.conv.epoch || d'.conv.epoch == uid) && d'.conv.customer == d.conv.customer
  {
    if Stranded(d) {
      StrandedStays(d, Reply(0), d, newCase, OtherReason, uid);
    } else {
      CreateHandoffCoherentIff(d, newCase, OtherReason, uid);
      if d.conv.state == HumanActive { ConflictStrands(d, newCase, uid); }
    }
  }

  lemma SettledDesk(d: Desk, uid: Unique)
    ensures var d' := ResolvePayment(d, uid);
            && (Stranded(d) ==> Stranded(d'))
            && (d'.conv.epoch == d.conv.epoch || uid <= d'.conv.epoch < uid + 3) && d'.conv.customer == d.conv.customer
  {
    if Stranded(d) {
      var id :| id in d.cases && d.cases[id].status == CasePending && d.cases[id].reason != PaymentReview;
      assert ResolvePayment(d, uid).cases[id] == d.cases[id] && Open(d.cases[id]);
    }
  }

  lemma StrandedRefuses(d: Desk, command: Command, uid: Unique)
    requires Stranded(d) && FreshCase(d, command)
    ensures Perform(d, command, uid).Refused?
  {
    var id :| id in d.cases && d.cases[id].status == CasePending && d.cases[id].reason != PaymentReview;
    assert Open(d.cases[id]);
  }

  lemma PaymentNoticeInv(w: World, s: Settings, step: Step)
    requires Inv(w, s) && step.PaymentNotice? && Enabled(w, s, step)
    ensures Inv(DoPaymentNotice(w, step.conv, step.conflict, step.settled, step.top), s)
  {
    var w' := DoPaymentNotice(w, step.conv, step.conflict, step.settled, step.top);
    if w' != w {
      DesksOnlyKeepsRows(w, w', s);
      forall c | c in w'.desks ensures DeskOk(w', c) {
        assert DeskOk(w, c);
        NoticedDesk(w.desks[c], ConflictOf(c, step.conv, step.conflict), c in step.settled, w.supply + 4 * c);
      }
    }
  }

  lemma NewRowInv(w: World, s: Settings, id: RowId, row: Row, facts: Facts)
    requires Inv(w, s) && s.maxAttempts >= 1
    requires id !in w.rows && IsFresh(row) && EpochDrawn(w, row)
    ensures Inv(SetRow(w, id, row).(facts := facts), s)
  {
    var w' := SetRow(w, id, row).(facts := facts);
    assert RowUnseen(w, id);
    forall j | j in w'.rows ensures RowOk(w', s, j) {
      assert j != id ==> RowOk(w, s, j);
      assert Callers(w', j) == Callers(w, j);
      if j == id {
        forall t | t in w.workers ensures w.workers[t].row != id { assert WorkerOk(w, t); }
        assert Callers(w', id) == {};
      }
    }
    forall j ensures RowUnseen(w', j) { assert RowUnseen(w, j); }
    forall t | t in w'.workers ensures WorkerOk(w', t) { assert WorkerOk(w, t); }
    forall t ensures TokenOk(w', t) { assert TokenOk(w, t); }
    DesksKept(w, w', s);
  }

  // --- one row released, claimed, reaped ---

  /** Replacing one row by what a settlement or a refused decision leaves. */
  lemma SettledRowInv(w: World, s: Settings, id: RowId, r': Row)
    requires Inv(w, s) && id in w.rows
    requires Settled(w, s, id, r')
    ensures Inv(SetRow(w, id, r'), s)
  {
    var w' := SetRow(w, id, r');
    assert RowOk(w, s, id);
    OtherRowsKept(w, w', s, id);
    assert Callers(w', id) == Callers(w, id);
    if w.rows[id].token.Some? { assert TokenOk(w, w.rows[id].token.value); }
    assert RowOk(w', s, id);
    forall t | t in w'.workers ensures WorkerOk(w', t) { assert WorkerOk(w, t); }
    forall t ensures TokenOk(w', t) { assert TokenOk(w, t); }
    DesksKept(w, w', s);
  }

  lemma WaitOrRetireInv(w: World, s: Settings, id: RowId, now: int)
    requires Inv(w, s) && Located(w, id) && w.rows[id].status == Pending
    requires !DependencyGate(w.rows, w.rows[id]).Clear?
    ensures Inv(ClaimRow(w, id, now), s)
  {
    var gate := DependencyGate(w.rows, w.rows[id]);
    if gate.Retire? {
      assert RowOk(w, s, id);
      RetiredRow(w, s, id);
      SettledRowInv(w, s, id, gate.row);
    }
  }

  lemma RetiredRow(w: World, s: Settings, id: RowId)
    requires id in w.rows && RowOk(w, s, id) && w.rows[id].status == Pending
    requires DependencyGate(w.rows, w.rows[id]).Retire?
    ensures Settled(w, s, id, DependencyGate(w.rows, w.rows[id]).row)
  {
  }

  lemma ClaimedOnlyRow(w: World, id: RowId, now: int)
    requires Located(w, id) && DependencyGate(w.rows, w.rows[id]).Clear? && w.rows[id].status == Pending
    requires w.supply !in w.issued && w.supply !in w.workers
    ensures OnlyRow(w, ClaimRow(w, id, now), id)
  {
  }

  lemma ClaimedRowOk(w: World, s: Settings, id: RowId, now: int)
    requires Located(w, id) && DependencyGate(w.rows, w.rows[id]).Clear? && w.rows[id].status == Pending
    requires RowOk(w, s, id) && w.supply !in w.workers && w.hist[TokenAdmitted(w.supply)] == 0
    ensures RowOk(ClaimRow(w, id, now), s, id)
  {
    var w' := ClaimRow(w, id, now);
    assert Callers(w', id) == Callers(w, id);
    assert w'.hist[Acquired(id)] == w.hist[Acquired(id)] + 1;
    assert w'.hist[RowAdmitted(id)] == w.hist[RowAdmitted(id)];
    assert Bounded(w', s, id);
    assert Honest(w', id);
    assert Ordered(w', id);
  }

  lemma ClearClaimInv(w: World, s: Settings, id: RowId, now: int)
    requires Inv(w, s) && Located(w, id) && w.rows[id].status == Pending
    requires DependencyGate(w.rows, w.rows[id]).Clear?
    ensures Inv(ClaimRow(w, id, now), s)
  {
    var w' := ClaimRow(w, id, now);
    assert RowOk(w, s, id) && TokenOk(w, w.supply);
    ClaimedOnlyRow(w, id, now);
    ClaimedRowOk(w, s, id, now);
    OtherRowsKept(w, w', s, id);
    forall t ensures TokenOk(w', t) { assert TokenOk(w, t); }
    forall t | t in w'.workers ensures WorkerOk(w', t) {
      if t == w.supply { assert TokenOk(w, t); } else { assert WorkerOk(w, t); }
    }
    DesksKept(w, w', s);
  }

  lemma ReapInv(w: World, s: Settings, id: RowId, now: int)
    requires Inv(w, s) && Located(w, id) && w.rows[id].status == Sending
    ensures Inv(SetRow(w, id, FailedRow(w, s, id, now, false)), s)
  {
    assert RowOk(w, s, id);
    var r' := FailureRow(w, s, id, now, false);
    SettledRowInv(w, s, id, r');
  }

  // --- the worker's own steps ---

  lemma CallersAfterDrop(w: World, token: Unique, id: RowId)
    requires token in w.workers
    ensures |Callers(Drop(w, token), id)| <= |Callers(w, id)|
  {
    assert Callers(Drop(w, token), id) == Callers(w, id) - {token};
  }

  lemma DropInv(w: World, s: Settings, token: Unique)
    requires Inv(w, s) && token in w.workers
    ensures Inv(Drop(w, token), s)
  {
    var w' := Drop(w, token);
    forall j | j in w'.rows ensures RowOk(w', s, j) {
      assert RowOk(w, s, j);
      CallersAfterDrop(w, token, j);
    }
    forall j ensures RowUnseen(w', j) { assert RowUnseen(w, j); }
    forall t | t in w'.workers ensures WorkerOk(w', t) { assert WorkerOk(w, t); }
    forall t ensures TokenOk(w', t) { assert TokenOk(w, t); }
    DesksKept(w, w', s);
  }

  /** Moving a worker to a program point that allows no more than it has already admitted. */
  lemma MoveInv(w: World, s: Settings, token: Unique, pc: Pc)
    requires Inv(w, s) && token in w.workers
    requires !Calling(pc) && pc != AtReject && PcKind(pc, w.workers[token].kind)
    requires w.hist[TokenAdmitted(token)] <= AdmittedBy(pc, w.workers[token].kind)
    ensures Inv(MoveTo(w, token, pc), s)
  {
    var w' := MoveTo(w, token, pc);
    forall j | j in w'.rows ensures RowOk(w', s, j) { MovedRowOk(w, s, token, pc, j); }
    forall j ensures RowUnseen(w', j) { assert RowUnseen(w, j); }
    forall t | t in w'.workers ensures WorkerOk(w', t) { assert WorkerOk(w, t); }
    forall t ensures TokenOk(w', t) { assert TokenOk(w, t); }
    DesksKept(w, w', s);
  }

  lemma MovedRowOk(w: World, s: Settings, token: Unique, pc: Pc, j: RowId)
    requires token in w.workers && !Calling(pc) && j in w.rows && RowOk(w, s, j)
    ensures RowOk(MoveTo(w, token, pc), s, j)
  {
    assert Callers(MoveTo(w, token, pc), j) == Callers(w, j) - {token};
  }

  lemma RaiseInv(w: World, s: Settings, token: Unique, permanent: bool)
    requires Inv(w, s) && token in w.workers
    ensures Inv(MoveTo(w, token, AtFailure(permanent)), s)
  {
    assert WorkerOk(w, token) && TokenOk(w, token);
    MoveInv(w, s, token, AtFailure(permanent));
  }

  lemma CalledRowOk(w: World, s: Settings, token: Unique, pc: Pc, j: RowId)
    requires j in w.rows && RowOk(w, s, j)
    requires token in w.workers && Calling(w.workers[token].pc) && !Calling(pc)
    ensures RowOk(MoveTo(w, token, pc).(hist := w.hist + multiset{RowCalled(w.workers[token].row)}), s, j)
  {
    var w' := MoveTo(w, token, pc).(hist := w.hist + multiset{RowCalled(w.workers[token].row)});
    assert Callers(w', j) == Callers(w, j) - {token};
    assert w.workers[token].row == j ==> token in Callers(w, j);
    assert Bounded(w', s, j);
  }

  lemma CalledWorkerOk(w: World, token: Unique, outcome: SendOutcome, t: Unique)
    requires token in w.workers && Calling(w.workers[token].pc) && t in w.workers
    requires WorkerOk(w, t) && TokenOk(w, t)
    ensures WorkerOk(CallProvider(w, token, outcome), t)
  {
  }

  lemma CalledTokenOk(w: World, token: Unique, outcome: SendOutcome, t: Unique)
    requires token in w.workers && TokenOk(w, t)
    ensures TokenOk(CallProvider(w, token, outcome), t)
  {
  }

  /** A provider call turns a permission into a call. */
  lemma SendInv(w: World, s: Settings, token: Unique, outcome: SendOutcome)
    requires Inv(w, s) && token in w.workers && Calling(w.workers[token].pc)
    ensures Inv(CallProvider(w, token, outcome), s)
  {
    var w' := CallProvider(w, token, outcome);
    var pc := AfterSend(w.workers[token].pc, outcome);
    forall j | j in w'.rows ensures RowOk(w', s, j) { CalledRowOk(w, s, token, pc, j); }
    forall j ensures RowUnseen(w', j) {
      assert RowUnseen(w, j);
      assert WorkerOk(w, token);
    }
    forall t | t in w'.workers ensures WorkerOk(w', t) { CalledWorkerOk(w, token, outcome, t); }
    forall t ensures TokenOk(w', t) { CalledTokenOk(w, token, outcome, t); }
    DesksKept(w, w', s);
  }

  lemma RejectedRowOk(w: World, s: Settings, id: RowId, token: Unique)
    requires id in w.rows && RowOk(w, s, id) && Holds(w.rows[id], token) && w.rows[id].kind == Document
    requires w.hist[RowCalled(id)] > 0
    ensures var w1 := SetRow(w, id, RejectMedia(w.rows[id], token).value); OnlyRow(w, w1, id) && RowOk(w1, s, id)
  {
    var w1 := SetRow(w, id, RejectMedia(w.rows[id], token).value);
    assert Callers(w1, id) == Callers(w, id);
    assert Fenced(w1, id) && Honest(w1, id);
    assert Bounded(w1, s, id) && Ordered(w1, id);
  }

  lemma RejectedRowInv(w: World, s: Settings, token: Unique)
    requires Inv(w, s) && Working(w, token) && w.workers[token].pc == AtReject
    requires Holds(w.rows[w.workers[token].row], token)
    ensures var id := w.workers[token].row; Inv(SetRow(w, id, RejectMedia(w.rows[id], token).value), s)
  {
    var id := w.workers[token].row;
    assert WorkerOk(w, token) && RowOk(w, s, id);
    var w1 := SetRow(w, id, RejectMedia(w.rows[id], token).value);
    RejectedRowOk(w, s, id, token);
    OtherRowsKept(w, w1, s, id);
    forall t | t in w1.workers ensures WorkerOk(w1, t) { assert WorkerOk(w, t); }
    forall t ensures TokenOk(w1, t) { assert TokenOk(w, t); }
    DesksKept(w, w1, s);
  }

  lemma RejectInv(w: World, s: Settings, token: Unique)
    requires Inv(w, s) && Working(w, token) && w.workers[token].pc == AtReject
    ensures Inv(DoReject(w, token), s)
  {
    var id := w.workers[token].row;
    assert WorkerOk(w, token);
    if Holds(w.rows[id], token) {
      RejectedRowInv(w, s, token);
      MoveInv(SetRow(w, id, RejectMedia(w.rows[id], token).value), s, token, AtCheck2);
    } else {
      DropInv(w, s, token);
    }
  }

  lemma SucceededRow(w: World, s: Settings, id: RowId, now: int) returns (r': Row)
    requires Located(w, id) && RowOk(w, s, id) && w.rows[id].status == Sending
    ensures r' == SettleSuccess(w.facts, w.desks[w.rows[id].conv], id, w.rows[id], now, s) && Settled(w, s, id, r')
  {
    r' := SettleSuccess(w.facts, w.desks[w.rows[id].conv], id, w.rows[id], now, s);
    if w.rows[id].message !in w.facts.messages { r' := FailureRow(w, s, id, now, false); }
  }

  lemma SettleOkInv(w: World, s: Settings, token: Unique, now: int)
    requires Inv(w, s) && Working(w, token)
    ensures Inv(DoSettleOk(w, s, token, now), s)
  {
    var id := w.workers[token].row;
    if Holds(w.rows[id], token) {
      assert RowOk(w, s, id);
      var r' := SucceededRow(w, s, id, now);
      SettledRowInv(w, s, id, r');
      DropInv(SetRow(w, id, r'), s, token);
    } else {
      DropInv(w, s, token);
    }
  }

  lemma SettleFailInv(w: World, s: Settings, token: Unique, now: int, permanent: bool)
    requires Inv(w, s) && Working(w, token)
    ensures Inv(DoSettleFail(w, s, token, now, permanent), s)
  {
    var id := w.workers[token].row;
    if Holds(w.rows[id], token) {
      assert RowOk(w, s, id);
      var r' := FailureRow(w, s, id, now, permanent);
      SettledRowInv(w, s, id, r');
      DropInv(SetRow(w, id, r'), s, token);
    } else {
      DropInv(w, s, token);
    }
  }

  // --- the decision that grants permission ---

  predicate Granting(w: World, token: Unique)
    requires Working(w, token)
  {
    var row := w.rows[w.workers[token].row];
    && Holds(row, token) && !AdmitPhase(row)
    && Eligibility(w.facts, w.desks[row.conv], w.workers[token].row, row).result == Eligible
  }

  lemma StoppedRow(w: World, s: Settings, id: RowId, a: Row, ruling: Ruling)
    requires id in w.rows && RowOk(w, s, id) && w.rows[id].status == Sending && !AdmitPhase(w.rows[id])
    requires SameButContext(w.rows[id], a) && ruling.result != Eligible
    ensures Settled(w, s, id, Stop(a, ruling))
  {
  }

  lemma StoppedDecisionInv(w: World, s: Settings, token: Unique)
    requires Inv(w, s) && Working(w, token)
    requires var row := w.rows[w.workers[token].row];
             Holds(row, token) && !AdmitPhase(row)
             && Eligibility(w.facts, w.desks[row.conv], w.workers[token].row, row).result != Eligible
    ensures Inv(DecideRow(w, token), s)
  {
    var id := w.workers[token].row;
    assert RowOk(w, s, id);
    var ruling := Eligibility(w.facts, w.desks[w.rows[id].conv], id, w.rows[id]);
    var a := Adopt(w.facts, id, w.rows[id]);
    StoppedRow(w, s, id, a, ruling);
    SettledRowInv(w, s, id, Stop(a, ruling));
    DropInv(SetRow(w, id, Stop(a, ruling)), s, token);
    assert Decide(w.facts, w.desks[w.rows[id].conv], id, w.rows[id], token, Admitting(w.workers[token].pc))
           == DecideBy(ruling, a, token, Admitting(w.workers[token].pc));
  }

  lemma RefusedDecisionInv(w: World, s: Settings, token: Unique)
    requires Inv(w, s) && Working(w, token) && !Granting(w, token)
    ensures Inv(DecideRow(w, token), s)
  {
    var id := w.workers[token].row;
    if !Holds(w.rows[id], token) || AdmitPhase(w.rows[id]) {
      assert SetRow(w, id, w.rows[id]) == w;
      DropInv(w, s, token);
    } else {
      StoppedDecisionInv(w, s, token);
    }
  }

  /** check_outbox on an eligible document changes nothing but the worker's place. */
  lemma CheckedDecisionInv(w: World, s: Settings, token: Unique)
    requires Inv(w, s) && Working(w, token) && Granting(w, token)
    requires Deciding(w.workers[token].pc) && !Admitting(w.workers[token].pc)
    ensures Inv(DecideRow(w, token), s)
  {
    var id := w.workers[token].row;
    assert WorkerOk(w, token);
    assert Adopt(w.facts, id, w.rows[id]) == w.rows[id];
    assert SetRow(w, id, w.rows[id]) == w;
    MoveInv(w, s, token, AfterDecision(w.workers[token].pc));
  }

  predicate Grants(w: World, token: Unique) {
    Working(w, token) && Admitting(w.workers[token].pc) && Granting(w, token)
  }

  lemma GrantedOnlyRow(w: World, token: Unique)
    requires Grants(w, token) && WorkerOk(w, token)
    ensures OnlyRow(w, DecideRow(w, token), w.workers[token].row)
  {
  }

  lemma GrantedRowOk(w: World, s: Settings, token: Unique)
    requires Grants(w, token)
    requires RowOk(w, s, w.workers[token].row) && WorkerOk(w, token)
    ensures RowOk(DecideRow(w, token), s, w.workers[token].row)
  {
    var id := w.workers[token].row;
    var w' := DecideRow(w, token);
    assert Callers(w', id) == Callers(w, id) + {token};
    assert token !in Callers(w, id);
    assert w'.hist[RowAdmitted(id)] == w.hist[RowAdmitted(id)] + 1;
    assert w'.hist[TokenAdmitted(token)] == w.hist[TokenAdmitted(token)] + 1;
    assert Fenced(w', id) && Honest(w', id);
    assert Bounded(w', s, id);
    assert Ordered(w', id);
  }

  lemma GrantedTokenOk(w: World, token: Unique, t: Unique)
    requires Grants(w, token) && WorkerOk(w, token) && TokenOk(w, t)
    ensures TokenOk(DecideRow(w, token), t)
  {
  }

  lemma GrantedWorkerOk(w: World, token: Unique, t: Unique)
    requires Grants(w, token) && WorkerOk(w, token) && t in w.workers && WorkerOk(w, t)
    ensures WorkerOk(DecideRow(w, token), t)
  {
  }

  lemma GrantedDecisionInv(w: World, s: Settings, token: Unique)
    requires Inv(w, s) && Grants(w, token)
    ensures Inv(DecideRow(w, token), s)
  {
    var id := w.workers[token].row;
    var w' := DecideRow(w, token);
    assert WorkerOk(w, token) && RowOk(w, s, id);
    GrantedOnlyRow(w, token);
    GrantedRowOk(w, s, token);
    OtherRowsKept(w, w', s, id);
    forall t | t in w'.workers ensures WorkerOk(w', t) { GrantedWorkerOk(w, token, t); }
    forall t ensures TokenOk(w', t) { GrantedTokenOk(w, token, t); }
    DesksKept(w, w', s);
  }

  lemma DecisionInv(w: World, s: Settings, token: Unique)
    requires Inv(w, s) && Working(w, token) && Deciding(w.workers[token].pc)
    ensures Inv(DecideRow(w, token), s)
  {
    if !Granting(w, token) {
      RefusedDecisionInv(w, s, token);
    } else if !Admitting(w.workers[token].pc) {
      CheckedDecisionInv(w, s, token);
    } else {
      GrantedDecisionInv(w, s, token);
    }
  }

  lemma ReplyInv(w: World, s: Settings, conv: ConvId, agent: AgentId, id: RowId, message: MessageId)
    requires Inv(w, s) && s.maxAttempts >= 1 && conv in w.desks && id !in w.rows
    ensures Inv(DoReply(w, conv, agent, id, message), s)
  {
    if ReplySpec(w.desks[conv], agent).Applied? {
      NewRowInv(w, s, id, ReplyRow(conv, agent, message), w.facts.(audits := w.facts.audits + {(id, conv)}));
    }
  }

  lemma LearnInv(w: World, s: Settings, facts: Facts)
    requires Inv(w, s)
    ensures Inv(w.(facts := facts), s)
  {
    DesksOnlyKeepsRows(w, w.(facts := facts), s);
    DesksKept(w, w.(facts := facts), s);
  }

  // --- every step, every run ---

  lemma StepInv(w: World, s: Settings, step: Step)
    requires Inv(w, s) && s.maxAttempts >= 1 && Enabled(w, s, step)
    ensures Inv(Next(w, s, step), s)
  {
    match step
    case HumanCommand(conv, command) => CommandInv(w, s, conv, command);
    case AgentMessage(conv, agent, id, message) => ReplyInv(w, s, conv, agent, id, message);
    case Turn(conv, desk) => TurnInv(w, s, conv, desk);
    case Reset(customer, top) => ResetInv(w, s, customer, top);
    case OpenConversation(conv, customer) => OpenInv(w, s, conv, customer);
    case PaymentNotice(conv, conflict, settled, top) => PaymentNoticeInv(w, s, step);
    case Enqueue(id, row) =>
      NewRowInv(w, s, id, row, w.facts);
      assert Next(w, s, step) == SetRow(w, id, row).(facts := w.facts);
    case Learn(facts) => LearnInv(w, s, facts);
    case Claim(id, now) =>
      if DependencyGate(w.rows, w.rows[id]).Clear? { ClearClaimInv(w, s, id, now); }
      else { WaitOrRetireInv(w, s, id, now); }
    case Reap(id, now) => ReapInv(w, s, id, now);
    case Decision(token) => DecisionInv(w, s, token);
    case Send(token, outcome) => SendInv(w, s, token, outcome);
    case Raise(token, permanent) => RaiseInv(w, s, token, permanent);
    case RejectedByProvider(token) => RejectInv(w, s, token);
    case SettleOk(token, now) => SettleOkInv(w, s, token, now);
    case SettleFail(token, now) => SettleFailInv(w, s, token, now, w.workers[token].pc.permanent);
    case Crash(token) => DropInv(w, s, token);
  }
}
