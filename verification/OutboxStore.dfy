/** Outbox rows as the objects the worker updates in place. Every method is proved against the row
    functions of Delivery, and the claim batch against the steps of the outbox protocol. */
module OutboxStore {
  import opened Common
  import opened Ownership
  import opened Delivery
  import opened Authority
  import Protocol = DeliveryProtocol

  predicate StaleSending(row: Row, now: int, s: Settings) {
    row.status == Sending && Stale(row, now - s.sendingTimeout)
  }

  function Reaped(facts: Facts, desk: Desk, id: RowId, row: Row, now: int, s: Settings): Row {
    if StaleSending(row, now, s) then MarkFailure(facts, desk, id, row, now, false, s) else row
  }

  class OutboxRow {
    const conv: ConvId
    const message: MessageId
    const kind: Kind
    const agentPayload: bool
    const createdAt: int
    var context: Option<Context>
    var status: RowStatus
    var attempts: nat
    var token: Option<Unique>
    var claimedAt: Option<int>
    var nextAttempt: Option<int>
    var admission: Option<Admission>
    var reason: Reason

    function Value(): Row
      reads this
    {
      Row(conv, message, kind, agentPayload, context, status, attempts, token, claimedAt, createdAt, nextAttempt,
          admission, reason)
    }

    method StopDelivery(ruling: Ruling)
      requires ruling.result != Eligible
      modifies this
      ensures Value() == Stop(old(Value()), ruling)
    {
      var result := StatusFor(ruling.result);
      var why := ruling.reason;
      if admission.Some? && (admission.value.phase == Admitted || admission.value.phase == Unknown) {
        result, why := Review, ExternalResultUncertain(why);
      }
      status := result;
      reason := why;
      token, claimedAt, nextAttempt := None, None, None;
    }

    /** eligibility, which fills the context of a row that only an audit record can prove. */
    method Judge(facts: Facts, desk: Desk, id: RowId) returns (ruling: Ruling)
      modifies this`context
      ensures ruling == Eligibility(facts, desk, id, old(Value()))
      ensures ruling.result == Eligible <==> MaySpeak(facts, desk, id, old(Value()))
      ensures Value() == Adopt(facts, id, old(Value()))
    {
      EligibleIff(facts, desk, id, Value());
      ruling := Eligibility(facts, desk, id, Value());
      if context.None? && HumanProof(facts, id, Value()) {
        context := Some(LegacyHumanContext);
      }
    }

    method Decide(facts: Facts, desk: Desk, id: RowId, claim: Unique, admit: bool) returns (decision: Decision)
      modifies this
      ensures (Value(), decision) == Delivery.Decide(facts, desk, id, old(Value()), claim, admit)
      ensures decision == AdmittedNow || decision == EligibleNow <==>
                Holds(old(Value()), claim) && !AdmitPhase(old(Value())) && MaySpeak(facts, desk, id, old(Value()))
    {
      EligibleIff(facts, desk, id, Value());
      if status != Sending || token != Some(claim) {
        return Discarded;
      }
      if admission.Some? && admission.value.phase == Admitted {
        return Discarded;
      }
      var ruling := Judge(facts, desk, id);
      if ruling.result != Eligible {
        StopDelivery(ruling);
        return if status == Suppressed then SuppressedNow else ReviewNow;
      }
      if !admit {
        return EligibleNow;
      }
      admission := Some(Admission(Some(claim), Admitted));
      return AdmittedNow;
    }

    method Reject(claim: Unique) returns (done: bool)
      modifies this
      ensures done <==> RejectMedia(old(Value()), claim).Some?
      ensures Value() == if done then RejectMedia(old(Value()), claim).value else old(Value())
    {
      if status != Sending || token != Some(claim) {
        return false;
      }
      admission := Some(Admission(if admission.Some? then admission.value.token else None, RejectedMedia));
      return true;
    }

    method Fail(facts: Facts, desk: Desk, id: RowId, now: int, permanent: bool, s: Settings)
      modifies this
      ensures Value() == MarkFailure(facts, desk, id, old(Value()), now, permanent, s)
    {
      var ruling := Judge(facts, desk, id);
      FailUnder(ruling, now, permanent, s);
    }

    /** The rest of _mark_outbox_failure_locked, once eligibility has ruled. */
    method FailUnder(ruling: Ruling, now: int, permanent: bool, s: Settings)
      modifies this
      ensures Value() == FailBy(ruling, old(Value()), now, permanent, s)
    {
      if ruling.result != Eligible {
        StopDelivery(ruling);
        if admission.Some? && admission.value.phase == Admitted {
          attempts := attempts + 1;
          admission := Some(admission.value.(phase := Unknown));
        }
        return;
      }
      if admission.Some? && admission.value.phase == Admitted {
        admission := Some(admission.value.(phase := Unknown));
      }
      token := None;
      attempts := attempts + 1;
      claimedAt := None;
      if permanent || attempts >= s.maxAttempts {
        status, nextAttempt := Failed, None;
      } else {
        status, nextAttempt := Pending, Some(now + Backoff(attempts, s.maxBackoff));
      }
    }

    /** One candidate of recover_stale_sending_outbox; afterwards the row is not SENDING and stale. */
    method Reap(facts: Facts, desk: Desk, id: RowId, now: int, s: Settings) returns (failed: bool)
      modifies this
      ensures failed <==> StaleSending(old(Value()), now, s)
      ensures Value() == Reaped(facts, desk, id, old(Value()), now, s) && !StaleSending(Value(), now, s)
    {
      failed := status == Sending && Stale(Value(), now - s.sendingTimeout);
      if failed {
        Fail(facts, desk, id, now, false, s);
      }
    }

    /** settle_outbox_success and settle_outbox_failure: nothing happens under a stale token. */
    method Settle(facts: Facts, desk: Desk, id: RowId, claim: Unique, delivered: bool, now: int, permanent: bool,
                  s: Settings) returns (applied: bool)
      modifies this
      ensures applied <==> Holds(old(Value()), claim)
      ensures Value() ==
                if !applied then old(Value())
                else if delivered then SettleSuccess(facts, desk, id, old(Value()), now, s)
                else MarkFailure(facts, desk, id, old(Value()), now, permanent, s)
    {
      if status != Sending || token != Some(claim) {
        return false;
      }
      if !delivered {
        Fail(facts, desk, id, now, permanent, s);
        return true;
      }
      if message !in facts.messages {
        Fail(facts, desk, id, now, false, s);
        return true;
      }
      status := Sent;
      if admission.Some? {
        admission := Some(admission.value.(phase := PhaseSent));
      }
      token, claimedAt, nextAttempt := None, None, None;
      return true;
    }
  }

  /** The rows a reaper pass fails: stale, and not held by another transaction. */
  predicate Reapable(row: Row, id: RowId, locked: set<RowId>, now: int, s: Settings) {
    StaleSending(row, now, s) && id !in locked
  }

  function ReapableCount(rows: map<RowId, Row>, ids: seq<RowId>, locked: set<RowId>, now: int, s: Settings): nat
    requires forall id | id in ids :: id in rows
  {
    if ids == [] then 0
    else
      var last := ids[|ids|-1];
      assert last in ids;
      ReapableCount(rows, ids[..|ids|-1], locked, now, s)
      + (if Reapable(rows[last], last, locked, now, s) then 1 else 0)
  }

  /** The rows after a reaper pass. */
  function ReapedRows(facts: Facts, desks: map<ConvId, Desk>, rows: map<RowId, Row>, ids: seq<RowId>,
                      locked: set<RowId>, now: int, s: Settings): map<RowId, Row>
    requires forall id | id in ids && id in rows :: rows[id].conv in desks
  {
    map id | id in rows ::
      if id in ids && id !in locked then Reaped(facts, desks[rows[id].conv], id, rows[id], now, s) else rows[id]
  }

  /** One candidate further. */
  lemma ReapedStep(facts: Facts, desks: map<ConvId, Desk>, rows: map<RowId, Row>, ids: seq<RowId>,
                   locked: set<RowId>, now: int, s: Settings, n: nat)
    requires n < |ids| && ids[n] !in ids[..n] && forall k | 0 <= k <= n :: ids[k] in rows && rows[ids[k]].conv in desks
    ensures var id := ids[n];
            && (forall k | k in ids[..n+1] :: k in rows && rows[k].conv in desks)
            && ReapedRows(facts, desks, rows, ids[..n], locked, now, s)[id] == rows[id]
            && ReapedRows(facts, desks, rows, ids[..n+1], locked, now, s)
               == (if Reapable(rows[id], id, locked, now, s)
                   then ReapedRows(facts, desks, rows, ids[..n], locked, now, s)
                          [id := MarkFailure(facts, desks[rows[id].conv], id, rows[id], now, false, s)]
                   else ReapedRows(facts, desks, rows, ids[..n], locked, now, s))
            && ReapableCount(rows, ids[..n+1], locked, now, s)
               == ReapableCount(rows, ids[..n], locked, now, s)
                  + (if Reapable(rows[id], id, locked, now, s) then 1 else 0)
  {
    assert ids[..n+1] == ids[..n] + [ids[n]] && ids[..n+1][..n] == ids[..n];
  }

  // ----- The table -----

  datatype ClaimOf = ClaimOf(row: RowId, token: Unique)

  datatype Batch = Batch(rows: map<RowId, Row>, claims: seq<ClaimOf>, supply: Unique)

  /** One row of the batch, on values. */
  function ClaimInto(b: Batch, id: RowId, now: int): Batch
    requires id in b.rows
  {
    match DependencyGate(b.rows, b.rows[id])
    case Wait => b
    case Retire(row) => b.(rows := b.rows[id := row])
    case Clear =>
      Batch(b.rows[id := b.rows[id].(status := Sending, claimedAt := Some(now), token := Some(b.supply))],
            b.claims + [ClaimOf(id, b.supply)], b.supply + 1)
  }

  function ClaimAll(b: Batch, ids: seq<RowId>, now: int): (r: Batch)
    requires forall id | id in ids :: id in b.rows
    ensures r.rows.Keys == b.rows.Keys
  {
    if ids == [] then b
    else ClaimInto(ClaimAll(b, ids[..|ids|-1], now), ids[|ids|-1], now)
  }

  class OutboxTable {
    var rows: map<RowId, OutboxRow>
    var supply: Unique

    /** No two ids share a row object. */
    ghost predicate Valid()
      reads this
    {
      forall a, b | a in rows && b in rows && rows[a] == rows[b] :: a == b
    }

    function Snapshot(): map<RowId, Row>
      reads this, rows.Values
    {
      map id | id in rows :: rows[id].Value()
    }

    twostate lemma OneRowChanged(id: RowId)
      requires old(Valid()) && rows == old(rows) && id in rows
      requires forall o | o in rows.Values && o != rows[id] :: o.Value() == old(o.Value())
      ensures Snapshot() == old(Snapshot())[id := rows[id].Value()]
    {
      forall other | other in rows && other != id
        ensures Snapshot()[other] == old(Snapshot())[other]
      {
        assert rows[other] in rows.Values;
      }
    }

    /** _dependency_blocks_claim */
    method DependencyBlocks(row: OutboxRow, id: RowId) returns (blocked: bool)
      requires Valid() && id in rows && rows[id] == row
      modifies row
      ensures var gate := DependencyGate(old(Snapshot()), old(row.Value()));
              && (blocked <==> !gate.Clear?)
              && Snapshot() == (if gate.Retire? then old(Snapshot())[id := gate.row] else old(Snapshot()))
    {
      ghost var before := Snapshot();
      if row.context.None? || row.context.value.NotAnObject? || row.context.value.after == NoKey {
        return false;
      }
      var after := row.context.value.after;
      if row.kind != Document || after.NotAnInteger? || !(0 < after.n <= MaxRowId) {
        row.StopDelivery(Ruling(ReviewIt, PrecedingTextUnproven));
        OneRowChanged(id);
        return true;
      }
      if after.n !in rows || rows[after.n].kind != Text || rows[after.n].conv != row.conv
         || rows[after.n].message != row.message
      {
        row.StopDelivery(Ruling(ReviewIt, PrecedingTextUnproven));
        OneRowChanged(id);
        return true;
      }
      var predecessor := rows[after.n];
      if predecessor.status == Sent {
        return false;
      }
      if predecessor.status == Pending || predecessor.status == Sending {
        return true;
      }
      if predecessor.status == Suppressed {
        row.StopDelivery(Ruling(SuppressIt, if predecessor.reason == NoReason then PrecedingTextSuppressed
                                            else predecessor.reason));
      } else if predecessor.status == Failed {
        row.StopDelivery(Ruling(SuppressIt, PrecedingTextFailed));
      } else {
        row.StopDelivery(Ruling(ReviewIt, PrecedingTextReview));
      }
      OneRowChanged(id);
      return true;
    }

    method ClaimRow(id: RowId, now: int) returns (claimed: bool)
      requires Valid() && id in rows
      modifies this`supply, rows[id]
      ensures Valid() && rows == old(rows)
      ensures forall b: Batch | b.rows == old(Snapshot()) && b.supply == old(supply) ::
                ClaimInto(b, id, now)
                == Batch(Snapshot(), if claimed then b.claims + [ClaimOf(id, old(supply))] else b.claims, supply)
    {
      ghost var before := Snapshot();
      var row := rows[id];
      var blocked := DependencyBlocks(row, id);
      if blocked {
        return false;
      }
      row.status := Sending;
      row.claimedAt := Some(now);
      row.token := Some(supply);
      supply := supply + 1;
      OneRowChanged(id);
      return true;
    }

    /** claim_due_outbox_batch, from the rows its query selected. */
    method ClaimBatch(selected: seq<RowId>, now: int) returns (claims: seq<ClaimOf>)
      requires Valid() && forall id | id in selected :: id in rows
      modifies this`supply, rows.Values
      ensures Valid() && rows == old(rows)
      ensures Batch(Snapshot(), claims, supply)
           == ClaimAll(Batch(old(Snapshot()), [], old(supply)), selected, now)
    {
      claims := [];
      ghost var start := Batch(Snapshot(), [], supply);
      for i := 0 to |selected|
        invariant Valid() && rows == old(rows)
        invariant Batch(Snapshot(), claims, supply) == ClaimAll(start, selected[..i], now)
      {
        var id := selected[i];
        assert selected[..i+1][..i] == selected[..i];
        ghost var before := Batch(Snapshot(), claims, supply);
        var token := supply;
        var claimed := ClaimRow(id, now);
        if claimed {
          claims := claims + [ClaimOf(id, token)];
        }
        assert Batch(Snapshot(), claims, supply) == ClaimInto(before, id, now);
      }
      assert selected[..|selected|] == selected;
    }

    method ReapOne(id: RowId, facts: Facts, desk: Desk, now: int, s: Settings) returns (failed: bool)
      requires Valid() && id in rows
      modifies rows[id]
      ensures Valid() && rows == old(rows) && (failed <==> StaleSending(old(Snapshot())[id], now, s))
      ensures Snapshot() == if failed
                            then old(Snapshot())[id := MarkFailure(facts, desk, id, old(Snapshot())[id], now, false, s)]
                            else old(Snapshot())
      ensures !StaleSending(Snapshot()[id], now, s)
    {
      failed := rows[id].Reap(facts, desk, id, now, s);
      OneRowChanged(id);
      assert old(Snapshot())[id := old(Snapshot())[id]] == old(Snapshot());
    }

    /** recover_stale_sending_outbox over its candidates. `locked` are those that, when their turn comes, another
        transaction holds: they are passed over. Of the others exactly those still stale are failed. */
    method RecoverStale(candidates: seq<RowId>, locked: set<RowId>, facts: Facts, desks: map<ConvId, Desk>, now: int,
                        s: Settings)
      returns (recovered: nat)
      requires Valid()
      requires forall id | id in candidates :: id in rows && rows[id].conv in desks
      requires forall i, j | 0 <= i < j < |candidates| :: candidates[i] != candidates[j]
      modifies rows.Values
      ensures rows == old(rows) && recovered == ReapableCount(old(Snapshot()), candidates, locked, now, s)
      ensures Snapshot() == ReapedRows(facts, desks, old(Snapshot()), candidates, locked, now, s)
      ensures forall id | id in candidates && StaleSending(Snapshot()[id], now, s) :: id in locked
    {
      recovered := 0;
      ghost var start := Snapshot();
      assert start.Keys == rows.Keys && forall id | id in rows :: start[id].conv == rows[id].conv;
      forall k | 0 <= k < |candidates| ensures candidates[k] in start && start[candidates[k]].conv in desks {
        var id := candidates[k];
        assert id in candidates;
      }
      for i := 0 to |candidates|
        invariant Valid() && rows == old(rows)
        invariant forall id | id in candidates[..i] :: id in start && start[id].conv in desks
        invariant recovered == ReapableCount(start, candidates[..i], locked, now, s)
        invariant Snapshot() == ReapedRows(facts, desks, start, candidates[..i], locked, now, s)
        invariant forall id | id in candidates[..i] && StaleSending(Snapshot()[id], now, s) :: id in locked
      {
        var id := candidates[i];
        ReapedStep(facts, desks, start, candidates, locked, now, s, i);
        assert Snapshot()[id] == start[id];
        if id in locked {
          continue;
        }
        var failed := ReapOne(id, facts, desks[rows[id].conv], now, s);
        if failed {
          recovered := recovered + 1;
        }
      }
      assert candidates[..|candidates|] == candidates;
    }
  }

  // ----- The batch as a run of the protocol -----

  /** Claiming one selected row leaves every other selected row selected: no step of the batch takes
      away what the query promised. */
  lemma SelectionSurvives(b: Batch, id: RowId, other: RowId, now: int)
    requires id in b.rows && other in b.rows && id != other
    requires Selected(b.rows, b.rows[id], now) && Selected(b.rows, b.rows[other], now)
    ensures other in ClaimInto(b, id, now).rows
    ensures Selected(ClaimInto(b, id, now).rows, ClaimInto(b, id, now).rows[other], now)
  {
  }

  ghost predicate BatchStep(s: Settings, w: Protocol.World, w': Protocol.World, id: RowId, now: int) {
    Protocol.Enabled(w, s, Protocol.Claim(id, now)) && w' == Protocol.Next(w, s, Protocol.Claim(id, now))
  }

  ghost predicate BatchRun(s: Settings, worlds: seq<Protocol.World>, ids: seq<RowId>, now: int) {
    && |worlds| == |ids| + 1
    && forall i | 0 <= i < |ids| :: BatchStep(s, worlds[i], worlds[i+1], ids[i], now)
  }

  lemma OneClaim(s: Settings, w: Protocol.World, b: Batch, id: RowId, now: int) returns (w': Protocol.World)
    requires w.rows == b.rows && w.supply == b.supply
    requires Protocol.Located(w, id) && Selected(w.rows, w.rows[id], now)
    ensures BatchStep(s, w, w', id, now)
    ensures w'.rows == ClaimInto(b, id, now).rows && w'.supply == ClaimInto(b, id, now).supply && w'.desks == w.desks
    ensures forall k | k in w.rows :: k in w'.rows && w'.rows[k].conv == w.rows[k].conv
  {
    w' := Protocol.ClaimRow(w, id, now);
  }

  /** The batch transaction is a run of Claim steps of the protocol, one for each selected row, each
      enabled when its turn comes; so whatever holds over all runs of the protocol holds of batches. */
  lemma {:induction false} BatchRefinesProtocol(s: Settings, w: Protocol.World, ids: seq<RowId>, now: int)
    returns (worlds: seq<Protocol.World>)
    requires forall id | id in ids :: id in w.rows && Protocol.Located(w, id) && Selected(w.rows, w.rows[id], now)
    requires forall i, j | 0 <= i < j < |ids| :: ids[i] != ids[j]
    ensures BatchRun(s, worlds, ids, now) && worlds[0] == w
    ensures var b := ClaimAll(Batch(w.rows, [], w.supply), ids, now);
            worlds[|ids|].rows == b.rows && worlds[|ids|].supply == b.supply
  {
    worlds := [w];
    var b := Batch(w.rows, [], w.supply);
    assert ids[..0] == [];
    forall i | 0 <= i < |ids| ensures ids[i] in b.rows { assert ids[i] in ids; }
    for i := 0 to |ids|
      invariant forall id | id in ids[..i] :: id in ids
      invariant BatchRun(s, worlds, ids[..i], now) && worlds[0] == w
      invariant b == ClaimAll(Batch(w.rows, [], w.supply), ids[..i], now)
      invariant worlds[i].rows == b.rows && worlds[i].supply == b.supply
      invariant forall k | i <= k < |ids| :: Protocol.Located(worlds[i], ids[k])
                                             && Selected(b.rows, b.rows[ids[k]], now)
    {
      var w' := OneClaim(s, worlds[i], b, ids[i], now);
      assert ids[..i+1][..i] == ids[..i] && ids[..i+1][i] == ids[i];
      forall k | i < k < |ids|
        ensures Protocol.Located(w', ids[k]) && Selected(w'.rows, w'.rows[ids[k]], now)
      {
        SelectionSurvives(b, ids[i], ids[k], now);
      }
      forall k | 0 <= k <= i
        ensures BatchStep(s, (worlds + [w'])[k], (worlds + [w'])[k+1], ids[..i+1][k], now)
      {
        if k < i { assert ids[..i+1][k] == ids[..i][k]; }
      }
      worlds := worlds + [w'];
      b := ClaimInto(b, ids[i], now);
    }
    assert ids[..|ids|] == ids;
  }

  // ----- The reaper as a run of the protocol -----

  ghost predicate ReapRun(s: Settings, worlds: seq<Protocol.World>, ids: seq<RowId>, now: int) {
    && |worlds| == |ids| + 1
    && forall i | 0 <= i < |ids| ::
         && Protocol.Enabled(worlds[i], s, Protocol.Reap(ids[i], now))
         && worlds[i+1] == Protocol.Next(worlds[i], s, Protocol.Reap(ids[i], now))
  }

  lemma OneReap(s: Settings, worlds: seq<Protocol.World>, ids: seq<RowId>, id: RowId, now: int)
    returns (worlds': seq<Protocol.World>)
    requires ReapRun(s, worlds, ids, now) && Protocol.Enabled(worlds[|ids|], s, Protocol.Reap(id, now))
    ensures ReapRun(s, worlds', ids + [id], now) && worlds'[0] == worlds[0]
    ensures worlds'[|ids| + 1] == Protocol.Next(worlds[|ids|], s, Protocol.Reap(id, now))
  {
    worlds' := worlds + [Protocol.Next(worlds[|ids|], s, Protocol.Reap(id, now))];
  }

  /** The reaper pass is a run of Reap steps of the protocol, one for each row it fails, each enabled when
      its turn comes. */
  lemma {:induction false} ReaperRefinesProtocol(s: Settings, w: Protocol.World, ids: seq<RowId>, locked: set<RowId>,
                                                 now: int, n: nat)
    returns (worlds: seq<Protocol.World>, failed: seq<RowId>)
    requires n <= |ids| && forall k | 0 <= k < |ids| :: ids[k] in w.rows && w.rows[ids[k]].conv in w.desks
    requires forall i, j | 0 <= i < j < |ids| :: ids[i] != ids[j]
    ensures ReapRun(s, worlds, failed, now) && worlds[0] == w
    ensures forall id | id in ids[..n] :: id in w.rows && w.rows[id].conv in w.desks
    ensures |failed| == ReapableCount(w.rows, ids[..n], locked, now, s)
    ensures var end := worlds[|failed|];
            && end.rows == ReapedRows(w.facts, w.desks, w.rows, ids[..n], locked, now, s)
            && end.desks == w.desks && end.facts == w.facts
  {
    if n == 0 {
      worlds, failed := [w], [];
    } else {
      worlds, failed := ReaperRefinesProtocol(s, w, ids, locked, now, n - 1);
      var id := ids[n-1];
      ReapedStep(w.facts, w.desks, w.rows, ids, locked, now, s, n - 1);
      if Reapable(w.rows[id], id, locked, now, s) {
        worlds := OneReap(s, worlds, failed, id, now);
        failed := failed + [id];
      }
    }
  }
}
