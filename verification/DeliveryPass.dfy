/** One undisturbed pass of a worker over an outbox row: what may speak is sent. The order of a pass, its second
    attempt after a media rejection, and the counts it leaves are those of process_claimed_outbox_item and
    process_claimed_document_outbox_item. */
module DeliveryPass {
  import opened Common
  import opened Ownership
  import opened Delivery
  import opened Authority
  import opened DeliveryProtocol
  import opened DeliverySafety
  import opened DeliveryRuns
  import opened DeliveryAuthority

  /** A worker at this point of its pass holds the row, which may speak. */
  predicate Holding(w: World, id: RowId, token: Unique, pc: Pc) {
    && Located(w, id) && token in w.workers && w.workers[token] == Worker(id, w.rows[id].kind, pc)
    && w.rows[id].status == Sending && w.rows[id].token == Some(token)
    && Speaks(w, id) && w.rows[id].message in w.facts.messages
  }

  predicate NoSendUnderWay(row: Row) {
    !(row.admission.Some? && row.admission.value.phase == Admitted)
  }

  /** So many admissions and calls more. */
  predicate Counts(w: World, w': World, id: RowId, admissions: nat, calls: nat) {
    && w'.hist[RowAdmitted(id)] == w.hist[RowAdmitted(id)] + admissions
    && w'.hist[RowCalled(id)] == w.hist[RowCalled(id)] + calls
  }

  /** What a pass leaves alone. */
  predicate Undisturbed(w: World, w': World, id: RowId) {
    && w'.desks == w.desks && w'.facts == w.facts && w'.rows.Keys == w.rows.Keys
    && forall k | k in w.rows && k != id :: w'.rows[k] == w.rows[k]
  }

  lemma ClaimHolds(w: World, s: Settings, id: RowId, now: int)
    requires Inv(w, s) && Enabled(w, s, Claim(id, now)) && DependencyGate(w.rows, w.rows[id]).Clear?
    requires Speaks(w, id) && w.rows[id].message in w.facts.messages
    ensures var w' := Next(w, s, Claim(id, now));
            && Holding(w', id, w.supply, if w.rows[id].kind == Text then AtText else AtCheck1)
            && NoSendUnderWay(w'.rows[id]) && Counts(w, w', id, 0, 0) && Undisturbed(w, w', id)
            && forall t :: Enabled(w', s, Reap(id, t)) <==> now + s.sendingTimeout < t
  {
    assert RowOk(w, s, id);
  }

  lemma Checked(w: World, s: Settings, id: RowId, token: Unique, pc: Pc)
    requires Holding(w, id, token, pc) && (pc == AtCheck1 || pc == AtCheck2) && NoSendUnderWay(w.rows[id])
    ensures Enabled(w, s, Decision(token))
    ensures var w' := Next(w, s, Decision(token));
            && Holding(w', id, token, if pc == AtCheck1 then AtAdmit1 else AtAdmit2) && NoSendUnderWay(w'.rows[id])
            && Counts(w, w', id, 0, 0) && Undisturbed(w, w', id)
  {
    EligibleIff(w.facts, w.desks[w.rows[id].conv], id, w.rows[id]);
    AdoptKeepsVoice(w, id);
  }

  lemma AdoptKeepsVoice(w: World, id: RowId)
    requires Located(w, id) && Speaks(w, id)
    ensures var r := Adopt(w.facts, id, w.rows[id]);
            SameVoice(w.rows[id], r) && MaySpeak(w.facts, w.desks[w.rows[id].conv], id, r)
  {
  }

  lemma Granted(w: World, s: Settings, id: RowId, token: Unique, pc: Pc)
    requires Holding(w, id, token, pc) && (pc == AtText || pc == AtAdmit1 || pc == AtAdmit2) && NoSendUnderWay(w.rows[id])
    ensures Enabled(w, s, Decision(token))
    ensures var w' := Next(w, s, Decision(token));
            && Holding(w', id, token, if pc == AtText then SendText else if pc == AtAdmit1 then SendDoc1 else SendDoc2)
            && w'.rows[id].admission == Some(Admission(Some(token), Admitted))
            && Counts(w, w', id, 1, 0) && Undisturbed(w, w', id)
  {
    EligibleIff(w.facts, w.desks[w.rows[id].conv], id, w.rows[id]);
    AdoptKeepsVoice(w, id);
  }

  lemma CalledAndSettled(w: World, s: Settings, id: RowId, token: Unique, pc: Pc, now: int)
    returns (steps: seq<Step>, w': World)
    requires Holding(w, id, token, pc) && (pc == SendText || pc == SendDoc1 || pc == SendDoc2)
    ensures steps == [Send(token, Delivered), SettleOk(token, now)] && Leads(s, w, steps, w')
    ensures id in w'.rows && w'.rows[id].status == Sent && w'.rows[id].token.None? && token !in w'.workers
    ensures Counts(w, w', id, 0, 1) && Undisturbed(w, w', id)
  {
    Delivers(w, s, id, token, pc);
    var w1 := CallProvider(w, token, Delivered);
    Settles(w1, s, id, token, now);
    w' := DoSettleOk(w1, s, token, now);
    Prepend(s, w1, SettleOk(token, now), [], w');
    Prepend(s, w, Send(token, Delivered), [SettleOk(token, now)], w');
    steps := [Send(token, Delivered)] + [SettleOk(token, now)];
  }

  lemma Delivers(w: World, s: Settings, id: RowId, token: Unique, pc: Pc)
    requires Holding(w, id, token, pc) && (pc == SendText || pc == SendDoc1 || pc == SendDoc2)
    ensures var w' := CallProvider(w, token, Delivered);
            && Enabled(w, s, Send(token, Delivered)) && Next(w, s, Send(token, Delivered)) == w'
            && Holding(w', id, token, AtSuccess) && Counts(w, w', id, 0, 1) && Undisturbed(w, w', id)
  {
  }

  lemma Settles(w: World, s: Settings, id: RowId, token: Unique, now: int)
    requires Holding(w, id, token, AtSuccess)
    ensures var w' := DoSettleOk(w, s, token, now);
            && Enabled(w, s, SettleOk(token, now)) && Next(w, s, SettleOk(token, now)) == w'
            && id in w'.rows && w'.rows[id].status == Sent && w'.rows[id].token.None? && token !in w'.workers
            && Counts(w, w', id, 0, 0) && Undisturbed(w, w', id)
  {
  }

  /** A provider that rejects the media of a first send gives the document a second check and admission. */
  lemma Rejected(w: World, s: Settings, id: RowId, token: Unique) returns (w': World)
    requires Holding(w, id, token, SendDoc1) && w.rows[id].admission == Some(Admission(Some(token), Admitted))
    ensures Leads(s, w, [Send(token, InvalidMedia), RejectedByProvider(token)], w')
    ensures Holding(w', id, token, AtCheck2) && NoSendUnderWay(w'.rows[id])
    ensures Counts(w, w', id, 0, 1) && Undisturbed(w, w', id)
  {
    TurnsDown(w, s, id, token);
    var w1 := CallProvider(w, token, InvalidMedia);
    SecondChance(w1, s, id, token);
    w' := DoReject(w1, token);
    Prepend(s, w1, RejectedByProvider(token), [], w');
    Prepend(s, w, Send(token, InvalidMedia), [RejectedByProvider(token)], w');
    assert [Send(token, InvalidMedia)] + [RejectedByProvider(token)] == [Send(token, InvalidMedia), RejectedByProvider(token)];
  }

  lemma TurnsDown(w: World, s: Settings, id: RowId, token: Unique)
    requires Holding(w, id, token, SendDoc1)
    ensures var w' := CallProvider(w, token, InvalidMedia);
            && Enabled(w, s, Send(token, InvalidMedia)) && Next(w, s, Send(token, InvalidMedia)) == w'
            && Holding(w', id, token, AtReject) && w'.rows == w.rows && Counts(w, w', id, 0, 1) && Undisturbed(w, w', id)
  {
  }

  lemma SecondChance(w: World, s: Settings, id: RowId, token: Unique)
    requires Holding(w, id, token, AtReject) && w.rows[id].admission == Some(Admission(Some(token), Admitted))
    ensures var w' := DoReject(w, token);
            && Enabled(w, s, RejectedByProvider(token)) && Next(w, s, RejectedByProvider(token)) == w'
            && Holding(w', id, token, AtCheck2) && NoSendUnderWay(w'.rows[id])
            && Counts(w, w', id, 0, 0) && Undisturbed(w, w', id)
  {
  }

  /** From an admitting check on: admission, call, settlement. */
  lemma AdmitAndSend(w: World, s: Settings, id: RowId, token: Unique, pc: Pc, now: int)
    returns (steps: seq<Step>, w': World)
    requires Holding(w, id, token, pc) && (pc == AtText || pc == AtAdmit1 || pc == AtAdmit2) && NoSendUnderWay(w.rows[id])
    ensures steps == [Decision(token), Send(token, Delivered), SettleOk(token, now)] && Leads(s, w, steps, w')
    ensures id in w'.rows && w'.rows[id].status == Sent && w'.rows[id].token.None? && token !in w'.workers
    ensures Counts(w, w', id, 1, 1) && Undisturbed(w, w', id)
  {
    Granted(w, s, id, token, pc);
    var w1 := Next(w, s, Decision(token));
    steps, w' := CalledAndSettled(w1, s, id, token, w1.workers[token].pc, now);
    Prepend(s, w, Decision(token), steps, w');
    steps := [Decision(token)] + steps;
  }

  lemma CheckThenSend(w: World, s: Settings, id: RowId, token: Unique, pc: Pc, now: int)
    returns (steps: seq<Step>, w': World)
    requires Holding(w, id, token, pc) && (pc == AtCheck1 || pc == AtCheck2) && NoSendUnderWay(w.rows[id])
    ensures steps == [Decision(token), Decision(token), Send(token, Delivered), SettleOk(token, now)]
    ensures Leads(s, w, steps, w')
    ensures id in w'.rows && w'.rows[id].status == Sent && w'.rows[id].token.None? && token !in w'.workers
    ensures Counts(w, w', id, 1, 1) && Undisturbed(w, w', id)
  {
    Checked(w, s, id, token, pc);
    var w1 := Next(w, s, Decision(token));
    steps, w' := AdmitAndSend(w1, s, id, token, w1.workers[token].pc, now);
    Prepend(s, w, Decision(token), steps, w');
    steps := [Decision(token)] + steps;
  }

  /** A selected row that may speak, whose input is known and which waits for no other row, is SENT by the claim
      and one undisturbed pass: a text after one decision, a document after a check and an admission. It costs
      one admission and one provider call, and no other row is touched. */
  lemma OnePassSends(w: World, s: Settings, id: RowId, now: int) returns (steps: seq<Step>, w': World)
    requires Inv(w, s) && Enabled(w, s, Claim(id, now)) && DependencyGate(w.rows, w.rows[id]).Clear?
    requires Speaks(w, id) && w.rows[id].message in w.facts.messages
    ensures var t := w.supply;
            steps == if w.rows[id].kind == Text
                     then [Claim(id, now), Decision(t), Send(t, Delivered), SettleOk(t, now)]
                     else [Claim(id, now), Decision(t), Decision(t), Send(t, Delivered), SettleOk(t, now)]
    ensures Leads(s, w, steps, w')
    ensures id in w'.rows && w'.rows[id].status == Sent && w'.rows[id].token.None?
    ensures Counts(w, w', id, 1, 1) && Undisturbed(w, w', id)
  {
    ClaimHolds(w, s, id, now);
    var w1 := Next(w, s, Claim(id, now));
    if w.rows[id].kind == Text {
      steps, w' := AdmitAndSend(w1, s, id, w.supply, AtText, now);
    } else {
      steps, w' := CheckThenSend(w1, s, id, w.supply, AtCheck1, now);
    }
    Prepend(s, w, Claim(id, now), steps, w');
    steps := [Claim(id, now)] + steps;
  }

  /** A document whose media the provider rejects once, after its first admission, is sent by the same pass with
      a second admission and a second call. */
  lemma RejectionIsSurvived(w: World, s: Settings, id: RowId, token: Unique, now: int)
    returns (steps: seq<Step>, w': World)
    requires Holding(w, id, token, SendDoc1) && w.rows[id].admission == Some(Admission(Some(token), Admitted))
    ensures steps == [Send(token, InvalidMedia), RejectedByProvider(token), Decision(token), Decision(token),
                      Send(token, Delivered), SettleOk(token, now)]
    ensures Leads(s, w, steps, w') && id in w'.rows && w'.rows[id].status == Sent
    ensures Counts(w, w', id, 1, 2) && Undisturbed(w, w', id)
  {
    var w1 := Rejected(w, s, id, token);
    var rest;
    rest, w' := CheckThenSend(w1, s, id, token, AtCheck2, now);
    Chain(s, w, [Send(token, InvalidMedia), RejectedByProvider(token)], w1, rest, w');
    steps := [Send(token, InvalidMedia), RejectedByProvider(token)] + rest;
  }

  /** Whatever else a call comes to is reported as a failure: an error, or a second media rejection. */
  lemma OtherCallsFail(w: World, s: Settings, token: Unique, outcome: SendOutcome)
    requires Enabled(w, s, Send(token, outcome)) && outcome != Delivered
    requires outcome == InvalidMedia ==> w.workers[token].pc != SendDoc1
    ensures var w' := Next(w, s, Send(token, outcome));
            && token in w'.workers && w'.workers[token].pc == AtFailure(false) && w'.rows == w.rows
            && w'.hist == w.hist + multiset{RowCalled(w.workers[token].row)}
  {
  }
}
