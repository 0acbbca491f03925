/** A run in which a document is handed to the provider twice and still ends SUPPRESSED: honest
    suppression of documents speaks of the last admission only. */
module DeliveryExample {
  import opened Common
  import opened Ownership
  import opened Delivery
  import opened DeliveryProtocol

  ghost predicate Reachable(s: Settings, w: World) {
    exists worlds, steps :: IsRun(s, worlds, steps) && worlds[|steps|] == w
  }

  lemma Go(s: Settings, w: World, step: Step)
    requires Reachable(s, w) && Enabled(w, s, step)
    ensures Reachable(s, Next(w, s, step))
  {
    var worlds, steps :| IsRun(s, worlds, steps) && worlds[|steps|] == w;
    var worlds', steps' := worlds + [Next(w, s, step)], steps + [step];
    forall i | 0 <= i < |steps'| ensures StepAt(s, worlds', steps', i) {
      if i < |steps| { assert StepAt(s, worlds, steps, i); }
    }
    assert IsRun(s, worlds', steps') && worlds'[|steps'|] == Next(w, s, step);
  }

  const Bot: Desk := Desk(Conversation(0, BotActive, true, None, 1), map[])
  const NoFacts: Facts := Facts(map[], map[], map[], {})

  function Catalogue(): Row {
    FreshRow(0, 0, Document, false,
             Some(Object(Some(Auto), Catalog, Some(1), None, None, None, OtherVerdict, None, NoKey)), 0)
  }

  /** The row, and the only worker of interest, after a number of provider calls. */
  predicate At(w: World, row: Row, token: Unique, pc: Pc, calls: nat) {
    && w.desks == map[0 := Bot] && w.rows == map[1 := row] && w.facts == NoFacts && w.supply == token + 1
    && token in w.workers && w.workers[token] == Worker(1, Document, pc) && w.hist[RowCalled(1)] == calls
  }

  function Claimed(row: Row, token: Unique, now: int): Row {
    row.(status := Sending, claimedAt := Some(now), token := Some(token))
  }

  function Granted(row: Row, token: Unique): Row {
    row.(admission := Some(Admission(Some(token), Admitted)))
  }

  /** Claim, first check, admission. */
  lemma ClaimAndAdmit(s: Settings, w: World, row: Row, now: int) returns (w': World)
    requires Reachable(s, w) && w.desks == map[0 := Bot] && w.rows == map[1 := row] && w.facts == NoFacts
    requires row.status == Pending && Due(row, now) && !AdmitPhase(row)
    requires row.conv == 0 && row.kind == Document && row.context == Catalogue().context
    ensures Reachable(s, w')
    ensures At(w', Granted(Claimed(row, w.supply, now), w.supply), w.supply, SendDoc1, w.hist[RowCalled(1)])
  {
    var token := w.supply;
    Go(s, w, Claim(1, now));
    var w1 := ClaimRow(w, 1, now);
    assert At(w1, Claimed(row, token, now), token, AtCheck1, w.hist[RowCalled(1)]);
    var w2 := Check(s, w1, Claimed(row, token, now), token, AtCheck1, w.hist[RowCalled(1)]);
    w' := Check(s, w2, Claimed(row, token, now), token, AtAdmit1, w.hist[RowCalled(1)]);
  }

  lemma Check(s: Settings, w: World, row: Row, token: Unique, pc: Pc, calls: nat) returns (w': World)
    requires Reachable(s, w) && At(w, row, token, pc, calls) && (pc == AtCheck1 || pc == AtAdmit1)
    requires Holds(row, token) && !AdmitPhase(row) && row.conv == 0 && row.context == Catalogue().context
    ensures Reachable(s, w')
    ensures At(w', if pc == AtAdmit1 then Granted(row, token) else row, token, AfterDecision(pc), calls)
  {
    Go(s, w, Decision(token));
    w' := DecideRow(w, token);
  }

  lemma CallAt(s: Settings, w: World, row: Row, token: Unique, calls: nat, outcome: SendOutcome) returns (w': World)
    requires Reachable(s, w) && At(w, row, token, SendDoc1, calls) && row.conv == 0
    ensures Reachable(s, w') && At(w', row, token, AfterSend(SendDoc1, outcome), calls + 1)
  {
    Go(s, w, Send(token, outcome));
    w' := CallProvider(w, token, outcome);
  }

  lemma Start(s: Settings) returns (w: World)
    requires s.maxAttempts >= 2
    ensures Reachable(s, w) && w.desks == map[0 := Bot] && w.rows == map[1 := Catalogue()] && w.facts == NoFacts
    ensures w.hist[RowCalled(1)] == 0
  {
    w := World(map[0 := Bot], map[1 := Catalogue()], NoFacts, 2, map[], map[], multiset{});
    assert IsRun(s, [w], []) && [w][0] == w;
  }

  lemma Fail(s: Settings, w: World, row: Row, token: Unique) returns (w': World, row': Row)
    requires s.maxAttempts >= 2 && Reachable(s, w) && At(w, row, token, AtFailure(false), 1)
    requires Holds(row, token) && AdmitPhase(row) && row.conv == 0 && row.kind == Document && row.attempts == 0
    requires row.context == Catalogue().context
    ensures Reachable(s, w') && w'.desks == map[0 := Bot] && w'.rows == map[1 := row'] && w'.facts == NoFacts
    ensures row'.status == Pending && row'.conv == 0 && row'.kind == Document && row'.context == row.context
    ensures row'.admission.Some? && row'.admission.value.phase == Unknown && w'.hist[RowCalled(1)] == 1
  {
    Go(s, w, SettleFail(token, 0));
    w' := DoSettleFail(w, s, token, 0, false);
    row' := FailBy(Ruling(Eligible, CurrentAutomationPeriod), row, 0, false, s);
    assert MarkFailure(NoFacts, Bot, 1, row, 0, false, s) == row';
  }

  /** The first attempt: a send error leaves the row PENDING with an uncertain admission. */
  lemma FirstAttempt(s: Settings) returns (w: World, row: Row)
    requires s.maxAttempts >= 2
    ensures Reachable(s, w) && w.desks == map[0 := Bot] && w.rows == map[1 := row] && w.facts == NoFacts
    ensures row.status == Pending && row.conv == 0 && row.kind == Document && row.context == Catalogue().context
    ensures row.admission.Some? && row.admission.value.phase == Unknown && w.hist[RowCalled(1)] == 1
  {
    var w0 := Start(s);
    var token := w0.supply;
    var w1 := ClaimAndAdmit(s, w0, Catalogue(), 0);
    var admitted := Granted(Claimed(Catalogue(), token, 0), token);
    var w2 := CallAt(s, w1, admitted, token, 0, SendError);
    w, row := Fail(s, w2, admitted, token);
  }

  lemma RejectAt(s: Settings, w: World, row: Row, token: Unique) returns (w': World)
    requires Reachable(s, w) && At(w, row, token, AtReject, 2) && Holds(row, token) && row.conv == 0
    requires row.admission == Some(Admission(Some(token), Admitted))
    ensures Reachable(s, w')
    ensures At(w', row.(admission := Some(Admission(Some(token), RejectedMedia))), token, AtCheck2, 2)
  {
    Go(s, w, RejectedByProvider(token));
    w' := DoReject(w, token);
  }

  /** A human takes the conversation, which ends the row's automation period. */
  lemma TakeOver(s: Settings, w: World, row: Row, token: Unique) returns (w': World)
    requires Reachable(s, w) && At(w, row, token, AtCheck2, 2)
    ensures Reachable(s, w') && w'.rows == w.rows && w'.workers == w.workers && w'.hist == w.hist && w'.facts == w.facts
    ensures 0 in w'.desks && w'.desks[0].conv.epoch != 1
  {
    var take := TakeConversation(0, "agent", 0);
    Go(s, w, HumanCommand(0, take));
    w' := DoCommand(w, 0, take);
    DirectTakeNeverRaises(Bot, 0, "agent", 0, w.supply);
  }

  lemma LastCheck(s: Settings, w: World, row: Row, token: Unique) returns (w': World)
    requires Reachable(s, w) && w.rows == map[1 := row] && 0 in w.desks && w.desks[0].conv.epoch != 1
    requires token in w.workers && w.workers[token] == Worker(1, Document, AtCheck2)
    requires Holds(row, token) && row.conv == 0 && row.context == Catalogue().context
    requires row.admission == Some(Admission(Some(token), RejectedMedia))
    ensures Reachable(s, w') && 1 in w'.rows && w'.rows[1].status == Suppressed && w'.rows[1].kind == row.kind
    ensures w'.hist == w.hist
  {
    Go(s, w, Decision(token));
    w' := DecideRow(w, token);
  }

  /** The second attempt: the provider rejects the media, a human takes over, and the next check
      suppresses the row. Two provider calls were made for it. */
  lemma DocumentSuppressedAfterTwoCalls(s: Settings) returns (w: World)
    requires s.maxAttempts >= 2
    ensures Reachable(s, w) && 1 in w.rows && w.rows[1].kind == Document
    ensures w.rows[1].status == Suppressed && w.hist[RowCalled(1)] == 2
  {
    var w0, row := FirstAttempt(s);
    var now := if row.nextAttempt.Some? then row.nextAttempt.value else 0;
    var token := w0.supply;
    var admitted := Granted(Claimed(row, token, now), token);
    var w1 := ClaimAndAdmit(s, w0, row, now);
    var w2 := CallAt(s, w1, admitted, token, 1, InvalidMedia);
    var w3 := RejectAt(s, w2, admitted, token);
    var rejected := admitted.(admission := Some(Admission(Some(token), RejectedMedia)));
    var w4 := TakeOver(s, w3, rejected, token);
    w := LastCheck(s, w4, rejected, token);
  }
}
