/** Row locks: which rows each transaction of the pipeline locks, in which order, and why no set of
    them can ever wait for one another in a circle. Customers, conversations, inbox jobs and outbox rows are
    asked for in one order; handoffs are not, and do not need it: their conversation is their gate. */
module Locks {

  type TxnId = nat

  /** A lockable row, named with the customer it belongs to, a handoff with its conversation too. */
  datatype Row =
    | CustomerRow(phone: nat)
    | ConversationRow(phone: nat, id: nat)
    | HandoffRow(phone: nat, conv: nat, id: nat)
    | JobRow(phone: nat, id: nat)
    | OutboxRow(phone: nat, id: nat)

  function Level(r: Row): nat {
    match r
    case CustomerRow(_) => 0
    case ConversationRow(_, _) => 1
    case HandoffRow(_, _, _) => 2
    case JobRow(_, _) => 3
    case OutboxRow(_, _) => 4
  }

  function IdOf(r: Row): nat {
    if r.CustomerRow? then r.phone else r.id
  }

  /** The global order: by customer, then table, then id. */
  predicate Below(a: Row, b: Row) {
    a.phone < b.phone
    || (a.phone == b.phone && (Level(a) < Level(b) || (Level(a) == Level(b) && IdOf(a) < IdOf(b))))
  }

  /** FOR UPDATE waits; NOWAIT and SKIP LOCKED never do. */
  datatype Mode = Blocking | NonBlocking

  datatype Request = Request(row: Row, mode: Mode)

  // ----- The transactions -----

  datatype Path =
    | Context(phone: nat, conv: nat, skip: bool)                       // lock_context
    | OwnedJob(phone: nat, conv: nat, job: nat)                        // owned, retry_job
    | OwnedMedia(phone: nat, conv: nat, job: nat, handoff: nat)        // ... and payment media in a paused conversation
    | ClaimJob(phone: nat, conv: nat, job: nat)                        // claim_inbox_batch, recover_stale_inbox
    | Delivery(phone: nat, conv: nat, row: nat, skip: bool)            // lock_delivery_row
    | ClaimOutbox(rows: seq<(nat, nat)>)                               // claim_due_outbox_batch
    | HumanCase(phone: nat, conv: nat, handoffs: seq<nat>)             // lock_human_case
    | Reset(phone: nat, convs: seq<nat>, cases: seq<Case>, jobs: seq<nat>)  // reset_conversation_by_phone
    | Intake(phones: seq<nat>)                                         // persist_payload_phase_a_in_session
    | Notify(phone: nat, convs: seq<nat>, waiting: seq<seq<nat>>)      // notify_booking_payment

  datatype Case = Case(conv: nat, id: nat)

  function ModeOf(skip: bool): Mode {
    if skip then NonBlocking else Blocking
  }

  function LockContext(phone: nat, conv: nat, skip: bool): seq<Request> {
    [Request(CustomerRow(phone), ModeOf(skip)), Request(ConversationRow(phone, conv), ModeOf(skip))]
  }

  function LockConversations(phone: nat, convs: seq<nat>): seq<Request> {
    seq(|convs|, i requires 0 <= i < |convs| => Request(ConversationRow(phone, convs[i]), Blocking))
  }

  function LockHandoffs(phone: nat, cases: seq<Case>): seq<Request> {
    seq(|cases|, i requires 0 <= i < |cases| => Request(HandoffRow(phone, cases[i].conv, cases[i].id), Blocking))
  }

  function LockJobs(phone: nat, jobs: seq<nat>): seq<Request> {
    seq(|jobs|, i requires 0 <= i < |jobs| => Request(JobRow(phone, jobs[i]), Blocking))
  }

  function CasesOf(conv: nat, ids: seq<nat>): seq<Case> {
    seq(|ids|, i requires 0 <= i < |ids| => Case(conv, ids[i]))
  }

  /** The open cases of one conversation after another. */
  function Flatten(convs: seq<nat>, cases: seq<seq<nat>>): (r: seq<Case>)
    requires |convs| == |cases|
    ensures forall k | 0 <= k < |r| :: r[k].conv in convs
  {
    if convs == [] then [] else CasesOf(convs[0], cases[0]) + Flatten(convs[1..], cases[1..])
  }

  function Program(p: Path): seq<Request>
    requires AsQueried(p)
  {
    match p
    case Context(phone, conv, skip) => LockContext(phone, conv, skip)
    case OwnedJob(phone, conv, job) => LockContext(phone, conv, false) + [Request(JobRow(phone, job), Blocking)]
    case OwnedMedia(phone, conv, job, handoff) =>
      LockContext(phone, conv, false)
      + [Request(JobRow(phone, job), Blocking), Request(HandoffRow(phone, conv, handoff), NonBlocking)]
    case ClaimJob(phone, conv, job) => LockContext(phone, conv, true) + [Request(JobRow(phone, job), Blocking)]
    case Delivery(phone, conv, row, skip) =>
      LockContext(phone, conv, skip) + [Request(OutboxRow(phone, row), ModeOf(skip))]
    case ClaimOutbox(rows) =>
      seq(|rows|, i requires 0 <= i < |rows| => Request(OutboxRow(rows[i].0, rows[i].1), NonBlocking))
    case HumanCase(phone, conv, handoffs) =>
      LockConversations(phone, [conv]) + LockHandoffs(phone, CasesOf(conv, handoffs))
    case Reset(phone, convs, handoffs, jobs) =>
      [Request(CustomerRow(phone), Blocking)] + LockConversations(phone, convs)
      + LockHandoffs(phone, handoffs) + LockJobs(phone, jobs)
    case Intake(phones) =>
      seq(|phones|, i requires 0 <= i < |phones| => Request(CustomerRow(phones[i]), Blocking))
    case Notify(phone, convs, cases) =>
      [Request(CustomerRow(phone), Blocking)] + LockConversations(phone, convs)
      + LockHandoffs(phone, Flatten(convs, cases))
  }

  predicate Sorted(ids: seq<nat>) {
    forall i, j | 0 <= i < j < |ids| :: ids[i] < ids[j]
  }

  predicate SortedCases(cases: seq<Case>) {
    forall i, j | 0 <= i < j < |cases| :: cases[i].id < cases[j].id
  }

  /** ORDER BY id, and the payload's messages sorted by phone, where one phone may occur again. The reset
      locks the handoffs of the conversations it locked; the notice has one list of cases for each. */
  predicate AsQueried(p: Path) {
    match p
    case HumanCase(_, _, handoffs) => Sorted(handoffs)
    case Reset(_, convs, handoffs, jobs) =>
      Sorted(convs) && SortedCases(handoffs) && Sorted(jobs) && forall h | h in handoffs :: h.conv in convs
    case Intake(phones) => forall i, j | 0 <= i < j < |phones| :: phones[i] <= phones[j]
    case Notify(_, convs, cases) =>
      Sorted(convs) && |cases| == |convs| && forall i | 0 <= i < |cases| :: Sorted(cases[i])
    case _ => true
  }

  // ----- What the programs have in common -----

  /** Every blocking request but for a handoff is above every earlier request but for a handoff, or repeats it. */
  predicate Ascending(program: seq<Request>) {
    forall i, j | 0 <= i < j < |program| && program[j].mode == Blocking
                  && !program[i].row.HandoffRow? && !program[j].row.HandoffRow? ::
      Below(program[i].row, program[j].row) || program[i].row == program[j].row
  }

  /** The conversation is asked for with waiting. */
  predicate Opens(program: seq<Request>, phone: nat, conv: nat) {
    Request(ConversationRow(phone, conv), Blocking) in program
  }

  /** Whoever asks for a handoff, waiting or not, has waited for its conversation before. */
  predicate Gated(program: seq<Request>) {
    forall j | 0 <= j < |program| && program[j].row.HandoffRow? ::
      Opens(program[..j], program[j].row.phone, program[j].row.conv)
  }

  lemma Append(a: seq<Request>, b: seq<Request>)
    requires Ascending(a) && Ascending(b) && Gated(a)
    requires forall i, j | 0 <= i < |a| && 0 <= j < |b| && !a[i].row.HandoffRow? && !b[j].row.HandoffRow? ::
               Below(a[i].row, b[j].row)
    requires forall j | 0 <= j < |b| && b[j].row.HandoffRow? :: Opens(a, b[j].row.phone, b[j].row.conv)
    ensures Ascending(a + b) && Gated(a + b)
  {
    forall j | 0 <= j < |a + b| && (a + b)[j].row.HandoffRow?
      ensures Opens((a + b)[..j], (a + b)[j].row.phone, (a + b)[j].row.conv)
    {
      if j < |a| {
        assert (a + b)[..j] == a[..j];
      } else {
        assert (a + b)[..j] == a + b[..j-|a|];
      }
    }
  }

  /** A customer, then conversations of it, then handoffs of those. */
  lemma ThreeLevels(phone: nat, convs: seq<nat>, cases: seq<Case>)
    requires Sorted(convs) && forall h | h in cases :: h.conv in convs
    ensures var program := [Request(CustomerRow(phone), Blocking)] + LockConversations(phone, convs)
                           + LockHandoffs(phone, cases);
            Ascending(program) && Gated(program)
  {
    var first, second := [Request(CustomerRow(phone), Blocking)], LockConversations(phone, convs);
    Append(first, second);
    forall h | h in cases ensures Opens(first + second, phone, h.conv) {
      var i :| 0 <= i < |convs| && convs[i] == h.conv;
      assert (first + second)[i+1] == Request(ConversationRow(phone, h.conv), Blocking);
    }
    forall k | 0 <= k < |cases| ensures cases[k] in cases { }
    Append(first + second, LockHandoffs(phone, cases));
  }

  lemma HumanCaseIsOrdered(phone: nat, conv: nat, handoffs: seq<nat>)
    ensures var program := LockConversations(phone, [conv]) + LockHandoffs(phone, CasesOf(conv, handoffs));
            Ascending(program) && Gated(program)
  {
    assert LockConversations(phone, [conv])[0] == Request(ConversationRow(phone, conv), Blocking);
    Append(LockConversations(phone, [conv]), LockHandoffs(phone, CasesOf(conv, handoffs)));
  }

  lemma MediaIsOrdered(phone: nat, conv: nat, job: nat, handoff: nat)
    ensures var program := Program(OwnedMedia(phone, conv, job, handoff));
            Ascending(program) && Gated(program)
  {
    var first := LockContext(phone, conv, false);
    assert first[1] == Request(ConversationRow(phone, conv), Blocking);
    var second := [Request(JobRow(phone, job), Blocking), Request(HandoffRow(phone, conv, handoff), NonBlocking)];
    Append(first, second);
    assert Program(OwnedMedia(phone, conv, job, handoff)) == first + second;
  }

  /** Every path asks in order for what it may have to wait for, and for handoffs behind their gate. */
  lemma PathsAreOrdered(p: Path)
    requires AsQueried(p)
    ensures Ascending(Program(p)) && Gated(Program(p))
  {
    match p
    case Reset(phone, convs, handoffs, jobs) =>
      ThreeLevels(phone, convs, handoffs);
      Append([Request(CustomerRow(phone), Blocking)] + LockConversations(phone, convs) + LockHandoffs(phone, handoffs),
             LockJobs(phone, jobs));
    case Notify(phone, convs, cases) => ThreeLevels(phone, convs, Flatten(convs, cases));
    case HumanCase(phone, conv, handoffs) => HumanCaseIsOrdered(phone, conv, handoffs);
    case OwnedMedia(phone, conv, job, handoff) => MediaIsOrdered(phone, conv, job, handoff);
    case _ =>
  }

  // ----- The order alone -----

  /** The order with handoffs in it. */
  predicate FullyAscending(program: seq<Request>) {
    forall i, j | 0 <= i < j < |program| && program[j].mode == Blocking ::
      Below(program[i].row, program[j].row) || program[i].row == program[j].row
  }

  /** The payment notice keeps the full order exactly when the cases of later conversations are newer. */
  lemma NotifyFollowsOrderIff(phone: nat, convs: seq<nat>, cases: seq<seq<nat>>)
    requires AsQueried(Notify(phone, convs, cases))
    ensures FullyAscending(Program(Notify(phone, convs, cases))) <==> SortedCases(Flatten(convs, cases))
  {
    var flat := Flatten(convs, cases);
    var front := [Request(CustomerRow(phone), Blocking)] + LockConversations(phone, convs);
    FrontAscends(phone, convs);
    FullAppend(front, LockHandoffs(phone, flat));
    DistinctCases(convs, cases);
    HandoffsFollowOrderIff(phone, flat);
  }

  lemma FrontAscends(phone: nat, convs: seq<nat>)
    requires Sorted(convs)
    ensures FullyAscending([Request(CustomerRow(phone), Blocking)] + LockConversations(phone, convs))
  {
  }

  lemma FullAppend(a: seq<Request>, b: seq<Request>)
    requires FullyAscending(a) && forall i, j | 0 <= i < |a| && 0 <= j < |b| :: Below(a[i].row, b[j].row)
    ensures FullyAscending(a + b) <==> FullyAscending(b)
  {
    if FullyAscending(a + b) {
      forall i, j | 0 <= i < j < |b| && b[j].mode == Blocking
        ensures Below(b[i].row, b[j].row) || b[i].row == b[j].row
      {
        assert (a + b)[|a| + i] == b[i] && (a + b)[|a| + j] == b[j];
      }
    }
  }

  predicate Distinct(cases: seq<Case>) {
    forall i, j | 0 <= i < j < |cases| :: cases[i] != cases[j]
  }

  lemma HandoffsFollowOrderIff(phone: nat, cases: seq<Case>)
    requires Distinct(cases)
    ensures FullyAscending(LockHandoffs(phone, cases)) <==> SortedCases(cases)
  {
    var program := LockHandoffs(phone, cases);
    forall i, j | 0 <= i < j < |cases|
      ensures Below(program[i].row, program[j].row) <==> cases[i].id < cases[j].id
      ensures program[i].row != program[j].row
    {
    }
  }

  lemma {:induction false} DistinctCases(convs: seq<nat>, cases: seq<seq<nat>>)
    requires Sorted(convs) && |convs| == |cases| && forall i | 0 <= i < |cases| :: Sorted(cases[i])
    ensures Distinct(Flatten(convs, cases))
  {
    if convs != [] {
      DistinctCases(convs[1..], cases[1..]);
      var first, rest := CasesOf(convs[0], cases[0]), Flatten(convs[1..], cases[1..]);
      forall i, j | 0 <= i < j < |first + rest| ensures (first + rest)[i] != (first + rest)[j] {
        if i < |first| <= j {
          assert rest[j - |first|].conv in convs[1..];
          assert convs[0] !in convs[1..];
        } else if |first| <= i {
          assert rest[i - |first|] != rest[j - |first|];
        }
      }
    }
  }

  // ----- Any number of transactions -----

  datatype Txn = Txn(program: seq<Request>, pos: nat, held: set<Row>)

  type System = map<TxnId, Txn>

  datatype Step =
    | Begin(t: TxnId, path: Path)
    | Grant(t: TxnId)
    | PassOver(t: TxnId)
    | End(t: TxnId)

  predicate Free(s: System, row: Row, t: TxnId) {
    forall u | u in s && u != t :: row !in s[u].held
  }

  predicate Standing(s: System, t: TxnId) {
    t in s && s[t].pos < |s[t].program|
  }

  function Wanted(s: System, t: TxnId): Row
    requires Standing(s, t)
  {
    s[t].program[s[t].pos].row
  }

  predicate Enabled(s: System, step: Step) {
    match step
    case Begin(t, path) => t !in s && AsQueried(path)
    case Grant(t) => Standing(s, t) && Free(s, Wanted(s, t), t)
    case PassOver(t) => Standing(s, t) && s[t].program[s[t].pos].mode == NonBlocking
    case End(t) => t in s
  }

  function Next(s: System, step: Step): System
    requires Enabled(s, step)
  {
    match step
    case Begin(t, path) => s[t := Txn(Program(path), 0, {})]
    case Grant(t) => s[t := s[t].(pos := s[t].pos + 1, held := s[t].held + {Wanted(s, t)})]
    case PassOver(t) => s[t := s[t].(pos := s[t].pos + 1)]
    case End(t) => map u | u in s && u != t :: s[u]
  }

  /** t stands at a blocking request for a row that u holds. */
  predicate WaitsFor(s: System, t: TxnId, u: TxnId) {
    && Standing(s, t) && u in s && t != u
    && s[t].program[s[t].pos].mode == Blocking && Wanted(s, t) in s[u].held
  }

  /** Rows held were asked for, and what was asked for with waiting is held. */
  predicate TxnOk(x: Txn) {
    && x.pos <= |x.program| && Ascending(x.program) && Gated(x.program)
    && (forall row | row in x.held :: exists i :: 0 <= i < x.pos && x.program[i].row == row)
    && (forall i | 0 <= i < x.pos && x.program[i].mode == Blocking :: x.program[i].row in x.held)
  }

  ghost predicate Inv(s: System) {
    && (forall t | t in s :: TxnOk(s[t]))
    && (forall t, u | t in s && u in s && t != u :: s[t].held !! s[u].held)
  }

  lemma Advance(x: Txn, granted: bool)
    requires TxnOk(x) && x.pos < |x.program| && (!granted ==> x.program[x.pos].mode == NonBlocking)
    ensures TxnOk(x.(pos := x.pos + 1, held := if granted then x.held + {x.program[x.pos].row} else x.held))
  {
    var x' := x.(pos := x.pos + 1, held := if granted then x.held + {x.program[x.pos].row} else x.held);
    forall row | row in x'.held ensures exists i :: 0 <= i < x'.pos && x'.program[i].row == row {
      if row in x.held {
        var i :| 0 <= i < x.pos && x.program[i].row == row;
      } else {
        assert x'.program[x.pos].row == row;
      }
    }
  }

  lemma Changed(s: System, t: TxnId, x: Txn)
    requires Inv(s) && TxnOk(x) && forall u | u in s && u != t :: s[u].held !! x.held
    ensures Inv(s[t := x])
  {
  }

  lemma StepInv(s: System, step: Step)
    requires Inv(s) && Enabled(s, step)
    ensures Inv(Next(s, step))
  {
    match step
    case Begin(t, path) =>
      PathsAreOrdered(path);
      Changed(s, t, Txn(Program(path), 0, {}));
    case Grant(t) =>
      Advance(s[t], true);
      Changed(s, t, Next(s, step)[t]);
    case PassOver(t) =>
      Advance(s[t], false);
      Changed(s, t, Next(s, step)[t]);
    case End(t) =>
  }

  ghost predicate IsRun(systems: seq<System>, steps: seq<Step>) {
    && |systems| == |steps| + 1 && systems[0] == map[]
    && forall i | 0 <= i < |steps| :: Enabled(systems[i], steps[i]) && systems[i+1] == Next(systems[i], steps[i])
  }

  lemma {:induction false} RunInv(systems: seq<System>, steps: seq<Step>, i: nat)
    requires IsRun(systems, steps) && i < |systems|
    ensures Inv(systems[i])
  {
    if i > 0 {
      RunInv(systems, steps, i - 1);
      StepInv(systems[i-1], steps[i-1]);
    }
  }

  // ----- The gate -----

  /** A transaction at or past a request for a handoff holds the handoff's conversation. */
  lemma GateHeld(x: Txn, j: nat)
    requires TxnOk(x) && j < |x.program| && j <= x.pos && x.program[j].row.HandoffRow?
    ensures ConversationRow(x.program[j].row.phone, x.program[j].row.conv) in x.held
  {
    var gate := Request(ConversationRow(x.program[j].row.phone, x.program[j].row.conv), Blocking);
    assert gate in x.program[..j];
    var i :| 0 <= i < j && x.program[i] == gate;
  }

  lemma HolderHoldsGate(x: Txn, row: Row)
    requires TxnOk(x) && row.HandoffRow?
    ensures row in x.held ==> ConversationRow(row.phone, row.conv) in x.held
  {
    if row in x.held {
      var i :| 0 <= i < x.pos && x.program[i].row == row;
      GateHeld(x, i);
    }
  }

  lemma HandoffIsFree(s: System, t: TxnId)
    requires Inv(s) && Standing(s, t) && Wanted(s, t).HandoffRow?
    ensures Free(s, Wanted(s, t), t)
  {
    GateHeld(s[t], s[t].pos);
    forall u | u in s && u != t ensures Wanted(s, t) !in s[u].held {
      HolderHoldsGate(s[u], Wanted(s, t));
      assert s[t].held !! s[u].held;
    }
  }

  /** In every reachable state, whoever stands at a request for a handoff finds it free: nobody ever waits
      for a handoff, and the payment media's request without waiting never fails. */
  lemma HandoffsAreNeverContended(systems: seq<System>, steps: seq<Step>, i: nat, t: TxnId)
    requires IsRun(systems, steps) && i < |systems|
    requires Standing(systems[i], t) && Wanted(systems[i], t).HandoffRow?
    ensures Enabled(systems[i], Grant(t)) && forall u :: !WaitsFor(systems[i], t, u)
  {
    RunInv(systems, steps, i);
    HandoffIsFree(systems[i], t);
  }

  // ----- Mutual exclusion -----

  /** The path reads and writes this conversation under its locks. */
  predicate WorksOn(p: Path, phone: nat, conv: nat) {
    match p
    case Context(f, c, skip) => f == phone && c == conv && !skip
    case OwnedJob(f, c, _) => f == phone && c == conv
    case OwnedMedia(f, c, _, _) => f == phone && c == conv
    case Delivery(f, c, _, skip) => f == phone && c == conv && !skip
    case HumanCase(f, c, _) => f == phone && c == conv
    case Reset(f, convs, _, _) => f == phone && conv in convs
    case Notify(f, convs, _) => f == phone && conv in convs
    case _ => false
  }

  lemma AsksForConversation(p: Path, phone: nat, conv: nat)
    requires AsQueried(p) && WorksOn(p, phone, conv)
    ensures Request(ConversationRow(phone, conv), Blocking) in Program(p)
  {
    assert LockContext(phone, conv, false)[1] == Request(ConversationRow(phone, conv), Blocking);
    match p
    case Reset(_, convs, _, _) => ConversationLocked(phone, convs, conv);
    case Notify(_, convs, _) => ConversationLocked(phone, convs, conv);
    case HumanCase(_, _, _) => ConversationLocked(phone, [conv], conv);
    case _ =>
  }

  lemma ConversationLocked(phone: nat, convs: seq<nat>, conv: nat)
    requires conv in convs
    ensures Request(ConversationRow(phone, conv), Blocking) in LockConversations(phone, convs)
  {
    var i :| 0 <= i < |convs| && convs[i] == conv;
    assert LockConversations(phone, convs)[i] == Request(ConversationRow(phone, conv), Blocking);
  }

  /** Turns, deliveries, panel commands, resets and payment notices of one conversation exclude one another: in
      no reachable state have two transactions that work on it got past their locks. */
  lemma OneAtATime(systems: seq<System>, steps: seq<Step>, i: nat, t: TxnId, u: TxnId, p: Path, q: Path, phone: nat,
                   conv: nat)
    requires IsRun(systems, steps) && i < |systems| && t in systems[i] && u in systems[i] && t != u
    requires AsQueried(p) && AsQueried(q) && WorksOn(p, phone, conv) && WorksOn(q, phone, conv)
    requires systems[i][t].program == Program(p) && systems[i][u].program == Program(q)
    ensures systems[i][t].pos < |Program(p)| || systems[i][u].pos < |Program(q)|
  {
    RunInv(systems, steps, i);
    AsksForConversation(p, phone, conv);
    AsksForConversation(q, phone, conv);
    assert TxnOk(systems[i][t]) && TxnOk(systems[i][u]);
    assert systems[i][t].held !! systems[i][u].held;
    HoldsAll(systems[i][t], Request(ConversationRow(phone, conv), Blocking));
    HoldsAll(systems[i][u], Request(ConversationRow(phone, conv), Blocking));
  }

  lemma HoldsAll(x: Txn, r: Request)
    requires TxnOk(x) && r in x.program && r.mode == Blocking
    ensures x.pos == |x.program| ==> r.row in x.held
  {
    var i :| 0 <= i < |x.program| && x.program[i] == r;
  }

  // ----- Deadlock freedom -----

  /** Whoever holds what another waits for, and waits itself, waits for something higher. */
  lemma WaitsClimb(s: System, t: TxnId, u: TxnId, v: TxnId)
    requires Inv(s) && WaitsFor(s, t, u) && WaitsFor(s, u, v)
    ensures Below(Wanted(s, t), Wanted(s, u))
  {
    assert TxnOk(s[u]) && s[u].held !! s[v].held;
    var i :| 0 <= i < s[u].pos && s[u].program[i].row == Wanted(s, t);
    if Wanted(s, t).HandoffRow? { HandoffIsFree(s, t); }
    if Wanted(s, u).HandoffRow? { HandoffIsFree(s, u); }
  }

  lemma BelowIsOrder(a: Row, b: Row, c: Row)
    ensures !Below(a, a)
    ensures Below(a, b) && Below(b, c) ==> Below(a, c)
  {
  }

  lemma NotBelow(a: Row, b: Row, c: Row)
    requires !Below(a, b) && !Below(b, c)
    ensures !Below(a, c)
  {
  }

  /** Some waiting transaction of a finite set wants a row that no other of the set wants a higher one than. */
  lemma {:induction false} Highest(s: System, waiting: set<TxnId>) returns (top: TxnId)
    requires waiting != {} && forall t | t in waiting :: Standing(s, t)
    ensures top in waiting && forall t | t in waiting :: !Below(Wanted(s, top), Wanted(s, t))
    decreases waiting
  {
    var first :| first in waiting;
    var rest := waiting - {first};
    var want := Wanted(s, first);
    if rest == {} {
      top := first;
      assert forall t | t in waiting :: t == first || t in rest;
      BelowIsOrder(want, want, want);
    } else {
      var other := Highest(s, rest);
      top := if Below(want, Wanted(s, other)) then other else first;
      forall t | t in waiting ensures !Below(Wanted(s, top), Wanted(s, t)) {
        BelowIsOrder(want, Wanted(s, other), want);
        assert t == first || t in rest;
        if top == first && t != first { NotBelow(want, Wanted(s, other), Wanted(s, t)); }
      }
    }
  }

  ghost predicate WaitsWithin(s: System, t: TxnId, stuck: set<TxnId>) {
    exists u :: u in stuck && WaitsFor(s, t, u)
  }

  lemma OneProceeds(s: System, stuck: set<TxnId>) returns (free: TxnId)
    requires Inv(s) && stuck != {}
    ensures free in stuck && !WaitsWithin(s, free, stuck)
  {
    var waiting := set t | t in stuck && WaitsWithin(s, t, stuck);
    if waiting == {} {
      free :| free in stuck;
      assert free !in waiting;
    } else {
      var top := Highest(s, waiting);
      free :| free in stuck && WaitsFor(s, top, free);
      forall v | v in stuck ensures !WaitsFor(s, free, v) {
        if WaitsFor(s, free, v) {
          WaitsClimb(s, top, free, v);
          assert WaitsWithin(s, free, stuck);
        }
      }
    }
  }

  /** No set of transactions is deadlocked: in every reachable state, every nonempty finite set of
      transactions has a member that waits for none of them. */
  lemma NoDeadlock(systems: seq<System>, steps: seq<Step>, i: nat, stuck: set<TxnId>)
    requires IsRun(systems, steps) && i < |systems| && stuck != {}
    ensures exists t :: t in stuck && !WaitsWithin(systems[i], t, stuck)
  {
    RunInv(systems, steps, i);
    var free := OneProceeds(systems[i], stuck);
  }

  /** Were the handoff of the media path locked with waiting, the full order would be broken: it is asked
      for after the inbox job. */
  lemma MediaHandoffIsOutOfOrder(phone: nat, conv: nat, job: nat, handoff: nat)
    ensures var program := Program(OwnedMedia(phone, conv, job, handoff));
            FullyAscending(program) && !FullyAscending(program[3 := program[3].(mode := Blocking)])
  {
    var program := Program(OwnedMedia(phone, conv, job, handoff));
    var waiting := program[3 := program[3].(mode := Blocking)];
    assert !Below(waiting[2].row, waiting[3].row);
  }
}
