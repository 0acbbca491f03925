/** Who speaks to a customer: one conversation row together with its handoff cases
    ("desk"), and the administrative commands that move it between the bot and a human
    agent (app/admin/ownership.py, app/admin/routes.py, app/conversation/service.py). */
module Ownership {
  import opened Common

  type AgentId = nat
  type CaseId = nat
  type CustomerId = nat

  /** Automation epochs and claim tokens are uuid4 values. Only their freshness is ever
      used, so they are drawn from one counter that never repeats. */
  type Unique = nat

  datatype State =
    | New | BotActive | AnsweringInformation | CollectingEventData | QuoteRequestReady
    | WaitingForAppointmentDate | WaitingForAppointmentSelection
    | AppointmentPendingConfirmation | AppointmentConfirmed
    | WaitingForHuman | HumanActive | ReturnedToBot | Resolved | Closed

  datatype CaseStatus = CasePending | CaseTaken | CaseReturned | CaseResolved

  datatype CaseReason = PaymentReview | ManualTakeover | OtherReason

  datatype Case = Case(status: CaseStatus, reason: CaseReason, assignee: Option<string>, agent: Option<AgentId>)

  datatype Conversation = Conversation(
    customer: CustomerId, state: State, botEnabled: bool, agent: Option<AgentId>, epoch: Unique)

  datatype Desk = Desk(conv: Conversation, cases: map<CaseId, Case>)

  datatype Refusal = NotFound | Conflict | Forbidden | InvalidTransition

  datatype Outcome = Applied(desk: Desk) | Refused(why: Refusal)

  // ----- Conversation columns and their validators -----

  predicate Paused(s: State) {
    s == WaitingForHuman || s == HumanActive || s == Closed
  }

  function AllowedTransitions(s: State): set<State> {
    match s
    case New => {BotActive, WaitingForHuman, Closed}
    case BotActive =>
      {AnsweringInformation, CollectingEventData, WaitingForAppointmentDate, WaitingForAppointmentSelection,
       AppointmentPendingConfirmation, WaitingForHuman, Resolved, Closed}
    case AnsweringInformation =>
      {BotActive, CollectingEventData, WaitingForAppointmentDate, WaitingForHuman, Resolved}
    case CollectingEventData =>
      {CollectingEventData, AnsweringInformation, QuoteRequestReady, BotActive, WaitingForAppointmentDate,
       WaitingForHuman, Resolved}
    case QuoteRequestReady => {CollectingEventData, WaitingForHuman, BotActive, Resolved}
    case WaitingForAppointmentDate =>
      {WaitingForAppointmentDate, WaitingForAppointmentSelection, AnsweringInformation, WaitingForHuman, BotActive}
    case WaitingForAppointmentSelection =>
      {WaitingForAppointmentSelection, AppointmentPendingConfirmation, WaitingForAppointmentDate,
       AnsweringInformation, WaitingForHuman, BotActive}
    case AppointmentPendingConfirmation =>
      {AppointmentConfirmed, WaitingForAppointmentDate, WaitingForAppointmentSelection, BotActive, WaitingForHuman}
    case AppointmentConfirmed =>
      {BotActive, WaitingForAppointmentDate, WaitingForAppointmentSelection, AppointmentPendingConfirmation,
       WaitingForHuman, Resolved}
    case WaitingForHuman => {HumanActive, BotActive, Resolved, Closed}
    case HumanActive => {ReturnedToBot, Resolved, Closed, WaitingForHuman}
    case ReturnedToBot => {BotActive, CollectingEventData, WaitingForAppointmentDate, Resolved, WaitingForHuman}
    case Resolved => {BotActive, HumanActive, Closed}
    case Closed => {BotActive, HumanActive}
  }

  /** Assigning `state`: entering or leaving a paused state rotates the automation epoch. */
  function WriteState(c: Conversation, s: State, uid: Unique): Conversation {
    if s != c.state && (Paused(s) || Paused(c.state)) then c.(state := s, epoch := uid)
    else c.(state := s)
  }

  /** Assigning `bot_enabled`: a real change rotates the automation epoch. */
  function WriteBot(c: Conversation, enabled: bool, uid: Unique): Conversation {
    if enabled != c.botEnabled then c.(botEnabled := enabled, epoch := uid) else c
  }

  /** transition_conversation; None is InvalidStateTransition, which rolls the command back. */
  function Transition(c: Conversation, s: State, uid: Unique): Option<Conversation> {
    if s in AllowedTransitions(c.state) then Some(WriteState(c, s, uid)) else None
  }

  // ----- Guards of app/admin/ownership.py -----

  predicate Open(k: Case) {
    k.status == CasePending || k.status == CaseTaken
  }

  predicate OnlyOpen(d: Desk, id: CaseId) {
    && id in d.cases && Open(d.cases[id])
    && forall other | other in d.cases && Open(d.cases[other]) :: other == id
  }

  predicate NoneOpen(d: Desk) {
    forall id | id in d.cases :: !Open(d.cases[id])
  }

  /** The single open case of a conversation, when there is exactly one. */
  function SoleCase(d: Desk): Option<CaseId> {
    if exists id | id in d.cases :: OnlyOpen(d, id) then
      var id :| id in d.cases && OnlyOpen(d, id);
      Some(id)
    else None
  }

  predicate OwnedCase(d: Desk, id: CaseId) {
    && d.conv.state == HumanActive && !d.conv.botEnabled
    && OnlyOpen(d, id) && d.cases[id].status == CaseTaken
    && d.conv.agent.Some? && d.conv.agent == d.cases[id].agent
  }

  predicate PendingCase(d: Desk, id: CaseId) {
    && d.conv.state == WaitingForHuman && d.conv.agent.None?
    && OnlyOpen(d, id) && d.cases[id].status == CasePending
    && d.cases[id].agent.None? && d.cases[id].assignee.None?
  }

  predicate DirectTakeEligible(s: State) {
    s == BotActive || s == AnsweringInformation || s == CollectingEventData ||
    s == WaitingForAppointmentDate || s == WaitingForAppointmentSelection ||
    s == AppointmentPendingConfirmation || s == AppointmentConfirmed || s == Resolved
  }

  // ----- Commands -----

  datatype Command =
    | TakeHandoff(id: CaseId, agent: AgentId, name: string)
    | TakeConversation(agent: AgentId, name: string, newCase: CaseId)
    | Reassign(target: AgentId, targetName: string, targetExists: bool, targetActive: bool)
    | ReturnHandoff(id: CaseId, agent: AgentId)
    | Reply(agent: AgentId)

  function TakeHandoffSpec(d: Desk, id: CaseId, agent: AgentId, name: string, uid: Unique): Outcome {
    if id !in d.cases then Refused(NotFound)
    else if !PendingCase(d, id) then Refused(Conflict)
    else
      var taken := d.cases[id].(status := CaseTaken, assignee := Some(name), agent := Some(agent));
      var c := WriteBot(d.conv, false, uid).(agent := Some(agent));
      match Transition(c, HumanActive, uid + 1)
      case None => Refused(InvalidTransition)
      case Some(c') => Applied(Desk(c', d.cases[id := taken]))
  }

  /** move_conversation_to_human_active */
  function MoveToHumanActive(c: Conversation, uid: Unique): Option<Conversation> {
    if c.state == HumanActive then Some(c)
    else if c.state == WaitingForHuman then Transition(c, HumanActive, uid)
    else
      match Transition(c, WaitingForHuman, uid)
      case None => None
      case Some(c') => Transition(c', HumanActive, uid + 1)
  }

  function TakeConversationSpec(d: Desk, agent: AgentId, name: string, newCase: CaseId, uid: Unique): Outcome
    requires newCase !in d.cases
  {
    if !DirectTakeEligible(d.conv.state) || d.conv.agent.Some? || !NoneOpen(d) then Refused(Conflict)
    else
      var reopened := if d.conv.state == Resolved then Transition(d.conv, BotActive, uid) else Some(d.conv);
      match reopened
      case None => Refused(InvalidTransition)
      case Some(c0) =>
        var c := WriteBot(c0, false, uid + 1).(agent := Some(agent));
        match MoveToHumanActive(c, uid + 2)
        case None => Refused(InvalidTransition)
        case Some(c') =>
          Applied(Desk(c', d.cases[newCase := Case(CaseTaken, ManualTakeover, Some(name), Some(agent))]))
  }

  function ReassignSpec(d: Desk, target: AgentId, name: string, targetExists: bool, targetActive: bool): Outcome {
    match SoleCase(d)
    case None => Refused(Conflict)
    case Some(id) =>
      if !OwnedCase(d, id) then Refused(Conflict)
      else if !targetExists then Refused(NotFound)
      else if !targetActive || d.conv.agent == Some(target) then Refused(Conflict)
      else
        var moved := d.cases[id].(agent := Some(target), assignee := Some(name));
        Applied(Desk(d.conv.(agent := Some(target)), d.cases[id := moved]))
  }

  function ReturnSpec(d: Desk, id: CaseId, agent: AgentId, uid: Unique): Outcome {
    if id !in d.cases then Refused(NotFound)
    else if !OwnedCase(d, id) then Refused(Conflict)
    else if d.conv.agent != Some(agent) then Refused(Forbidden)
    else
      var closed := d.cases[id].(status := CaseReturned, agent := None, assignee := None);
      var c := WriteBot(d.conv, true, uid).(agent := None);
      match Transition(c, ReturnedToBot, uid + 1)
      case None => Refused(InvalidTransition)
      case Some(c1) =>
        match Transition(c1, BotActive, uid + 2)
        case None => Refused(InvalidTransition)
        case Some(c2) => Applied(Desk(c2, d.cases[id := closed]))
  }

  /** create_agent_message: the desk itself is unchanged; the caller appends the outbox row. */
  function ReplySpec(d: Desk, agent: AgentId): Outcome {
    match SoleCase(d)
    case None => Refused(Conflict)
    case Some(id) =>
      if !OwnedCase(d, id) then Refused(Conflict)
      else if d.conv.agent != Some(agent) then Refused(Forbidden)
      else Applied(d)
  }

  /** A newly inserted case gets an id of its own. */
  predicate FreshCase(d: Desk, command: Command) {
    command.TakeConversation? ==> command.newCase !in d.cases
  }

  function Perform(d: Desk, command: Command, uid: Unique): Outcome
    requires FreshCase(d, command)
  {
    match command
    case TakeHandoff(id, agent, name) => TakeHandoffSpec(d, id, agent, name, uid)
    case TakeConversation(agent, name, newCase) => TakeConversationSpec(d, agent, name, newCase, uid)
    case Reassign(target, name, known, active) => ReassignSpec(d, target, name, known, active)
    case ReturnHandoff(id, agent) => ReturnSpec(d, id, agent, uid)
    case Reply(agent) => ReplySpec(d, agent)
  }

  function ResetConversation(c: Conversation, uid: Unique): Conversation {
    c.(state := Closed, botEnabled := true, agent := None, epoch := uid)
  }

  function ResetCase(k: Case): Case {
    if k.status != CaseResolved then k.(status := CaseResolved, assignee := None, agent := None) else k
  }

  /** One conversation's share of reset_conversation_by_phone. */
  function ResetDesk(d: Desk, uid: Unique): Desk {
    Desk(ResetConversation(d.conv, uid), map id | id in d.cases :: ResetCase(d.cases[id]))
  }

  /** create_handoff: append a pending case and wait for a human unless already waiting. */
  function CreateHandoff(d: Desk, newCase: CaseId, reason: CaseReason, uid: Unique): Outcome {
    var cases := d.cases[newCase := Case(CasePending, reason, None, None)];
    if d.conv.state == WaitingForHuman then Applied(Desk(d.conv, cases))
    else
      match Transition(d.conv, WaitingForHuman, uid)
      case None => Refused(InvalidTransition)
      case Some(c) => Applied(Desk(c, cases))
  }

  /** There are open cases, and all of them are payment reviews. */
  predicate PaymentOnly(d: Desk) {
    && !NoneOpen(d)
    && forall id | id in d.cases && Open(d.cases[id]) :: d.cases[id].reason == PaymentReview
  }

  function SettleCase(k: Case): Case {
    if Open(k) && k.reason == PaymentReview then k.(status := CaseResolved, assignee := None, agent := None) else k
  }

  /** resolve_payment_handoffs for one conversation whose evidence is all reviewed: its payment reviews are
      resolved, and if nothing else was open the conversation goes back to the bot. */
  function ResolvePayment(d: Desk, uid: Unique): Desk {
    var cases := map id | id in d.cases :: SettleCase(d.cases[id]);
    if !PaymentOnly(d) || (d.conv.state != WaitingForHuman && d.conv.state != HumanActive) then Desk(d.conv, cases)
    else
      var c := WriteBot(d.conv, true, uid).(agent := None);
      var c1 := if c.state == HumanActive then WriteState(c, ReturnedToBot, uid + 1) else c;
      Desk(WriteState(c1, BotActive, uid + 2), cases)
  }

  predicate Silent(c: Conversation) {
    Paused(c.state) || !c.botEnabled
  }

  /** What an orchestrated turn may do to the desk. A silent turn leaves it alone; a speaking
      turn never enters HUMAN_ACTIVE, never assigns an agent, and only appends pending cases.
      The orchestrator itself is not part of this model. */
  predicate TurnContract(d: Desk, d': Desk, uid: Unique) {
    if Silent(d.conv) then d' == d
    else
      && d'.conv.customer == d.conv.customer
      && d'.conv.agent == d.conv.agent
      && d'.conv.state != HumanActive
      && (d'.conv.epoch == d.conv.epoch || d'.conv.epoch == uid)
      && (Silent(d'.conv) ==> d'.conv.epoch == uid)
      && (forall id | id in d.cases :: id in d'.cases && d'.cases[id] == d.cases[id])
      && (forall id | id in d'.cases && id !in d.cases ::
            d'.cases[id].status == CasePending && d'.cases[id].agent.None? && d'.cases[id].assignee.None?)
  }

  // ----- Coherence -----

  /** A human holds the conversation: exactly one open case, taken, by the conversation's own
      agent, with the bot off. */
  ghost predicate HeldByHuman(d: Desk) {
    exists id :: OnlyOpen(d, id) && d.cases[id].status == CaseTaken && d.cases[id].agent.Some?
                 && d.cases[id].agent == d.conv.agent && !d.conv.botEnabled
  }

  /** No trace of a human: no agent, and every open case is pending and unattributed. */
  ghost predicate Unheld(d: Desk) {
    && d.conv.agent.None?
    && forall id | id in d.cases && Open(d.cases[id]) ::
         d.cases[id].status == CasePending && d.cases[id].agent.None? && d.cases[id].assignee.None?
  }

  ghost predicate Coherent(d: Desk) {
    if d.conv.state == HumanActive then HeldByHuman(d) else Unheld(d)
  }

  /** In a coherent desk HUMAN_ACTIVE holds exactly when a human holds the conversation. */
  lemma HumanActiveIffHeld(d: Desk)
    requires Coherent(d)
    ensures d.conv.state == HumanActive <==> HeldByHuman(d)
    ensures d.conv.state == HumanActive ==> !d.conv.botEnabled && d.conv.agent.Some?
  {
    if HeldByHuman(d) {
      var id :| OnlyOpen(d, id) && d.cases[id].status == CaseTaken && d.cases[id].agent.Some?
                && d.cases[id].agent == d.conv.agent && !d.conv.botEnabled;
      assert Open(d.cases[id]);
    }
  }

  lemma SoleCaseIsOnly(d: Desk, id: CaseId)
    requires OnlyOpen(d, id)
    ensures SoleCase(d) == Some(id)
  {
  }

  /** On a coherent human-held desk the ownership guard never refuses. */
  lemma HeldIsOwned(d: Desk) returns (id: CaseId)
    requires Coherent(d) && d.conv.state == HumanActive
    ensures SoleCase(d) == Some(id) && OwnedCase(d, id)
  {
    id :| OnlyOpen(d, id) && d.cases[id].status == CaseTaken && d.cases[id].agent.Some?
          && d.cases[id].agent == d.conv.agent && !d.conv.botEnabled;
    SoleCaseIsOnly(d, id);
  }

  /** Every accepted command keeps coherence. A refused command has no resulting desk. */
  lemma CommandKeepsCoherence(d: Desk, command: Command, uid: Unique)
    requires Coherent(d) && FreshCase(d, command) && Perform(d, command, uid).Applied?
    ensures Coherent(Perform(d, command, uid).desk)
    ensures Perform(d, command, uid).desk.conv.customer == d.conv.customer
  {
    var d' := Perform(d, command, uid).desk;
    match command
    case TakeHandoff(id, agent, name) =>
      assert OnlyOpen(d', id);
    case TakeConversation(agent, name, newCase) =>
      assert OnlyOpen(d', newCase);
    case Reassign(target, name, known, active) =>
      var id := SoleCase(d).value;
      assert OnlyOpen(d', id);
    case ReturnHandoff(id, agent) =>
      assert forall other | other in d'.cases && Open(d'.cases[other]) :: other == id;
      assert !Open(d'.cases[id]);
    case Reply(agent) =>
  }

  lemma ResetKeepsCoherence(d: Desk, uid: Unique)
    ensures Coherent(ResetDesk(d, uid))
    ensures NoneOpen(ResetDesk(d, uid)) && ResetDesk(d, uid).conv.state == Closed
    ensures ResetDesk(d, uid).conv == Conversation(d.conv.customer, Closed, true, None, uid)
    ensures ResetDesk(d, uid).cases.Keys == d.cases.Keys
    ensures forall id | id in d.cases ::
              ResetDesk(d, uid).cases[id] == if d.cases[id].status == CaseResolved then d.cases[id]
                                             else Case(CaseResolved, d.cases[id].reason, None, None)
  {
  }

  lemma TurnKeepsCoherence(d: Desk, d': Desk, uid: Unique)
    requires Coherent(d) && TurnContract(d, d', uid)
    ensures Coherent(d')
  {
  }

  /** Exclusivity: once a take has been accepted, every further take is refused. */
  lemma TakeIsExclusive(d: Desk, first: Command, second: Command, uid: Unique, later: Unique)
    requires first.TakeHandoff? || first.TakeConversation?
    requires second.TakeHandoff? || second.TakeConversation?
    requires Coherent(d) && FreshCase(d, first) && Perform(d, first, uid).Applied?
    requires FreshCase(Perform(d, first, uid).desk, second)
    ensures Perform(Perform(d, first, uid).desk, second, later).Refused?
  {
    var d' := Perform(d, first, uid).desk;
    assert d'.conv.state == HumanActive;
  }

  /** Only the current owner returns or replies; anyone else is refused. */
  lemma OnlyOwnerMutates(d: Desk, id: CaseId, agent: AgentId, uid: Unique)
    requires Coherent(d) && id in d.cases
    ensures ReturnSpec(d, id, agent, uid).Applied? <==> OwnedCase(d, id) && d.conv.agent == Some(agent)
    ensures ReplySpec(d, agent).Applied? <==> d.conv.state == HumanActive && d.conv.agent == Some(agent)
  {
    if d.conv.state == HumanActive {
      var k := HeldIsOwned(d);
    }
  }

  /** Taking a pending case and returning it leaves an unassigned, unpaused, re-enabled bot under
      an epoch that is neither the one before the take nor the one during it. */
  lemma TakeThenReturn(d: Desk, id: CaseId, agent: AgentId, name: string, e1: Unique, e2: Unique)
    requires Coherent(d) && d.conv.epoch < e1 && e1 + 2 <= e2
    requires TakeHandoffSpec(d, id, agent, name, e1).Applied?
    ensures var held := TakeHandoffSpec(d, id, agent, name, e1).desk;
            var back := ReturnSpec(held, id, agent, e2);
            && held.conv.epoch != d.conv.epoch
            && back.Applied? && back.desk.conv.state == BotActive && back.desk.conv.botEnabled
            && back.desk.conv.agent.None? && NoneOpen(back.desk)
            && back.desk.conv.epoch != d.conv.epoch && back.desk.conv.epoch != held.conv.epoch
  {
    var held := TakeHandoffSpec(d, id, agent, name, e1).desk;
    assert OnlyOpen(held, id);
    assert OwnedCase(held, id);
    var back := ReturnSpec(held, id, agent, e2).desk;
    assert !Open(back.cases[id]);
  }

  /** A direct take never dies on a state transition: every refusal is one of its own guards. */
  lemma DirectTakeNeverRaises(d: Desk, agent: AgentId, name: string, newCase: CaseId, uid: Unique)
    requires newCase !in d.cases
    ensures TakeConversationSpec(d, agent, name, newCase, uid).Applied? <==>
            DirectTakeEligible(d.conv.state) && d.conv.agent.None? && NoneOpen(d)
  {
  }

  /** The whole effect of create_handoff: it fails exactly from RESOLVED and CLOSED; otherwise the conversation
      waits for a human with one more case, pending and nobody's. Its period ends unless it was waiting already. */
  lemma HandoffOutcome(d: Desk, newCase: CaseId, reason: CaseReason, uid: Unique)
    requires newCase !in d.cases
    ensures CreateHandoff(d, newCase, reason, uid).Refused? <==> d.conv.state == Resolved || d.conv.state == Closed
    ensures CreateHandoff(d, newCase, reason, uid).Applied? ==>
              var d' := CreateHandoff(d, newCase, reason, uid).desk;
              && d'.conv == d.conv.(state := WaitingForHuman,
                                    epoch := if d.conv.state == WaitingForHuman then d.conv.epoch else uid)
              && Silent(d'.conv)
              && d'.cases.Keys == d.cases.Keys + {newCase} && d'.cases[newCase] == Case(CasePending, reason, None, None)
              && forall id | id in d.cases :: d'.cases[id] == d.cases[id]
  {
  }

  /** create_handoff, which app/reservation/notifications.py:100-111 also calls while a human may
      be active, keeps coherence exactly when the conversation is not HUMAN_ACTIVE. */
  lemma CreateHandoffCoherentIff(d: Desk, newCase: CaseId, reason: CaseReason, uid: Unique)
    requires Coherent(d) && newCase !in d.cases
    requires CreateHandoff(d, newCase, reason, uid).Applied?
    ensures Coherent(CreateHandoff(d, newCase, reason, uid).desk) <==> d.conv.state != HumanActive
  {
    var d' := CreateHandoff(d, newCase, reason, uid).desk;
    if d.conv.state == HumanActive {
      var id := HeldIsOwned(d);
      assert d'.cases[id] == d.cases[id];
    } else {
      forall id | id in d'.cases && Open(d'.cases[id])
        ensures d'.cases[id].status == CasePending && d'.cases[id].agent.None? && d'.cases[id].assignee.None?
      {
        if id != newCase { assert d'.cases[id] == d.cases[id]; }
      }
    }
  }

  /** ... and from that incoherent desk every command of the panel is refused. */
  lemma CreateHandoffStrandsHumanCase(
      d: Desk, newCase: CaseId, reason: CaseReason, uid: Unique, command: Command, later: Unique)
    requires Coherent(d) && d.conv.state == HumanActive && newCase !in d.cases
    requires CreateHandoff(d, newCase, reason, uid).Applied? ==>
               FreshCase(CreateHandoff(d, newCase, reason, uid).desk, command)
    ensures CreateHandoff(d, newCase, reason, uid).Applied?
    ensures Perform(CreateHandoff(d, newCase, reason, uid).desk, command, later).Refused?
  {
    var d' := CreateHandoff(d, newCase, reason, uid).desk;
    var id := HeldIsOwned(d);
    assert Open(d'.cases[id]) && Open(d'.cases[newCase]) && id != newCase;
    assert forall k :: !OnlyOpen(d', k);
  }

  // ----- Payment settlement -----

  /** Settlement keeps coherence, and the state transitions it makes are always allowed. */
  lemma SettlementKeepsCoherence(d: Desk, uid: Unique)
    requires Coherent(d)
    ensures Coherent(ResolvePayment(d, uid))
    ensures ReturnedToBot in AllowedTransitions(HumanActive)
    ensures BotActive in AllowedTransitions(ReturnedToBot) && BotActive in AllowedTransitions(WaitingForHuman)
  {
    var d' := ResolvePayment(d, uid);
    if d.conv.state == HumanActive {
      var id := HeldIsOwned(d);
      if d.cases[id].reason != PaymentReview {
        assert d'.cases == d.cases;
      }
    }
  }

  /** The whole effect of a settlement. Exactly the open payment reviews are resolved. If they were all that
      was open and the conversation waited for a human or had one, it goes back to the bot: enabled, unassigned,
      not silent, nothing left open, in a period of its own. Otherwise it stays as it was. */
  lemma SettlementOutcome(d: Desk, uid: Unique)
    requires Coherent(d)
    ensures var d' := ResolvePayment(d, uid);
            if !NoneOpen(d) && (forall id | id in d.cases && Open(d.cases[id]) :: d.cases[id].reason == PaymentReview)
               && (d.conv.state == WaitingForHuman || d.conv.state == HumanActive)
            then d'.conv.state == BotActive && d'.conv.botEnabled && d'.conv.agent.None? && !Silent(d'.conv)
                 && d'.conv.epoch >= uid && d'.conv.customer == d.conv.customer && NoneOpen(d')
            else d'.conv == d.conv
    ensures ResolvePayment(d, uid).cases.Keys == d.cases.Keys
    ensures forall id | id in d.cases ::
              ResolvePayment(d, uid).cases[id] ==
              if (d.cases[id].status == CasePending || d.cases[id].status == CaseTaken) && d.cases[id].reason == PaymentReview
              then Case(CaseResolved, PaymentReview, None, None) else d.cases[id]
  {
  }

  /** A human loses a conversation exactly when the human's case is a payment review. */
  lemma SettlementReleases(d: Desk, id: CaseId, uid: Unique)
    requires Coherent(d) && d.conv.state == HumanActive && OwnedCase(d, id)
    ensures ResolvePayment(d, uid).conv.state != HumanActive <==> d.cases[id].reason == PaymentReview
    ensures d.cases[id].reason == PaymentReview ==>
              var d' := ResolvePayment(d, uid);
              && d'.conv.state == BotActive && !Silent(d'.conv) && d'.conv.agent.None? && NoneOpen(d')
              && d'.conv.epoch >= uid
    ensures d.cases[id].reason != PaymentReview ==> ResolvePayment(d, uid) == d
  {
    if d.cases[id].reason != PaymentReview {
      assert forall k | k in d.cases :: SettleCase(d.cases[k]) == d.cases[k];
      assert ResolvePayment(d, uid).cases == d.cases;
    }
  }

  // ----- Stranded conversations -----

  /** Waiting for a human, still assigned to one, with a pending case that is no payment review. */
  predicate Stranded(d: Desk) {
    && d.conv.state == WaitingForHuman && d.conv.agent.Some?
    && exists id | id in d.cases :: d.cases[id].status == CasePending && d.cases[id].reason != PaymentReview
  }

  lemma StrandedIsIncoherent(d: Desk)
    requires Stranded(d)
    ensures !Coherent(d) && !HeldByHuman(d)
  {
    var id :| id in d.cases && d.cases[id].status == CasePending && d.cases[id].reason != PaymentReview;
    assert Open(d.cases[id]);
  }

  /** The case a payment conflict opens strands a conversation in which a human is active. */
  lemma ConflictStrands(d: Desk, newCase: CaseId, uid: Unique)
    requires Coherent(d) && d.conv.state == HumanActive && newCase !in d.cases
    ensures CreateHandoff(d, newCase, OtherReason, uid).Applied?
    ensures Stranded(CreateHandoff(d, newCase, OtherReason, uid).desk)
  {
    HumanActiveIffHeld(d);
    assert CreateHandoff(d, newCase, OtherReason, uid).desk.cases[newCase].status == CasePending;
  }

  /** Only a reset repairs a stranded conversation: commands are refused, turns are silent, and neither
      further cases nor settlements free it. */
  lemma StrandedStays(d: Desk, command: Command, d': Desk, newCase: CaseId, reason: CaseReason, uid: Unique)
    requires Stranded(d) && newCase !in d.cases
    ensures FreshCase(d, command) ==> Perform(d, command, uid).Refused?
    ensures TurnContract(d, d', uid) ==> d' == d
    ensures CreateHandoff(d, newCase, reason, uid).Applied? && Stranded(CreateHandoff(d, newCase, reason, uid).desk)
    ensures Stranded(ResolvePayment(d, uid))
  {
    var id :| id in d.cases && d.cases[id].status == CasePending && d.cases[id].reason != PaymentReview;
    assert Open(d.cases[id]);
    assert CreateHandoff(d, newCase, reason, uid).desk.cases[id] == d.cases[id];
    assert ResolvePayment(d, uid).cases[id] == d.cases[id];
  }

  /** After a reassignment the conversation answers to the new owner and to nobody else, in the same
      automation period; it is accepted exactly for an owned case and another, active agent. */
  lemma ReassignMovesOwnership(
    d: Desk, target: AgentId, name: string, known: bool, active: bool, agent: AgentId)
    requires Coherent(d)
    ensures ReassignSpec(d, target, name, known, active).Applied? <==>
              d.conv.state == HumanActive && known && active && d.conv.agent != Some(target)
    ensures ReassignSpec(d, target, name, known, active).Applied? ==>
              var d' := ReassignSpec(d, target, name, known, active).desk;
              && (ReplySpec(d', agent).Applied? <==> agent == target)
              && d'.conv.epoch == d.conv.epoch && d'.cases.Keys == d.cases.Keys
              && (forall id | id in d.cases && !Open(d.cases[id]) :: d'.cases[id] == d.cases[id])
              && (forall id | id in d'.cases && Open(d'.cases[id]) :: d'.cases[id].assignee == Some(name))
  {
    if d.conv.state == HumanActive {
      var id := HeldIsOwned(d);
      if known && active && d.conv.agent != Some(target) {
        var d' := ReassignSpec(d, target, name, known, active).desk;
        assert OnlyOpen(d', id);
        SoleCaseIsOnly(d', id);
      }
    }
  }
}
