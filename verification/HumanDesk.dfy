/** The conversation and handoff rows as the admin handlers and the reset update them in place, each
    handler proved against the command it implements. */
module HumanDesk {
  import opened Common
  import opened Ownership
  import Inbox
  import InboxStore
  import Delivery
  import Protocol = DeliveryProtocol

  class ConversationRow {
    const customer: CustomerId
    var state: State
    var botEnabled: bool
    var agent: Option<AgentId>
    var epoch: Unique

    function Value(): Conversation
      reads this
    {
      Conversation(customer, state, botEnabled, agent, epoch)
    }

    /** Assignment to `state`, through its validator. */
    method SetState(s: State, uid: Unique)
      modifies this`state, this`epoch
      ensures Value() == WriteState(old(Value()), s, uid)
    {
      if s != state && (Paused(s) || Paused(state)) {
        epoch := uid;
      }
      state := s;
    }

    /** Assignment to `bot_enabled`, through its validator. */
    method SetBot(enabled: bool, uid: Unique)
      modifies this`botEnabled, this`epoch
      ensures Value() == WriteBot(old(Value()), enabled, uid)
    {
      if enabled != botEnabled {
        epoch := uid;
      }
      botEnabled := enabled;
    }

    /** transition_conversation; false is InvalidStateTransition. */
    method Move(s: State, uid: Unique) returns (ok: bool)
      modifies this`state, this`epoch
      ensures ok <==> Transition(old(Value()), s, uid).Some?
      ensures Value() == if ok then Transition(old(Value()), s, uid).value else old(Value())
    {
      if s !in AllowedTransitions(state) {
        return false;
      }
      SetState(s, uid);
      return true;
    }

    /** The conversation's share of an accepted take and of an accepted return. */
    method TakenBy(human: AgentId, uid: Unique)
      requires state == WaitingForHuman
      modifies this
      ensures Value() == Conversation(customer, HumanActive, false, Some(human), uid + 1)
    {
      SetBot(false, uid);
      agent := Some(human);
      var ok := Move(HumanActive, uid + 1);
    }

    method HandedBack(uid: Unique)
      requires state == HumanActive
      modifies this
      ensures Value() == Conversation(customer, BotActive, true, None, uid + 1)
    {
      SetBot(true, uid);
      agent := None;
      var returned := Move(ReturnedToBot, uid + 1);
      var active := Move(BotActive, uid + 2);
    }

    /** move_conversation_to_human_active */
    method MoveToHuman(uid: Unique) returns (ok: bool)
      modifies this`state, this`epoch
      ensures ok <==> MoveToHumanActive(old(Value()), uid).Some?
      ensures ok ==> Value() == MoveToHumanActive(old(Value()), uid).value
    {
      if state == HumanActive {
        return true;
      }
      if state == WaitingForHuman {
        ok := Move(HumanActive, uid);
        return;
      }
      ok := Move(WaitingForHuman, uid);
      if ok {
        ok := Move(HumanActive, uid + 1);
      }
    }
  }

  class HandoffRow {
    const reason: CaseReason
    var status: CaseStatus
    var assignee: Option<string>
    var agent: Option<AgentId>

    function Value(): Case
      reads this
    {
      Case(status, reason, assignee, agent)
    }

    constructor (reason: CaseReason, status: CaseStatus, assignee: Option<string>, agent: Option<AgentId>)
      ensures Value() == Case(status, reason, assignee, agent)
    {
      this.reason, this.status, this.assignee, this.agent := reason, status, assignee, agent;
    }
  }

  // ----- The handlers -----

  /** What a handler leaves behind: the command's desk when accepted, the old one when refused. */
  predicate Follows(was: Desk, after: Desk, outcome: Outcome, refusal: Option<Refusal>) {
    match outcome
    case Applied(desk) => refusal.None? && after == desk
    case Refused(why) => refusal == Some(why) && after == was
  }

  /** What an accepted take, direct take or return leaves behind, in full. */
  lemma TakeWorks(d: Desk, id: CaseId, agent: AgentId, name: string, uid: Unique)
    requires PendingCase(d, id)
    ensures TakeHandoffSpec(d, id, agent, name, uid)
         == Applied(Desk(Conversation(d.conv.customer, HumanActive, false, Some(agent), uid + 1),
                         d.cases[id := d.cases[id].(status := CaseTaken, assignee := Some(name), agent := Some(agent))]))
  {
  }

  lemma TakeDirectWorks(d: Desk, agent: AgentId, name: string, newCase: CaseId, uid: Unique)
    requires DirectTakeEligible(d.conv.state) && d.conv.agent.None? && NoneOpen(d) && newCase !in d.cases
    ensures TakeConversationSpec(d, agent, name, newCase, uid)
         == Applied(Desk(Conversation(d.conv.customer, HumanActive, false, Some(agent), uid + 3),
                         d.cases[newCase := Case(CaseTaken, ManualTakeover, Some(name), Some(agent))]))
  {
  }

  lemma ReturnWorks(d: Desk, id: CaseId, agent: AgentId, uid: Unique)
    requires OwnedCase(d, id) && d.conv.agent == Some(agent)
    ensures ReturnSpec(d, id, agent, uid)
         == Applied(Desk(Conversation(d.conv.customer, BotActive, true, None, uid + 1),
                         d.cases[id := d.cases[id].(status := CaseReturned, agent := None, assignee := None)]))
  {
  }

  class CaseDesk {
    const conv: ConversationRow
    var cases: map<CaseId, HandoffRow>

    ghost predicate Valid()
      reads this
    {
      forall a, b | a in cases && b in cases && cases[a] == cases[b] :: a == b
    }

    function Cases(): map<CaseId, Case>
      reads this, cases.Values
    {
      map id | id in cases :: cases[id].Value()
    }

    function Value(): Desk
      reads this, conv, cases.Values
    {
      Desk(conv.Value(), Cases())
    }

    constructor (conv: ConversationRow, cases: map<CaseId, HandoffRow>)
      ensures this.conv == conv && this.cases == cases
    {
      this.conv, this.cases := conv, cases;
    }

    /** Rewrites one case; the others stay as they are. */
    method SetCase(id: CaseId, status: CaseStatus, assignee: Option<string>, agent: Option<AgentId>)
      requires Valid() && id in cases
      modifies cases.Values
      ensures Valid()
      ensures Cases()
           == old(Cases())[id := old(Cases())[id].(status := status, assignee := assignee, agent := agent)]
    {
      var handoff := cases[id];
      handoff.status := status;
      handoff.assignee := assignee;
      handoff.agent := agent;
      OneCaseChanged(id);
    }

    twostate lemma OneCaseChanged(id: CaseId)
      requires old(Valid()) && cases == old(cases) && id in cases
      requires forall o | o in cases.Values && o != cases[id] :: o.Value() == old(o.Value())
      ensures Cases() == old(Cases())[id := cases[id].Value()]
    {
      forall other | other in cases && other != id
        ensures Cases()[other] == old(Cases())[other]
      {
        assert cases[other] in cases.Values;
      }
    }

    method Take(id: CaseId, agent: AgentId, name: string, uid: Unique) returns (refusal: Option<Refusal>)
      requires Valid()
      modifies conv, cases.Values
      ensures Valid() && cases == old(cases)
      ensures Follows(old(Value()), Value(), TakeHandoffSpec(old(Value()), id, agent, name, uid), refusal)
    {
      if id !in cases {
        return Some(NotFound);
      }
      if !PendingCase(Value(), id) {
        return Some(Conflict);
      }
      ghost var was := Value();
      SetCase(id, CaseTaken, Some(name), Some(agent));
      conv.TakenBy(agent, uid);
      TakeWorks(was, id, agent, name, uid);
      return None;
    }

    /** The writes of a direct take, up to the state transitions. */
    method OpenTakenCase(agent: AgentId, name: string, newCase: CaseId, uid: Unique)
      requires Valid() && newCase !in cases
      modifies this, conv
      ensures Valid() && conv.Value() == WriteBot(old(conv.Value()), false, uid).(agent := Some(agent))
      ensures Cases() == old(Cases())[newCase := Case(CaseTaken, ManualTakeover, Some(name), Some(agent))]
    {
      var handoff := new HandoffRow(ManualTakeover, CaseTaken, Some(name), Some(agent));
      ghost var before := Cases();
      cases := cases[newCase := handoff];
      assert Cases() == before[newCase := handoff.Value()];
      conv.SetBot(false, uid);
      conv.agent := Some(agent);
    }

    method TakeDirect(agent: AgentId, name: string, newCase: CaseId, uid: Unique) returns (refusal: Option<Refusal>)
      requires Valid() && newCase !in cases
      modifies this, conv
      ensures Valid()
      ensures Follows(old(Value()), Value(), TakeConversationSpec(old(Value()), agent, name, newCase, uid), refusal)
    {
      ghost var was := Value();
      if !DirectTakeEligible(conv.state) {
        return Some(Conflict);
      }
      if conv.agent.Some? || !NoneOpen(Value()) {
        return Some(Conflict);
      }
      if conv.state == Resolved {
        var reopened := conv.Move(BotActive, uid);
      }
      OpenTakenCase(agent, name, newCase, uid + 1);
      var moved := conv.MoveToHuman(uid + 2);
      TakeDirectWorks(was, agent, name, newCase, uid);
      return None;
    }

    method Reassign(target: AgentId, name: string, targetExists: bool, targetActive: bool)
      returns (refusal: Option<Refusal>)
      requires Valid()
      modifies conv, cases.Values
      ensures Valid() && cases == old(cases)
      ensures Follows(old(Value()), Value(),
                      ReassignSpec(old(Value()), target, name, targetExists, targetActive), refusal)
    {
      var sole := SoleOpen();
      if sole.None? || !OwnedCase(Value(), sole.value) {
        return Some(Conflict);
      }
      if !targetExists {
        return Some(NotFound);
      }
      if !targetActive || conv.agent == Some(target) {
        return Some(Conflict);
      }
      SetCase(sole.value, cases[sole.value].status, Some(name), Some(target));
      conv.agent := Some(target);
      return None;
    }

    method Return(id: CaseId, agent: AgentId, uid: Unique) returns (refusal: Option<Refusal>)
      requires Valid()
      modifies conv, cases.Values
      ensures Valid() && cases == old(cases)
      ensures Follows(old(Value()), Value(), ReturnSpec(old(Value()), id, agent, uid), refusal)
    {
      if id !in cases {
        return Some(NotFound);
      }
      ghost var was := Value();
      if !OwnedCase(Value(), id) {
        return Some(Conflict);
      }
      if conv.agent != Some(agent) {
        return Some(Forbidden);
      }
      SetCase(id, CaseReturned, None, None);
      conv.HandedBack(uid);
      ReturnWorks(was, id, agent, uid);
      return None;
    }

    /** create_agent_message: the desk is only read; the accepted message becomes an outbox row that names the
        agent. Without an earlier message there is nothing to answer. */
    method Reply(agent: AgentId, convId: Delivery.ConvId, latest: Option<Delivery.MessageId>)
      returns (refusal: Option<Refusal>, row: Option<Delivery.Row>)
      requires Valid()
      ensures refusal.None? <==> ReplySpec(Value(), agent).Applied? && latest.Some?
      ensures ReplySpec(Value(), agent).Refused? ==> refusal == Some(ReplySpec(Value(), agent).why)
      ensures row == if refusal.None? then Some(Protocol.ReplyRow(convId, agent, latest.value)) else None
    {
      var sole := SoleOpen();
      if sole.None? || !OwnedCase(Value(), sole.value) {
        return Some(Conflict), None;
      }
      if conv.agent != Some(agent) {
        return Some(Forbidden), None;
      }
      if latest.None? {
        return Some(Conflict), None;
      }
      return None, Some(Protocol.ReplyRow(convId, agent, latest.value));
    }

    /** The open cases of lock_human_case, when there is exactly one. */
    method SoleOpen() returns (sole: Option<CaseId>)
      requires Valid()
      ensures sole == SoleCase(Value())
    {
      var todo, open := cases.Keys, {};
      while todo != {}
        invariant todo <= cases.Keys
        invariant forall id :: id in open <==> id in cases && id !in todo && Open(Cases()[id])
        decreases |todo|
      {
        var id :| id in todo;
        todo := todo - {id};
        if cases[id].status == CasePending || cases[id].status == CaseTaken {
          open := open + {id};
        }
      }
      forall id | id in cases && OnlyOpen(Value(), id) ensures |open| == 1 { assert open == {id}; }
      if |open| != 1 {
        return None;
      }
      var id :| id in open;
      Singleton(open, id);
      forall other | other in Value().cases && Open(Value().cases[other]) ensures other == id { assert other in open; }
      SoleCaseIsOnly(Value(), id);
      return Some(id);
    }
  }

  // ----- Reset -----

  /** reset_conversation_by_phone on the rows its queries returned: refused as a whole while a job is
      being processed; otherwise every conversation is closed under an epoch of its own, every case
      resolved and every job completed. A dry run changes nothing. */
  method ResetRows(conversations: seq<ConversationRow>, handoffs: seq<HandoffRow>, jobs: seq<InboxStore.JobRow>,
                   dryRun: bool, uid: Unique) returns (ok: bool)
    requires forall i, j | 0 <= i < j < |conversations| :: conversations[i] != conversations[j]
    requires forall i, j | 0 <= i < j < |handoffs| :: handoffs[i] != handoffs[j]
    requires forall i, j | 0 <= i < j < |jobs| :: jobs[i] != jobs[j]
    requires forall i | 0 <= i < |handoffs| :: handoffs[i].status != CaseResolved
    modifies set c | c in conversations, set h | h in handoffs, set j | j in jobs
    ensures ok <==> forall i | 0 <= i < |jobs| :: !Inbox.Active(old(jobs[i].Value()))
    ensures !ok || dryRun ==>
              && (forall i | 0 <= i < |conversations| :: conversations[i].Value() == old(conversations[i].Value()))
              && (forall i | 0 <= i < |handoffs| :: handoffs[i].Value() == old(handoffs[i].Value()))
              && (forall i | 0 <= i < |jobs| :: jobs[i].Value() == old(jobs[i].Value()))
    ensures ok && !dryRun ==>
              && (forall i | 0 <= i < |conversations| ::
                    conversations[i].Value() == ResetConversation(old(conversations[i].Value()), uid + i))
              && (forall i | 0 <= i < |handoffs| :: handoffs[i].Value() == ResetCase(old(handoffs[i].Value())))
              && (forall i | 0 <= i < |jobs| ::
                    jobs[i].Value() == Inbox.Retire(old(jobs[i].Value()), Inbox.Completed, Inbox.ResetByAdmin))
  {
    for i := 0 to |jobs|
      invariant forall k | 0 <= k < i :: !Inbox.Active(jobs[k].Value())
    {
      if jobs[i].status == Inbox.Processing || jobs[i].status == Inbox.External {
        return false;
      }
    }
    if dryRun {
      return true;
    }
    ResetConversations(conversations, uid);
    ResolveCases(handoffs);
    CompleteJobs(jobs);
    return true;
  }

  method ResolveCases(handoffs: seq<HandoffRow>)
    requires forall i, j | 0 <= i < j < |handoffs| :: handoffs[i] != handoffs[j]
    modifies set h | h in handoffs
    ensures forall i | 0 <= i < |handoffs| ::
              handoffs[i].Value() == old(handoffs[i].Value()).(status := CaseResolved, assignee := None, agent := None)
  {
    for i := 0 to |handoffs|
      invariant forall k | 0 <= k < i ::
                  handoffs[k].Value() == old(handoffs[k].Value()).(status := CaseResolved, assignee := None, agent := None)
      invariant forall k | i <= k < |handoffs| :: handoffs[k].Value() == old(handoffs[k].Value())
    {
      handoffs[i].status := CaseResolved;
      handoffs[i].assignee := None;
      handoffs[i].agent := None;
    }
  }

  method CompleteJobs(jobs: seq<InboxStore.JobRow>)
    requires forall i, j | 0 <= i < j < |jobs| :: jobs[i] != jobs[j]
    modifies set j | j in jobs
    ensures forall i | 0 <= i < |jobs| ::
              jobs[i].Value() == Inbox.Retire(old(jobs[i].Value()), Inbox.Completed, Inbox.ResetByAdmin)
  {
    for i := 0 to |jobs|
      invariant forall k | 0 <= k < i ::
                  jobs[k].Value() == Inbox.Retire(old(jobs[k].Value()), Inbox.Completed, Inbox.ResetByAdmin)
      invariant forall k | i <= k < |jobs| :: jobs[k].Value() == old(jobs[k].Value())
    {
      jobs[i].Retire(Inbox.Completed, Inbox.ResetByAdmin);
    }
  }

  method ResetConversations(conversations: seq<ConversationRow>, uid: Unique)
    requires forall i, j | 0 <= i < j < |conversations| :: conversations[i] != conversations[j]
    modifies set c | c in conversations
    ensures forall i | 0 <= i < |conversations| ::
              conversations[i].Value() == ResetConversation(old(conversations[i].Value()), uid + i)
  {
    for i := 0 to |conversations|
      invariant forall k | 0 <= k < i ::
                  conversations[k].Value() == ResetConversation(old(conversations[k].Value()), uid + k)
      invariant forall k | i <= k < |conversations| :: conversations[k].Value() == old(conversations[k].Value())
    {
      var c := conversations[i];
      c.SetState(Closed, uid + i);
      c.SetBot(true, uid + i);
      c.agent := None;
      c.epoch := uid + i;
    }
  }
}
