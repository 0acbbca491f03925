/** Agenda calls of a turn are deferred out of the settlement transaction and replayed from a
    positional log on the next attempt (app/orchestrator/inbox_effects.py). */
module Replay {
  import opened Common

  datatype CallName = ConfirmAppointment | RescheduleAppointment | CancelAppointment | OtherCall(id: nat)

  /** `signature` stands for the hash of the business inputs. */
  datatype Call = Call(name: CallName, signature: nat)

  predicate Mutating(c: Call) {
    !c.name.OtherCall?
  }

  /** What the orchestrator does with one message: commit, raise, or ask the agenda and continue
      with its answer. The orchestrator is a parameter: any plan is possible at every attempt. */
  datatype Plan = Finish | Fail | Ask(call: Call, next: int -> Plan)

  datatype Logged = Logged(call: Call, value: int)

  datatype Outcome = Commits(used: nat) | Defers(call: Call) | Raises

  /** DeferredAgendaService.call, over a whole turn, from log position `at`. */
  ghost function Attempt(plan: Plan, log: seq<Logged>, at: nat): Outcome
    requires at <= |log|
    decreases |log| - at
  {
    match plan
    case Finish => Commits(at)
    case Fail => Raises
    case Ask(call, next) =>
      if at == |log| then Defers(call)
      else if log[at].call != call then Raises
      else Attempt(next(log[at].value), log, at + 1)
  }

  /** The calls a plan makes when answered by `answers`, in order. */
  ghost function CallsMade(plan: Plan, answers: seq<int>): seq<Call>
    decreases |answers|
  {
    if plan.Ask? then
      [plan.call] + (if answers == [] then [] else CallsMade(plan.next(answers[0]), answers[1..]))
    else []
  }

  function Values(log: seq<Logged>): seq<int> {
    seq(|log|, i requires 0 <= i < |log| => log[i].value)
  }

  function Calls(log: seq<Logged>): seq<Call> {
    seq(|log|, i requires 0 <= i < |log| => log[i].call)
  }

  /** The committing attempt makes exactly the calls of a prefix of the log, in the same order, each
      answered by the value logged at its position; it makes no call of its own. */
  lemma {:induction false} CommitReplaysLog(plan: Plan, log: seq<Logged>, at: nat)
    requires at <= |log| && Attempt(plan, log, at).Commits?
    ensures at <= Attempt(plan, log, at).used <= |log|
    ensures CallsMade(plan, Values(log)[at..]) == Calls(log)[at..Attempt(plan, log, at).used]
    decreases |log| - at
  {
    match plan
    case Finish =>
    case Fail =>
    case Ask(call, next) =>
      CommitReplaysLog(next(log[at].value), log, at + 1);
      assert Values(log)[at..][1..] == Values(log)[at+1..];
      assert Calls(log)[at..Attempt(plan, log, at).used]
          == [Calls(log)[at]] + Calls(log)[at+1..Attempt(plan, log, at).used];
  }

  /** A log gathered by attempting one and the same plan: each entry answers the call that the plan,
      given the entries before it, deferred. */
  ghost predicate GatheredFrom(plan: Plan, log: seq<Logged>)
    decreases |log|
  {
    log == [] || (GatheredFrom(plan, log[..|log|-1])
                  && Attempt(plan, log[..|log|-1], 0) == Defers(log[|log|-1].call))
  }

  /** Extending the log by the deferred call leaves an attempt in the middle of its replay. */
  lemma {:induction false} AttemptAfterAnswer(plan: Plan, log: seq<Logged>, at: nat, answer: Logged)
    requires at <= |log| && Attempt(plan, log, at) == Defers(answer.call)
    ensures var o := Attempt(plan, log + [answer], at); o.Commits? ==> o.used == |log| + 1
    decreases |log| - at
  {
    var more := log + [answer];
    if at < |log| {
      assert more[at] == log[at];
      AttemptAfterAnswer(plan.next(log[at].value), log, at + 1, answer);
    } else {
      var rest := plan.next(answer.value);
      assert Attempt(plan, more, at) == Attempt(rest, more, at + 1);
    }
  }

  /** A replay that uses the whole log would have stopped, with any shorter log, at the next entry's call. */
  lemma {:induction false} ShorterLogDefers(plan: Plan, log: seq<Logged>, at: nat, k: nat)
    requires at <= k < |log| && Attempt(plan, log, at) == Commits(|log|)
    ensures Attempt(plan, log[..k], at) == Defers(log[k].call)
    decreases |log| - at
  {
    assert log[..k][..at] == log[..at];
    if at < k {
      assert log[..k][at] == log[at];
      ShorterLogDefers(plan.next(log[at].value), log, at + 1, k);
    }
  }

  lemma {:induction false} WholeLogIsGathered(plan: Plan, log: seq<Logged>, n: nat)
    requires n <= |log| && Attempt(plan, log, 0) == Commits(|log|)
    ensures GatheredFrom(plan, log[..n])
  {
    if n > 0 {
      WholeLogIsGathered(plan, log, n - 1);
      ShorterLogDefers(plan, log, 0, n - 1);
      assert log[..n][..n-1] == log[..n-1];
    }
  }

  /** A commit consumes the whole log exactly when the log was gathered by attempting the very plan that
      commits: each entry answers the call which that plan, given the entries before it, defers. Then the
      calls of the turn are the logged ones, all of them. */
  lemma CommitConsumesLogIff(plan: Plan, log: seq<Logged>)
    requires Attempt(plan, log, 0).Commits?
    ensures Attempt(plan, log, 0).used == |log| <==> GatheredFrom(plan, log)
    ensures GatheredFrom(plan, log) ==> CallsMade(plan, Values(log)) == Calls(log)
  {
    CommitReplaysLog(plan, log, 0);
    assert Values(log)[0..] == Values(log);
    assert Calls(log)[0..|log|] == Calls(log);
    if Attempt(plan, log, 0).used == |log| {
      WholeLogIsGathered(plan, log, |log|);
      assert log[..|log|] == log;
    }
    if GatheredFrom(plan, log) && log != [] {
      var front, last := log[..|log|-1], log[|log|-1];
      assert front + [last] == log;
      AttemptAfterAnswer(plan, front, 0, last);
    }
  }
}
