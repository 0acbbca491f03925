/** One undisturbed acquisition of an inbox job: a turn that asks the agenda at most eleven things is
    committed, with every question asked once and every answer used. This is the loop of process_claimed_inbox. */
module InboxPass {
  import opened Common
  import opened Inbox
  import opened Replay
  import opened InboxProtocol
  import opened InboxSafety
  import opened InboxProgress
  import Runs = InboxRuns

  /** The plan, answered so, asks exactly so often and then finishes. */
  ghost predicate Completes(plan: Plan, answers: seq<int>)
    decreases |answers|
  {
    if answers == [] then plan.Finish? else plan.Ask? && Completes(plan.next(answers[0]), answers[1..])
  }

  /** The n-th question. */
  ghost function Question(plan: Plan, answers: seq<int>, n: nat): Call
    requires Completes(plan, answers) && n < |answers|
    decreases n
  {
    if n == 0 then plan.call else Question(plan.next(answers[0]), answers[1..], n - 1)
  }

  /** The log after n answers. */
  ghost function LogOf(plan: Plan, answers: seq<int>, n: nat): (log: seq<Logged>)
    requires Completes(plan, answers) && n <= |answers|
    ensures |log| == n
    decreases n
  {
    if n == 0 then [] else [Logged(plan.call, answers[0])] + LogOf(plan.next(answers[0]), answers[1..], n - 1)
  }

  lemma {:induction false} LogGrows(plan: Plan, answers: seq<int>, n: nat)
    requires Completes(plan, answers) && n < |answers|
    ensures LogOf(plan, answers, n + 1) == LogOf(plan, answers, n) + [Logged(Question(plan, answers, n), answers[n])]
    decreases n
  {
    if n == 0 {
      assert LogOf(plan.next(answers[0]), answers[1..], 0) == [];
    } else {
      LogGrows(plan.next(answers[0]), answers[1..], n - 1);
    }
  }

  /** The whole log holds the calls of the plan, in order, and the answers. */
  lemma {:induction false} WholeLog(plan: Plan, answers: seq<int>)
    requires Completes(plan, answers)
    ensures Replay.Calls(LogOf(plan, answers, |answers|)) == CallsMade(plan, answers)
    ensures Values(LogOf(plan, answers, |answers|)) == answers
    decreases |answers|
  {
    if answers != [] {
      var rest, tail := plan.next(answers[0]), answers[1..];
      WholeLog(rest, tail);
      var log, more := LogOf(plan, answers, |answers|), LogOf(rest, tail, |tail|);
      assert log == [Logged(plan.call, answers[0])] + more;
      assert Replay.Calls(log) == [plan.call] + Replay.Calls(more);
      assert Values(log) == [answers[0]] + Values(more);
    }
  }

  lemma AttemptGoesOn(plan: Plan, log: seq<Logged>, at: nat)
    requires at < |log| && plan.Ask? && log[at].call == plan.call
    ensures Attempt(plan, log, at) == Attempt(plan.next(log[at].value), log, at + 1)
  {
  }

  /** Attempting the plan after n answers stops at the next question, and after all of them commits. */
  lemma {:induction false} NextQuestion(plan: Plan, answers: seq<int>, n: nat, before: seq<Logged>)
    requires Completes(plan, answers) && n <= |answers|
    ensures Attempt(plan, before + LogOf(plan, answers, n), |before|)
         == if n == |answers| then Commits(|before| + n) else Defers(Question(plan, answers, n))
    decreases n
  {
    var log := before + LogOf(plan, answers, n);
    if n > 0 {
      var rest, tail, first := plan.next(answers[0]), answers[1..], [Logged(plan.call, answers[0])];
      assert log == (before + first) + LogOf(rest, tail, n - 1);
      assert log[|before|] == first[0];
      AttemptGoesOn(plan, log, |before|);
      NextQuestion(rest, tail, n - 1, before + first);
    }
  }

  lemma AttemptFromStart(plan: Plan, answers: seq<int>, n: nat)
    requires Completes(plan, answers) && n <= |answers|
    ensures Attempt(plan, LogOf(plan, answers, n), 0)
         == if n == |answers| then Commits(n) else Defers(Question(plan, answers, n))
  {
    NextQuestion(plan, answers, n, []);
    assert [] + LogOf(plan, answers, n) == LogOf(plan, answers, n);
  }

  // ----- One round -----

  /** The worker stands before an attempt, with the job still its own and its conversation unchanged. */
  predicate AtWork(w: World, j: JobId, token: Unique, pc: Pc, log: seq<Logged>) {
    OwnsJob(w, token, j) && ContextKept(w, token) && w.workers[token].pc == pc && w.workers[token].log == log
  }

  /** Everything but this job's row, its worker and the record of events. */
  predicate Elsewhere(w: World, w': World, j: JobId, token: Unique) {
    && w'.convs == w.convs && w'.messages == w.messages && w'.events == w.events && w'.jobs.Keys == w.jobs.Keys
    && (forall k | k in w.jobs && k != j :: w'.jobs[k] == w.jobs[k])
    && w'.workers.Keys == w.workers.Keys && w'.issued == w.issued
    && forall t | t in w.workers && t != token :: w'.workers[t] == w.workers[t]
  }

  lemma Asks(w: World, s: Settings, j: JobId, token: Unique, plan: Plan, log: seq<Logged>, call: Call, now: int)
    requires AtWork(w, j, token, Ready, log) && Attempt(plan, log, 0) == Defers(call)
    ensures var step := Apply(token, plan, w.convs[w.workers[token].conv].ctx, now);
            && Enabled(w, s, step) && AtWork(Next(w, s, step), j, token, Wants(call), log)
            && Elsewhere(w, Next(w, s, step), j, token) && Next(w, s, step).hist == w.hist
            && Next(w, s, step).jobs == w.jobs
  {
    assert Next(w, s, Apply(token, plan, w.convs[w.workers[token].conv].ctx, now)) == MoveTo(w, token, Wants(call));
  }

  lemma Prepares(w: World, s: Settings, j: JobId, token: Unique, log: seq<Logged>, call: Call, now: int)
    requires AtWork(w, j, token, Wants(call), log)
    ensures Enabled(w, s, Prepare(token, now))
    ensures var w' := DoPrepare(w, s, token, call, now);
            && Next(w, s, Prepare(token, now)) == w' && AtWork(w', j, token, MayCall(call), log)
            && Elsewhere(w, w', j, token) && w'.hist == w.hist
            && w'.jobs[j].externalOp == (w.jobs[j].externalOp || Mutating(call))
  {
  }

  lemma Calls(w: World, s: Settings, j: JobId, token: Unique, log: seq<Logged>, call: Call, answer: int)
    requires AtWork(w, j, token, MayCall(call), log)
    ensures Enabled(w, s, CallAgenda(token, Some(answer)))
    ensures var w' := DoCall(w, token, call, Some(answer));
            && Next(w, s, CallAgenda(token, Some(answer))) == w' && AtWork(w', j, token, Has(call, answer), log)
            && Elsewhere(w, w', j, token) && w'.jobs == w.jobs
            && w'.hist[Called(token, |log|)] == w.hist[Called(token, |log|)] + 1
            && w'.hist[Applied(j)] == w.hist[Applied(j)]
            && forall p | p != |log| :: w'.hist[Called(token, p)] == w.hist[Called(token, p)]
  {
  }

  /** The twelfth answer is logged too, but the attempt after it is not made. */
  lemma Records(w: World, s: Settings, j: JobId, token: Unique, log: seq<Logged>, call: Call, answer: int)
    requires AtWork(w, j, token, Has(call, answer), log)
    ensures Enabled(w, s, Record(token))
    ensures var w' := DoRecord(w, token, call, answer);
            && Next(w, s, Record(token)) == w'
            && AtWork(w', j, token, if |log| < 11 then Ready else Failing, log + [Logged(call, answer)])
            && Elsewhere(w, w', j, token) && w'.hist == w.hist && w'.jobs == w.jobs
  {
  }

  /** What a round adds: one call at the position that the log had reached. */
  ghost predicate OneCall(w: World, w': World, j: JobId, token: Unique, n: nat) {
    && Elsewhere(w, w', j, token)
    && w'.hist[Applied(j)] == w.hist[Applied(j)] && w'.hist[Called(token, n)] == w.hist[Called(token, n)] + 1
    && forall p | p != n :: w'.hist[Called(token, p)] == w.hist[Called(token, p)]
  }

  /** A deferred question, prepared, asked, answered and logged. */
  lemma Round(w: World, s: Settings, j: JobId, token: Unique, plan: Plan, log: seq<Logged>, call: Call, answer: int,
              now: int)
    returns (steps: seq<Step>, w': World)
    requires AtWork(w, j, token, Ready, log) && Attempt(plan, log, 0) == Defers(call)
    ensures Leads(s, w, steps, w') && OneCall(w, w', j, token, |log|)
    ensures AtWork(w', j, token, if |log| < 11 then Ready else Failing, log + [Logged(call, answer)])
  {
    var ask := Apply(token, plan, w.convs[w.workers[token].conv].ctx, now);
    Asks(w, s, j, token, plan, log, call, now);
    var w1 := Next(w, s, ask);
    var more;
    more, w' := AfterAsking(w1, s, j, token, log, call, answer, now);
    Prepend(s, w, ask, more, w');
    steps := [ask] + more;
  }

  lemma AfterAsking(w: World, s: Settings, j: JobId, token: Unique, log: seq<Logged>, call: Call, answer: int, now: int)
    returns (steps: seq<Step>, w': World)
    requires AtWork(w, j, token, Wants(call), log)
    ensures Leads(s, w, steps, w') && OneCall(w, w', j, token, |log|)
    ensures AtWork(w', j, token, if |log| < 11 then Ready else Failing, log + [Logged(call, answer)])
  {
    Prepares(w, s, j, token, log, call, now);
    var w1 := DoPrepare(w, s, token, call, now);
    Calls(w1, s, j, token, log, call, answer);
    var w2 := DoCall(w1, token, call, Some(answer));
    Records(w2, s, j, token, log, call, answer);
    w' := DoRecord(w2, token, call, answer);
    Prepend(s, w2, Record(token), [], w');
    Prepend(s, w1, CallAgenda(token, Some(answer)), [Record(token)], w');
    steps := [CallAgenda(token, Some(answer))] + [Record(token)];
    Prepend(s, w, Prepare(token, now), steps, w');
    steps := [Prepare(token, now)] + steps;
  }

  // ----- The whole turn -----

  /** So many rounds from the beginning: every position up to there was called once more. */
  ghost predicate Rounds(w: World, w': World, j: JobId, token: Unique, n: nat) {
    && Elsewhere(w, w', j, token) && w'.hist[Applied(j)] == w.hist[Applied(j)]
    && forall p: nat :: w'.hist[Called(token, p)] == w.hist[Called(token, p)] + (if p < n then 1 else 0)
  }

  lemma {:induction false} AskedSoFar(
    w: World, s: Settings, j: JobId, token: Unique, plan: Plan, answers: seq<int>, n: nat, now: int)
    returns (steps: seq<Step>, w': World)
    requires AtWork(w, j, token, Ready, []) && Completes(plan, answers) && n <= |answers| && n <= 12
    ensures Leads(s, w, steps, w') && Rounds(w, w', j, token, n)
    ensures AtWork(w', j, token, if n < 12 then Ready else Failing, LogOf(plan, answers, n))
  {
    if n == 0 {
      steps, w' := [], w;
    } else {
      var first, v := AskedSoFar(w, s, j, token, plan, answers, n - 1, now);
      AttemptFromStart(plan, answers, n - 1);
      LogGrows(plan, answers, n - 1);
      var second;
      second, w' := Round(v, s, j, token, plan, LogOf(plan, answers, n - 1), Question(plan, answers, n - 1),
                          answers[n-1], now);
      Chain(s, w, first, v, second, w');
      steps := first + second;
    }
  }

  /** A turn that asks at most eleven things is committed by one undisturbed acquisition: every question is
      asked once, and the answers take the turn where its plan leads. */
  lemma TurnIsCommitted(w: World, s: Settings, j: JobId, token: Unique, plan: Plan, answers: seq<int>, after: Context,
                        now: int)
    returns (steps: seq<Step>, v: World)
    requires AtWork(w, j, token, Ready, []) && Completes(plan, answers) && |answers| <= 11
    ensures Leads(s, w, steps, v) && Rounds(w, v, j, token, |answers|)
    ensures Enabled(v, s, Apply(token, plan, after, now)) && Runs.Commits(v, Apply(token, plan, after, now), j)
    ensures Replay.Calls(v.workers[token].log) == CallsMade(plan, answers) && Values(v.workers[token].log) == answers
  {
    steps, v := AskedSoFar(w, s, j, token, plan, answers, |answers|, now);
    AttemptFromStart(plan, answers, |answers|);
    WholeLog(plan, answers);
  }

  /** One that asks a twelfth thing is not: the attempt ends as a failure, after twelve questions. */
  lemma TwelfthQuestionFails(w: World, s: Settings, j: JobId, token: Unique, plan: Plan, answers: seq<int>, now: int)
    returns (steps: seq<Step>, v: World)
    requires AtWork(w, j, token, Ready, []) && Completes(plan, answers) && |answers| >= 12
    ensures Leads(s, w, steps, v) && Rounds(w, v, j, token, 12)
    ensures v.workers.Keys == w.workers.Keys && v.workers[token].pc == Failing && OwnsJob(v, token, j)
    ensures Enabled(v, s, SettleFailure(token, now))
  {
    steps, v := AskedSoFar(w, s, j, token, plan, answers, 12, now);
  }
}
