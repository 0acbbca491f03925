/** A run in which an agenda call takes effect, its result is logged, and the next attempt commits without
    ever asking for it: a commit need not consume its log. */
module InboxExample {
  import opened Common
  import Ownership
  import opened Inbox
  import opened Replay
  import opened InboxProtocol

  ghost predicate Reachable(s: Settings, w: World) {
    exists worlds, steps :: IsRun(s, worlds, steps) && worlds[|steps|] == w
  }

  lemma Go(s: Settings, w: World, step: Step)
    requires Reachable(s, w) && Enabled(w, s, step)
    ensures Reachable(s, Next(w, s, step))
  {
    var worlds, steps :| IsRun(s, worlds, steps) && worlds[|steps|] == w;
    var worlds', steps' := worlds + [Next(w, s, step)], steps + [step];
    forall i | 0 <= i < |steps'| ensures StepAt(s, worlds', steps', i) {
      if i < |steps| { assert StepAt(s, worlds, steps, i); }
    }
    assert IsRun(s, worlds', steps') && worlds'[|steps'|] == Next(w, s, step);
  }

  const Calm: Context := Context(Ownership.BotActive, true, 0)
  const Hello: Incoming := Incoming(0, 0)

  /** One conversation, one stored message, and its job. */
  predicate Stored(w: World, job: Job) {
    && w.convs == map[0 := Conv(0, Calm)] && w.jobs == map[0 := job] && job.message == 0 && job.conv == 0
    && w.supply == 0 && w.workers == map[] && w.hist == multiset{}
  }

  lemma Arrive(s: Settings) returns (w: World)
    ensures Reachable(s, w) && Stored(w, NewJob(0, 0))
  {
    var w0 := World(map[0 := Conv(0, Calm)], map[], map[], map[], 0, map[], map[], map[], multiset{});
    assert IsRun(s, [w0], []) && [w0][0] == w0;
    Go(s, w0, Store(0, [Hello]));
    var w1 := SetEvent(w0, 0, Event([Hello], Received, true, 0, None));
    var pick := Pick(false, 0, 0, 1, Calm);
    w := Expanded(s, w1, pick);
  }

  lemma Expanded(s: Settings, w1: World, pick: Pick) returns (w: World)
    requires Reachable(s, w1) && w1.convs == map[0 := Conv(0, Calm)] && w1.jobs == map[] && w1.messages == map[]
    requires w1.events == map[0 := Event([Hello], Received, true, 0, None)] && w1.supply == 0
    requires w1.workers == map[] && w1.hist == multiset{} && pick == Pick(false, 0, 0, 1, Calm)
    ensures Reachable(s, w) && Stored(w, NewJob(0, 0))
  {
    assert NewestActive(w1, 0, 0);
    assert forall c :: NewestActive(w1, 0, c) ==> c == 0;
    assert forall m :: !HasMessage(w1, 0, m);
    var stored := InsertMessage(w1, Hello, pick, 0);
    assert PersistOne(w1, Hello, pick) == Some(stored);
    assert [Hello][1..] == [] && [pick][1..] == [];
    assert PicksOk(stored, [], []) && PicksOk(w1, [Hello], [pick]);
    assert PersistAll(stored, [], []) == Some(stored);
    assert PersistAll(w1, [Hello], [pick]) == Some(stored);
    Go(s, w1, Expand(0, 0, [pick], false));
    w := DoExpand(w1, s, 0, 0, [pick], false);
  }

  /** The one worker, with its job. */
  predicate At(w: World, job: Job, log: seq<Logged>, pc: Pc) {
    && w.convs == map[0 := Conv(0, Calm)] && w.jobs == map[0 := job] && job.conv == 0
    && Active(job) && job.token == Some(0)
    && w.workers == map[0 := Worker(0, 0, Calm, log, pc)]
  }

  lemma Take(s: Settings, w: World) returns (w': World)
    requires Reachable(s, w) && Stored(w, NewJob(0, 0))
    ensures Reachable(s, w') && At(w', Claimed(NewJob(0, 0), 0, 0), [], Ready) && w'.hist == multiset{Acquired(0)}
  {
    Go(s, w, Claim(0, 0, 0, None));
    w' := DoClaim(w, 0, 0, 0);
  }

  lemma Deferred(s: Settings, w: World, job: Job, call: Call, next: int -> Plan) returns (w': World)
    requires Reachable(s, w) && At(w, job, [], Ready)
    ensures Reachable(s, w') && At(w', job, [], Wants(call)) && w'.hist == w.hist
  {
    assert Attempt(Ask(call, next), [], 0) == Defers(call);
    Go(s, w, Apply(0, Ask(call, next), Calm, 0));
    w' := MoveTo(w, 0, Wants(call));
  }

  function Opened(job: Job): Job {
    job.(status := External, externalOp := true)
  }

  lemma Prepared(s: Settings, w: World, job: Job, call: Call) returns (w': World)
    requires Reachable(s, w) && At(w, job, [], Wants(call)) && Mutating(call)
    ensures Reachable(s, w') && At(w', Opened(job), [], MayCall(call)) && w'.hist == w.hist
  {
    Go(s, w, Prepare(0, 0));
    w' := DoPrepare(w, s, 0, call, 0);
  }

  lemma Answered(s: Settings, w: World, job: Job, call: Call, answer: int) returns (w': World)
    requires Reachable(s, w) && At(w, job, [], MayCall(call)) && Mutating(call)
    ensures Reachable(s, w') && At(w', job, [], Has(call, answer))
    ensures w'.hist == w.hist + (multiset{Called(0, 0)} + multiset{Mutated(0, 0)})
  {
    Go(s, w, CallAgenda(0, Some(answer)));
    w' := DoCall(w, 0, call, Some(answer));
  }

  lemma Remembered(s: Settings, w: World, job: Job, call: Call, answer: int) returns (w': World)
    requires Reachable(s, w) && At(w, job, [], Has(call, answer))
    ensures Reachable(s, w') && At(w', job, [Logged(call, answer)], Ready) && w'.hist == w.hist
  {
    assert [] + [Logged(call, answer)] == [Logged(call, answer)];
    assert Owns(w, 0);
    Go(s, w, Record(0));
    w' := DoRecord(w, 0, call, answer);
  }

  lemma Committed(s: Settings, w: World, job: Job, log: seq<Logged>) returns (w': World)
    requires Reachable(s, w) && At(w, job, log, Ready)
    ensures Enabled(w, s, Apply(0, Finish, Calm, 0)) && w' == Next(w, s, Apply(0, Finish, Calm, 0))
    ensures Reachable(s, w') && 0 in w'.jobs && w'.jobs[0].status == Completed
    ensures w'.hist == w.hist + multiset{Applied(0)}
  {
    Go(s, w, Apply(0, Finish, Calm, 0));
    w' := CommitTurn(w, 0, Calm);
  }

  /** The first attempt: its call is made, answered and logged. */
  lemma FirstAttempt(s: Settings, call: Call, next: int -> Plan, answer: int) returns (w: World, job: Job)
    requires Mutating(call)
    ensures Reachable(s, w) && At(w, job, [Logged(call, answer)], Ready)
    ensures w.hist[Mutated(0, 0)] == 1 && w.hist[Applied(0)] == 0
  {
    var w0 := Arrive(s);
    var w1 := Take(s, w0);
    job := Claimed(NewJob(0, 0), 0, 0);
    var w2 := Deferred(s, w1, job, call, next);
    var w3 := Prepared(s, w2, job, call);
    job := Opened(job);
    var w4 := Answered(s, w3, job, call, answer);
    w := Remembered(s, w4, job, call, answer);
  }

  /** Whatever the agenda was asked for and answered, the next attempt may ask for nothing and commit: the
      job is COMPLETED, its turn applied once, and the call that was made belongs to no plan that committed. */
  lemma CommitLeavesResultUnused(s: Settings, call: Call, next: int -> Plan, answer: int) returns (w: World, w': World)
    requires Mutating(call)
    ensures Reachable(s, w) && Enabled(w, s, Apply(0, Finish, Calm, 0)) && w' == Next(w, s, Apply(0, Finish, Calm, 0))
    ensures Reachable(s, w') && 0 in w'.jobs && w'.jobs[0].status == Completed && w'.hist[Applied(0)] == 1
    ensures w'.hist[Mutated(0, 0)] == 1 && CallsMade(Finish, [answer]) == []
    ensures 0 in w.workers && w.workers[0].log == [Logged(call, answer)]
    ensures Attempt(Finish, [Logged(call, answer)], 0) == Commits(0) && !GatheredFrom(Finish, [Logged(call, answer)])
  {
    var job;
    w, job := FirstAttempt(s, call, next, answer);
    w' := Committed(s, w, job, [Logged(call, answer)]);
    CommitConsumesLogIff(Finish, [Logged(call, answer)]);
  }
}
