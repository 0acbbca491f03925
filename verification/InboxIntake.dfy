/** Where an incoming message ends up, and what becomes of the event that brought it
    (app/channel/inbound.py, app/channel/inbox.py). */
module InboxIntake {
  import opened Common
  import Ownership
  import opened Inbox
  import opened InboxProtocol
  import opened InboxSafety
  import opened InboxRuns

  // ----- One message -----

  predicate Known(w: World, x: ExternalId) {
    exists m | m in w.messages :: w.messages[m].external == x
  }

  /** A conversation of the customer that still takes messages. */
  predicate Takes(w: World, phone: Phone, c: ConvId) {
    && c in w.convs && w.convs[c].customer == phone
    && w.convs[c].ctx.state != Ownership.Resolved && w.convs[c].ctx.state != Ownership.Closed
  }

  predicate JobFor(w: World, x: ExternalId, j: JobId) {
    j in w.jobs && w.jobs[j].message in w.messages && w.messages[w.jobs[j].message].external == x
  }

  ghost predicate Jobless(w: World, x: ExternalId) {
    forall j :: !JobFor(w, x, j)
  }

  /** A message seen before is refused, with the whole payload, exactly when it was not received from this very
      customer. Otherwise it is not stored twice: with a job nothing changes, without one it gets a job that
      waits for review. */
  lemma RedeliveryOutcome(w: World, s: Settings, item: Incoming, pick: Pick, m: MsgId)
    requires Inv(w, s) && PickOk(w, item, pick) && !pick.staff && m in w.messages
    requires w.messages[m].external == item.external
    ensures PersistOne(w, item, pick).None? <==> !w.messages[m].inbound || w.messages[m].customer != item.phone
    ensures PersistOne(w, item, pick).Some? ==>
              var w' := PersistOne(w, item, pick).value;
              if Jobless(w, item.external)
              then pick.job in w'.jobs && w' == w.(jobs := w.jobs[pick.job := w'.jobs[pick.job]])
                   && w'.jobs[pick.job].message == m && w'.jobs[pick.job].conv == w.messages[m].conv
                   && w'.jobs[pick.job].status == Review && w'.jobs[pick.job].origin == Legacy
              else w' == w
  {
    assert HasMessage(w, item.external, m);
    forall n | HasMessage(w, item.external, n) ensures n == m { assert OneMessage(w, n, m); }
    JobsOfMessage(w, item.external, m);
    assert Jobless(w, item.external) <==> forall j :: !HasJob(w, m, j);
  }

  lemma JobsOfMessage(w: World, x: ExternalId, m: MsgId)
    requires RowsOk(w) && HasMessage(w, x, m)
    ensures forall j :: JobFor(w, x, j) <==> HasJob(w, m, j)
  {
    forall j ensures JobFor(w, x, j) <==> HasJob(w, m, j) {
      if j in w.jobs { assert OneMessage(w, w.jobs[j].message, m); }
    }
  }

  /** A message that the outbox sent and stored is refused when it comes back as an incoming one. */
  lemma EchoIsRefused(w: World, s: Settings, msg: MsgId, conv: ConvId, item: Incoming, pick: Pick)
    requires Inv(w, s) && Enabled(w, s, RecordOutbound(msg, item.external, conv)) && !pick.staff
    requires PickOk(Next(w, s, RecordOutbound(msg, item.external, conv)), item, pick)
    ensures PersistOne(Next(w, s, RecordOutbound(msg, item.external, conv)), item, pick).None?
  {
    var w' := DoRecordOutbound(w, msg, item.external, conv);
    OutboundInv(w, s, msg, item.external, conv);
    RedeliveryOutcome(w', s, item, pick, msg);
  }

  /** A new message is stored once, in the newest conversation of its customer that takes messages, and in a new
      one exactly when there is none; its job is new work, pending, due, and behind all of that customer's. */
  lemma MessageLands(w: World, s: Settings, item: Incoming, pick: Pick) returns (c: ConvId)
    requires Inv(w, s) && PickOk(w, item, pick) && !pick.staff && !Known(w, item.external)
    ensures PersistOne(w, item, pick).Some?
    ensures var w' := PersistOne(w, item, pick).value;
            && w'.messages == w.messages[pick.msg := Message(item.external, c, item.phone, true)]
            && w'.jobs == w.jobs[pick.job := Job(pick.msg, c, Pending, NewWork, 0, None, None, None, false, NoCause)]
            && w'.events == w.events && w'.hist == w.hist && w'.workers == w.workers
            && (if exists d :: Takes(w, item.phone, d)
                then w'.convs == w.convs && Takes(w, item.phone, c) && forall d: ConvId | Takes(w, item.phone, d) :: d <= c
                else c !in w.convs && w'.convs == w.convs[c := Conv(item.phone, pick.ctx)])
    ensures forall j | j in w.jobs && w.jobs[j].conv == c :: j < pick.job
  {
    forall m ensures !HasMessage(w, item.external, m) { }
    if exists d :: Takes(w, item.phone, d) {
      var d :| Takes(w, item.phone, d);
      var newest := NewestOf(w, item.phone, d, w.convs.Keys);
      assert NewestActive(w, item.phone, newest);
      forall e | NewestActive(w, item.phone, e) ensures e == newest { }
      forall e: ConvId | Takes(w, item.phone, e) ensures e <= newest { assert ActiveConversation(w, item.phone, e); }
      c := newest;
    } else {
      forall d: ConvId ensures !NewestActive(w, item.phone, d) { assert !Takes(w, item.phone, d); }
      c := pick.conv;
      forall j | j in w.jobs ensures w.jobs[j].conv != c { assert JobOk(w, j); }
    }
  }

  /** The newest of these conversations, no older than the one given. */
  lemma {:induction false} NewestOf(w: World, phone: Phone, d: ConvId, among: set<ConvId>) returns (c: ConvId)
    requires Takes(w, phone, d) && forall e: ConvId | Takes(w, phone, e) && d < e :: e in among
    ensures ActiveConversation(w, phone, c) && d <= c
    ensures forall e: ConvId | ActiveConversation(w, phone, e) :: e <= c
    decreases among
  {
    if e :| e in among && d < e && Takes(w, phone, e) {
      c := NewestOf(w, phone, e, among - {e});
    } else {
      c := d;
      forall e: ConvId | ActiveConversation(w, phone, e) ensures e <= c { assert Takes(w, phone, e); }
    }
  }

  // ----- The event -----

  /** Whether an event is expanded now. */
  predicate Expands(e: Event, now: int) {
    e.versionTwo && (e.status == Received || e.status == IngestFailed)
    && (e.nextAttempt.None? || e.nextAttempt.value <= now)
  }

  lemma FailedIngestOutcome(e: Event, now: int, s: Settings) returns (delay: nat)
    ensures delay <= s.maxBackoff && (s.maxBackoff > 0 ==> delay > 0)
    ensures e.ingestAttempts == 0 && s.maxBackoff >= 2 ==> delay == 2
    ensures var e' := FailedIngest(e, now, s);
            && e'.payload == e.payload && e'.ingestAttempts == e.ingestAttempts + 1 && e'.versionTwo == e.versionTwo
            && e'.nextAttempt == Some(now + delay)
            && e'.status == if e.ingestAttempts + 1 >= s.maxAttempts then Exhausted else IngestFailed
  {
    delay := Backoff(e.ingestAttempts + 1, s.maxBackoff);
    BackoffDoubles(e.ingestAttempts, s.maxBackoff);
    BackoffDoubles(e.ingestAttempts + 1, s.maxBackoff);
  }

  /** An event that is expanded becomes PREPARED when its payload was stored. Otherwise nothing is stored and
      the failure counts: at the limit the event is EXHAUSTED, below it it is expanded again from `delay`
      seconds on, and not before. An unproven event goes to REVIEW; any other event is left alone. */
  lemma ExpansionOutcome(w: World, s: Settings, id: EventId, now: int, picks: seq<Pick>, fault: bool)
    returns (delay: nat)
    requires id in w.events && |picks| == |w.events[id].payload|
    ensures delay <= s.maxBackoff && (s.maxBackoff > 0 ==> delay > 0)
    ensures w.events[id].ingestAttempts == 0 && s.maxBackoff >= 2 ==> delay == 2
    ensures var e, w' := w.events[id], DoExpand(w, s, id, now, picks, fault);
            && id in w'.events && w'.events[id].payload == e.payload
            && (if !Expands(e, now)
                then w' == (if !e.versionTwo && e.status != Processed && e.status != Exhausted
                            then w.(events := w.events[id := e.(status := EventReview)]) else w)
                else if !fault && PersistAll(w, e.payload, picks).Some?
                then w'.events[id].status == Prepared && w'.events[id].ingestAttempts == e.ingestAttempts
                else w' == w.(events := w.events[id := w'.events[id]])
                     && w'.events[id].ingestAttempts == e.ingestAttempts + 1
                     && (if e.ingestAttempts + 1 >= s.maxAttempts then w'.events[id].status == Exhausted
                         else forall t :: Expands(w'.events[id], t) <==> now + delay <= t))
  {
    var e := w.events[id];
    delay := FailedIngestOutcome(e, now, s);
    if !e.versionTwo && e.status == EventReview {
      assert w.events[id := e.(status := EventReview)] == w.events;
    }
  }

  /** Adoption takes exactly legacy events that never were expanded and none of whose messages is stored; from
      then on they are expanded like any other, at once. */
  lemma AdoptionStartsIntake(w: World, s: Settings, id: EventId)
    requires id in w.events
    ensures Enabled(w, s, Adopt(id)) <==>
              && !w.events[id].versionTwo && (w.events[id].status == Received || w.events[id].status == IngestFailed)
              && forall i | 0 <= i < |w.events[id].payload| :: !Known(w, w.events[id].payload[i].external)
    ensures Enabled(w, s, Adopt(id)) ==>
              var w' := Next(w, s, Adopt(id));
              && w' == w.(events := w.events[id := w'.events[id]]) && w'.events[id].payload == w.events[id].payload
              && forall t :: Expands(w'.events[id], t)
  {
  }

  ghost predicate Has(w: World, x: ExternalId, status: JobStatus) {
    exists j :: JobFor(w, x, j) && w.jobs[j].status == status
  }

  ghost predicate AllIn(w: World, ids: set<ExternalId>, status: JobStatus) {
    forall x | x in ids :: Has(w, x, status)
  }

  ghost predicate SomeIn(w: World, ids: set<ExternalId>, status: JobStatus) {
    exists x | x in ids :: Has(w, x, status)
  }

  /** A prepared event follows its messages: a message without a job sends it to REVIEW; else it is PROCESSED
      when all are COMPLETED, in REVIEW when one is, EXHAUSTED when one has FAILED, and waits otherwise. */
  ghost function Following(w: World, ids: set<ExternalId>): EventStatus {
    if exists x :: x in ids && Jobless(w, x) then EventReview
    else if AllIn(w, ids, Completed) then Processed
    else if SomeIn(w, ids, Review) then EventReview
    else if SomeIn(w, ids, Failed) then Exhausted
    else Prepared
  }

  lemma RefreshFollows(w: World, e: Event)
    requires RowsOk(w)
    ensures RefreshedStatus(w, e) == Following(w, Externals(e.payload))
  {
    var ids := Externals(e.payload);
    CountsAgree(w, ids);
    if forall x | x in ids :: !Jobless(w, x) { JobsFollow(w, e); }
  }

  lemma JobsFollow(w: World, e: Event)
    requires RowsOk(w) && forall x | x in Externals(e.payload) :: !Jobless(w, x)
    requires |JobsOf(w, Externals(e.payload))| == |Externals(e.payload)|
    ensures RefreshedStatus(w, e) == Following(w, Externals(e.payload))
  {
    var ids := Externals(e.payload);
    AllHave(w, ids, Completed);
    if !AllIn(w, ids, Completed) { UnfinishedFollow(w, e); }
  }

  lemma UnfinishedFollow(w: World, e: Event)
    requires |JobsOf(w, Externals(e.payload))| == |Externals(e.payload)|
    requires exists j :: j in JobsOf(w, Externals(e.payload)) && w.jobs[j].status != Completed
    ensures RefreshedStatus(w, e) ==
              if SomeIn(w, Externals(e.payload), Review) then EventReview
              else if SomeIn(w, Externals(e.payload), Failed) then Exhausted
              else Prepared
  {
    SomeHas(w, Externals(e.payload), Review);
    SomeHas(w, Externals(e.payload), Failed);
  }

  /** Only the status of a PREPARED event changes. */
  lemma RefreshOutcome(w: World, s: Settings, id: EventId)
    requires Inv(w, s) && id in w.events
    ensures DoRefresh(w, id) ==
              if w.events[id].status != Prepared then w
              else w.(events := w.events[id :=
                        w.events[id].(status := Following(w, Externals(w.events[id].payload)))])
  {
    RefreshFollows(w, w.events[id]);
  }

  lemma SomeHas(w: World, ids: set<ExternalId>, status: JobStatus)
    ensures (exists j :: j in JobsOf(w, ids) && w.jobs[j].status == status) <==> SomeIn(w, ids, status)
  {
    if j :| j in JobsOf(w, ids) && w.jobs[j].status == status {
      assert JobFor(w, w.messages[w.jobs[j].message].external, j);
    }
  }

  lemma AllHave(w: World, ids: set<ExternalId>, status: JobStatus)
    requires RowsOk(w) && forall x | x in ids :: !Jobless(w, x)
    ensures (forall j :: j in JobsOf(w, ids) ==> w.jobs[j].status == status) <==> AllIn(w, ids, status)
  {
    OnlyJob(w);
    if forall j :: j in JobsOf(w, ids) ==> w.jobs[j].status == status {
      forall x | x in ids ensures Has(w, x, status) {
        var j :| JobFor(w, x, j);
        assert j in JobsOf(w, ids);
      }
    }
    if AllIn(w, ids, status) {
      forall j | j in JobsOf(w, ids) ensures w.jobs[j].status == status {
        var x := w.messages[w.jobs[j].message].external;
        assert JobFor(w, x, j) && Has(w, x, status);
      }
    }
  }

  lemma OnlyJob(w: World)
    requires RowsOk(w)
    ensures forall x, j, k | JobFor(w, x, j) && JobFor(w, x, k) :: j == k
  {
    forall x, j, k | JobFor(w, x, j) && JobFor(w, x, k) ensures j == k {
      assert OneMessage(w, w.jobs[j].message, w.jobs[k].message) && OneJob(w, j, k);
    }
  }

  lemma CountsAgree(w: World, ids: set<ExternalId>)
    requires RowsOk(w)
    ensures |JobsOf(w, ids)| == |ids| <==> forall x | x in ids :: !Jobless(w, x)
  {
    var jobs := JobsOf(w, ids);
    if |jobs| == |ids| {
      EveryIdHasItsJob(w, ids);
      forall x | x in ids ensures !Jobless(w, x) {
        var j :| j in jobs && w.messages[w.jobs[j].message].external == x;
        assert JobFor(w, x, j);
      }
    }
    if forall x | x in ids :: !Jobless(w, x) {
      OnlyJob(w);
      forall j, k | j in jobs && k in jobs
                    && w.messages[w.jobs[j].message].external == w.messages[w.jobs[k].message].external ensures j == k
      {
        assert JobFor(w, w.messages[w.jobs[j].message].external, j) && JobFor(w, w.messages[w.jobs[j].message].external, k);
      }
      ImageSize(w, jobs);
      forall x | x in ids ensures exists j :: j in jobs && w.messages[w.jobs[j].message].external == x {
        var j :| JobFor(w, x, j);
        assert j in jobs;
      }
      assert (set j | j in jobs :: w.messages[w.jobs[j].message].external) == ids;
    }
  }
}
