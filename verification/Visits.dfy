/** Visit appointments against a calendar that may fail (app/appointment/service.py, with the calendar
    of app/calendar/adapter.py whose failures can be injected). */
module Visits {
  import opened Common

  type Day = int
  type Minutes = nat
  type EventId = nat

  /** The event id is the hexadecimal form of the appointment id, so one number stands for both. */
  type ApptId = nat

  const DayMinutes: nat := 1440
  const VisitMinutes: nat := 45

  /** calculate_visit_end_time: clock arithmetic, which wraps at midnight. */
  function EndTime(start: Minutes): Minutes {
    (start + VisitMinutes) % DayMinutes
  }

  predicate AllowedStart(start: Minutes) {
    start == 480 || start == 540 || start == 600 || start == 660
  }

  function Moment(day: Day, time: Minutes): int {
    day * DayMinutes + time
  }

  /** A visit's event: it starts at the slot and ends 45 minutes later. */
  datatype Event = Event(start: int, end: int, text: string)

  predicate IsVisitAt(e: Event, day: Day, start: Minutes) {
    e.start == Moment(day, start) && e.end == e.start + VisitMinutes
  }

  function VisitEvent(day: Day, start: Minutes, text: string): Event {
    Event(Moment(day, start), Moment(day, EndTime(start)), text)
  }

  lemma VisitEventIsRight(day: Day, start: Minutes, text: string)
    requires AllowedStart(start)
    ensures IsVisitAt(VisitEvent(day, start, text), day, start)
  {
  }

  /** The same in minutes: visits start at eight, nine, ten or eleven and last 45 minutes. */
  lemma VisitTimes(day: Day, start: Minutes, text: string)
    ensures AllowedStart(start) <==> start == 8 * 60 || start == 9 * 60 || start == 10 * 60 || start == 11 * 60
    ensures AllowedStart(start) ==>
              VisitEvent(day, start, text) == Event(1440 * day + start, 1440 * day + start + 45, text)
  {
  }

  datatype CallResult = Done | AlreadyExists | NotFound | Unavailable

  // ----- The calendar -----

  class FakeCalendar {
    var events: map<EventId, Event>
    var failCreate: bool
    var failUpdate: bool
    var failDelete: bool
    var timeoutAfterCreate: bool
    var failUpdateOnce: bool

    constructor (failCreate: bool, failUpdate: bool, failDelete: bool, timeoutAfterCreate: bool, failUpdateOnce: bool)
      ensures events == map[] && this.failCreate == failCreate && this.failUpdate == failUpdate
      ensures this.failDelete == failDelete && this.timeoutAfterCreate == timeoutAfterCreate
      ensures this.failUpdateOnce == failUpdateOnce
    {
      this.events := map[];
      this.failCreate, this.failUpdate, this.failDelete := failCreate, failUpdate, failDelete;
      this.timeoutAfterCreate, this.failUpdateOnce := timeoutAfterCreate, failUpdateOnce;
    }

    /** No failure is injected anew; creation recovers only if it is said to. */
    twostate predicate NoWorse(recovers: bool)
      reads this
    {
      && failUpdate == old(failUpdate) && failDelete == old(failDelete)
      && (failCreate ==> old(failCreate)) && (!recovers ==> failCreate == old(failCreate))
      && (timeoutAfterCreate ==> old(timeoutAfterCreate)) && (failUpdateOnce ==> old(failUpdateOnce))
    }

    /** A failing call may have taken effect. */
    method CreateEvent(id: EventId, e: Event) returns (r: CallResult)
      modifies this`events, this`timeoutAfterCreate
      ensures r == if id in old(events) then AlreadyExists
                   else if failCreate || old(timeoutAfterCreate) then Unavailable else Done
      ensures events == if r == AlreadyExists || failCreate then old(events) else old(events)[id := e]
      ensures timeoutAfterCreate == (old(timeoutAfterCreate) && (r == AlreadyExists || failCreate))
    {
      if id in events {
        return AlreadyExists;
      }
      if failCreate {
        return Unavailable;
      }
      events := events[id := e];
      if timeoutAfterCreate {
        timeoutAfterCreate := false;
        return Unavailable;
      }
      return Done;
    }

    method UpdateEvent(id: EventId, e: Event) returns (r: CallResult)
      modifies this`events, this`failUpdateOnce
      ensures r == if old(failUpdateOnce) || failUpdate then Unavailable
                   else if id in old(events) then Done else NotFound
      ensures events == if r == Done then old(events)[id := e] else old(events)
      ensures !failUpdateOnce
    {
      var failNow := failUpdateOnce;
      failUpdateOnce := false;
      if failNow {
        return Unavailable;
      }
      if failUpdate {
        return Unavailable;
      }
      if id !in events {
        return NotFound;
      }
      events := events[id := e];
      return Done;
    }

    method DeleteEvent(id: EventId) returns (r: CallResult)
      modifies this`events
      ensures r == if failDelete then Unavailable else if id in old(events) then Done else NotFound
      ensures events == if r == Done then old(events) - {id} else old(events)
    {
      if failDelete {
        return Unavailable;
      }
      if id !in events {
        return NotFound;
      }
      events := events - {id};
      return Done;
    }
  }

  // ----- Appointments -----

  datatype Status = PendingConfirmation | Confirmed | Rescheduled | Cancelled | LateCancel | Completed | NoShow

  datatype Appointment = Appointment(
    day: Day, start: Minutes, end: Minutes, attendees: nat, status: Status, external: Option<EventId>, flagged: bool,
    reschedules: nat)

  predicate Active(a: Appointment) {
    a.status == PendingConfirmation || a.status == Confirmed || a.status == Rescheduled
  }

  /** An active appointment other than this one holds the slot: the partial unique index. */
  predicate SlotHeld(appointments: map<ApptId, Appointment>, day: Day, start: Minutes, holder: ApptId) {
    exists id | id in appointments ::
      id != holder && Active(appointments[id]) && appointments[id].day == day && appointments[id].start == start
  }

  predicate NoDoubleBooking(appointments: map<ApptId, Appointment>) {
    forall a, b | a in appointments && b in appointments && Active(appointments[a]) && Active(appointments[b])
                  && appointments[a].day == appointments[b].day && appointments[a].start == appointments[b].start ::
      a == b
  }

  /** The customer was told of this visit. */
  predicate Told(a: Appointment) {
    a.status == Confirmed || a.status == Rescheduled
  }

  /** A visit the customer was told of is in the calendar, at its slot, or flagged for reconciliation. */
  predicate Agrees(appointments: map<ApptId, Appointment>, events: map<EventId, Event>, id: ApptId)
    requires id in appointments
  {
    var a := appointments[id];
    && (a.status == Confirmed ==> a.external == Some(id))
    && (Told(a) ==> a.flagged || (id in events && IsVisitAt(events[id], a.day, a.start)))
  }

  predicate Agreement(appointments: map<ApptId, Appointment>, events: map<EventId, Event>) {
    forall id | id in appointments :: Agrees(appointments, events, id)
  }

  /** No appointment and no event but these changed, came or went. */
  ghost predicate OthersKept(appointments: map<ApptId, Appointment>, events: map<EventId, Event>,
                             appointments': map<ApptId, Appointment>, events': map<EventId, Event>, id: ApptId) {
    && (forall k | k != id :: k in appointments' <==> k in appointments)
    && (forall k | k in appointments && k != id :: appointments'[k] == appointments[k])
    && (forall k | k != id :: k in events' <==> k in events)
    && (forall k | k in events && k != id :: events'[k] == events[k])
  }

  /** When one appointment and its event change, the others still agree. */
  lemma OthersAgree(appointments: map<ApptId, Appointment>, events: map<EventId, Event>,
                    appointments': map<ApptId, Appointment>, events': map<EventId, Event>, id: ApptId)
    requires Agreement(appointments, events) && id in appointments'
    requires forall k | k in appointments' && k != id :: k in appointments && appointments'[k] == appointments[k]
    requires forall k | k in events && k != id :: k in events' && events'[k] == events[k]
    ensures Agreement(appointments', events') <==> Agrees(appointments', events', id)
  {
    forall k | k in appointments' && k != id ensures Agrees(appointments', events', k) {
      assert Agrees(appointments, events, k);
    }
  }

  /** Events of another slot than the database's. */
  lemma StrandedDisagrees(appointments: map<ApptId, Appointment>, events: map<EventId, Event>, id: ApptId, day: Day,
                          start: Minutes)
    requires NoDoubleBooking(appointments) && SlotHeld(appointments, day, start, id)
    requires id in appointments && Told(appointments[id]) && !appointments[id].flagged
    requires AllowedStart(start) && AllowedStart(appointments[id].start)
    requires id in events && IsVisitAt(events[id], day, start)
    ensures !Agrees(appointments, events, id)
  {
    DifferentSlots(day, start, appointments[id].day, appointments[id].start);
  }

  function MovedTo(a: Appointment, day: Day, start: Minutes): Appointment {
    a.(day := day, start := start, end := EndTime(start), status := Rescheduled, reschedules := a.reschedules + 1,
       flagged := false)
  }

  predicate RowOk(id: ApptId, a: Appointment) {
    && AllowedStart(a.start) && a.end == a.start + VisitMinutes && 1 <= a.attendees <= 3
    && (a.external.Some? ==> a.external.value == id)
  }

  datatype Answer =
    | NotConfirmed | CalendarDown | SlotGone | ReconcileLater(id: ApptId) | ConfirmedAt(id: ApptId)
    | Moved(id: ApptId) | Unknown | CancelledNow(id: ApptId) | Failed

  datatype Availability = Free | Taken | Unverified

  /** What another transaction does to a new row before its booking settles it: it is cancelled, or moved,
      before (`early`) or after the booking's own calendar call. */
  datatype Rival = NoRival | Cancels(late: bool)
                 | Moves(day: Day, start: Minutes, text: string, available: Availability, early: bool)

  class Desk {
    const calendar: FakeCalendar
    var appointments: map<ApptId, Appointment>
    var supply: ApptId

    constructor (calendar: FakeCalendar)
      ensures this.calendar == calendar && appointments == map[] && supply == 0
    {
      this.calendar, appointments, supply := calendar, map[], 0;
    }

    /** Ids are new, slots are held once, rows satisfy their constraints. */
    ghost predicate Valid()
      reads this, calendar
    {
      && (forall id | id in appointments :: id < supply && RowOk(id, appointments[id]))
      && (forall id | id in calendar.events :: id < supply)
      && NoDoubleBooking(appointments)
    }

    ghost predicate AllAgree()
      reads this, calendar
    {
      Agreement(appointments, calendar.events)
    }

    /** None is an IntegrityError: the slot is held, or the row breaks a constraint. */
    method InsertPending(day: Day, start: Minutes, attendees: nat) returns (r: Option<ApptId>)
      requires Valid() && AllowedStart(start)
      modifies this`appointments, this`supply
      ensures Valid() && supply >= old(supply)
      ensures r.None? <==> old(SlotHeld(appointments, day, start, supply)) || !(1 <= attendees <= 3)
      ensures r.Some? ==> forall id | id in old(appointments) ::
                var a := old(appointments)[id];
                a.day == day && a.start == start ==>
                  a.status != PendingConfirmation && a.status != Confirmed && a.status != Rescheduled
      ensures r.None? ==> appointments == old(appointments)
      ensures r.Some? ==> r.value == old(supply)
                          && appointments == old(appointments)[r.value :=
                               Appointment(day, start, EndTime(start), attendees, PendingConfirmation, None, false, 0)]
      ensures r.Some? ==> r.value !in old(appointments) && r.value !in calendar.events
    {
      if !(1 <= attendees <= 3) || SlotHeld(appointments, day, start, supply) {
        return None;
      }
      var id := supply;
      supply := supply + 1;
      appointments := appointments[id := Appointment(day, start, EndTime(start), attendees, PendingConfirmation, None,
                                                     false, 0)];
      return Some(id);
    }

    /** _create_or_reconcile_event: true if it returns, false if it raises. The calendar may recover between
        the two calls; a second call that succeeds still raises the first failure. */
    method CreateOrReconcile(id: EventId, e: Event, recovers: bool) returns (ok: bool)
      modifies calendar
      ensures ok <==> id in old(calendar.events) || !old(calendar.failCreate)
      ensures calendar.events == if id !in old(calendar.events) && (ok || recovers) then old(calendar.events)[id := e]
                                 else old(calendar.events)
      ensures calendar.NoWorse(recovers)
    {
      var r := calendar.CreateEvent(id, e);
      if r == AlreadyExists {
        return true;
      }
      if r == Unavailable {
        if recovers {
          calendar.failCreate := false;
        }
        var again := calendar.CreateEvent(id, e);
        if again == AlreadyExists {
          return true;
        }
        return false;
      }
      return true;
    }

    /** settle_visit_appointment, CONFIRM; false is the ValueError that rolls it back. */
    method SettleConfirm(id: ApptId, external: EventId) returns (ok: bool)
      modifies this`appointments
      ensures ok <==> id in old(appointments) && old(appointments)[id].status == PendingConfirmation
      ensures appointments == if !ok then old(appointments)
                              else old(appointments)[id := old(appointments)[id].(
                                     status := Confirmed, external := Some(external), flagged := false)]
    {
      if id !in appointments || appointments[id].status != PendingConfirmation {
        return false;
      }
      appointments := appointments[id := appointments[id].(status := Confirmed, external := Some(external),
                                                           flagged := false)];
      return true;
    }

    /** The rival's move is written to the calendar, if that takes events at all. */
    ghost predicate Rewrites(rival: Rival)
      reads calendar
    {
      rival.Moves? && rival.available == Free && !calendar.failUpdate && (rival.early ==> !calendar.failUpdateOnce)
    }

    /** The rival's move puts the event of the new row at another slot and yet leaves the row as it is: the move
        is refused its slot, or its own calendar call takes effect and fails. */
    ghost predicate Misleads(id: ApptId, rival: Rival, day: Day, start: Minutes)
      reads this, calendar
    {
      && Rewrites(rival)
      && (SlotHeld(appointments, rival.day, rival.start, id)
          || (rival.early && calendar.timeoutAfterCreate && (rival.day != day || rival.start != start)))
    }

    /** The rival has taken the new row: it is no longer pending, at the slot it was booked for. */
    ghost predicate Wins(id: ApptId, rival: Rival)
      reads this, calendar
    {
      || rival.Cancels?
      || (&& Rewrites(rival) && !SlotHeld(appointments, rival.day, rival.start, id)
          && !(rival.early && calendar.timeoutAfterCreate))
    }

    /** confirm_appointment. `available` is what AvailabilityService answers; it offers only allowed start
        times. The calendar may recover between two tries. Database and calendar keep agreeing exactly unless a
        rival misleads the booking. */
    method Confirm(day: Day, start: Minutes, attendees: nat, text: string, consent: bool, available: Availability,
                   recovers: bool, rival: Rival) returns (answer: Answer)
      requires Valid() && AllAgree() && (available == Free ==> AllowedStart(start))
      requires rival.Moves? && rival.available == Free ==> AllowedStart(rival.start)
      modifies this, calendar
      ensures Valid() && calendar.NoWorse(recovers)
      ensures AllAgree() <==> !(answer.ConfirmedAt? && old(Misleads(supply, rival, day, start)))
      ensures answer.ConfirmedAt? ==>
                && answer.id in appointments && answer.id in calendar.events
                && var a := appointments[answer.id];
                && a.status == Confirmed && a.external == Some(answer.id) && !a.flagged
                && a.day == day && a.start == start && a.end == start + VisitMinutes
                && (!old(Misleads(supply, rival, day, start)) ==> IsVisitAt(calendar.events[answer.id], day, start))
                && (old(Misleads(supply, rival, day, start)) ==> IsVisitAt(calendar.events[answer.id], rival.day, rival.start))
      ensures answer.ReconcileLater? ==>
                && answer.id in appointments && appointments[answer.id].flagged
                && (rival.NoRival? ==> appointments[answer.id].status == PendingConfirmation
                                       && appointments[answer.id].external.None?
                                       && (answer.id in calendar.events <==> recovers)
                                       && (recovers ==> IsVisitAt(calendar.events[answer.id], day, start)))
      ensures answer == NotConfirmed <==> !consent
      ensures answer == CalendarDown <==> consent && available == Unverified
      ensures answer == SlotGone <==>
                consent && (available == Taken || (available == Free
                  && (old(SlotHeld(appointments, day, start, supply)) || !(1 <= attendees <= 3))))
      ensures answer == NotConfirmed || answer == CalendarDown || answer == SlotGone ==>
                appointments == old(appointments) && calendar.events == old(calendar.events)
      ensures consent && available == Free && answer != SlotGone ==>
                answer == if old(calendar.failCreate) then ReconcileLater(old(supply))
                          else if old(Wins(supply, rival)) then Failed else ConfirmedAt(old(supply))
      ensures appointments.Keys <= old(appointments).Keys + {old(supply)}
      ensures forall id | id in old(appointments) :: id in appointments && appointments[id] == old(appointments)[id]
      ensures forall id | id in old(calendar.events) ::
                id in calendar.events && calendar.events[id] == old(calendar.events)[id]
    {
      if !consent {
        return NotConfirmed;
      }
      if available == Unverified {
        return CalendarDown;
      }
      if available == Taken {
        return SlotGone;
      }
      var inserted := InsertPending(day, start, attendees);
      if inserted.None? {
        return SlotGone;
      }
      OthersAgree(old(appointments), old(calendar.events), appointments, calendar.events, inserted.value);
      answer := Finish(inserted.value, day, start, text, recovers, rival);
    }

    /** A row awaiting its booking's settlement. */
    ghost predicate Awaits(id: ApptId, day: Day, start: Minutes)
      reads this
    {
      && id in appointments && AllowedStart(start)
      && appointments[id] == Appointment(day, start, EndTime(start), appointments[id].attendees, PendingConfirmation,
                                         None, false, 0)
    }

    /** The rest of confirm_appointment, for a row just inserted. */
    method Finish(id: ApptId, day: Day, start: Minutes, text: string, recovers: bool, rival: Rival)
      returns (answer: Answer)
      requires Valid() && AllAgree() && Awaits(id, day, start) && id !in calendar.events
      requires rival.Moves? && rival.available == Free ==> AllowedStart(rival.start)
      modifies this`appointments, calendar
      ensures Valid() && calendar.NoWorse(recovers)
      ensures answer == if old(calendar.failCreate) then ReconcileLater(id)
                        else if old(Wins(id, rival)) then Failed else ConfirmedAt(id)
      ensures OthersKept(old(appointments), old(calendar.events), appointments, calendar.events, id)
      ensures AllAgree() <==> !(answer.ConfirmedAt? && old(Misleads(id, rival, day, start)))
      ensures answer.ConfirmedAt? ==>
                && id in appointments && id in calendar.events
                && appointments[id] == old(appointments)[id].(status := Confirmed, external := Some(id))
                && (!old(Misleads(id, rival, day, start)) ==> IsVisitAt(calendar.events[id], day, start))
                && (old(Misleads(id, rival, day, start)) ==> IsVisitAt(calendar.events[id], rival.day, rival.start))
      ensures answer.ReconcileLater? ==>
                && id in appointments && appointments[id].flagged
                && (rival.NoRival? ==> appointments[id] == old(appointments)[id].(flagged := true)
                                       && calendar.events == if recovers
                                          then old(calendar.events)[id := VisitEvent(day, start, text)]
                                          else old(calendar.events))
    {
      ghost var appointments0, events0 := appointments, calendar.events;
      var created := Compete(id, day, start, text, recovers, rival);
      answer := Conclude(id, created);
      OthersAgree(appointments0, events0, appointments, calendar.events, id);
      VisitEventIsRight(day, start, text);
      if rival.Moves? && rival.available == Free {
        VisitEventIsRight(rival.day, rival.start, rival.text);
        DifferentSlots(day, start, rival.day, rival.start);
      }
    }

    /** The booking's calendar call and the rival, in the rival's order. */
    method Compete(id: ApptId, day: Day, start: Minutes, text: string, recovers: bool, rival: Rival)
      returns (created: bool)
      requires Valid() && AllAgree() && Awaits(id, day, start) && id !in calendar.events
      requires rival.Moves? && rival.available == Free ==> AllowedStart(rival.start)
      modifies this`appointments, calendar
      ensures Valid() && calendar.NoWorse(recovers) && id in appointments && appointments[id].status != Confirmed
      ensures created <==> !old(calendar.failCreate)
      ensures created ==>
                && appointments[id] == (if !old(Wins(id, rival)) then old(appointments)[id]
                                        else if rival.Moves? then MovedTo(old(appointments)[id], rival.day, rival.start)
                                        else old(appointments)[id].(status := if rival.late then LateCancel else Cancelled))
                && calendar.events == old(calendar.events)[id :=
                     if old(Rewrites(rival)) then VisitEvent(rival.day, rival.start, rival.text)
                     else VisitEvent(day, start, text)]
      ensures !created && rival.NoRival? ==>
                && appointments == old(appointments)
                && calendar.events == if recovers then old(calendar.events)[id := VisitEvent(day, start, text)]
                                      else old(calendar.events)
      ensures OthersKept(old(appointments), old(calendar.events), appointments, calendar.events, id)
    {
      if rival.Moves? && rival.early {
        var early := Reschedule(id, rival.day, rival.start, rival.text, rival.available);
        created := CreateOrReconcile(id, VisitEvent(day, start, text), recovers);
      } else {
        ghost var appointments0, events0 := appointments, calendar.events;
        created := CreateOrReconcile(id, VisitEvent(day, start, text), recovers);
        OthersAgree(appointments0, events0, appointments, calendar.events, id);
        if rival.Cancels? {
          var cancelled := Cancel(id, true, rival.late);
        } else if rival.Moves? {
          var late := Reschedule(id, rival.day, rival.start, rival.text, rival.available);
        }
      }
    }

    /** A failed call flags the row; otherwise it is settled, unless it is no longer pending. */
    method Conclude(id: ApptId, created: bool) returns (answer: Answer)
      requires Valid() && id in appointments
      modifies this`appointments
      ensures Valid()
      ensures answer == if !created then ReconcileLater(id)
                        else if old(appointments)[id].status == PendingConfirmation then ConfirmedAt(id) else Failed
      ensures appointments == if !created then old(appointments)[id := old(appointments)[id].(flagged := true)]
                              else if answer == Failed then old(appointments)
                              else old(appointments)[id := old(appointments)[id].(
                                     status := Confirmed, external := Some(id), flagged := false)]
    {
      if !created {
        appointments := appointments[id := appointments[id].(flagged := true)];
        return ReconcileLater(id);
      }
      var settled := SettleConfirm(id, id);
      if !settled {
        return Failed;
      }
      return ConfirmedAt(id);
    }

    /** cancel_appointment. Only a recorded event is deleted: a visit rescheduled before it was ever confirmed
        has none recorded, and keeps its event. */
    method Cancel(id: ApptId, consent: bool, late: bool) returns (answer: Answer)
      requires Valid() && AllAgree()
      modifies this`appointments, calendar`events
      ensures Valid() && AllAgree()
      ensures !consent ==> answer == NotConfirmed
      ensures consent && id !in old(appointments) ==> answer == Unknown
      ensures answer == NotConfirmed || answer == Unknown ==>
                appointments == old(appointments) && calendar.events == old(calendar.events)
      ensures consent && id in old(appointments) ==>
                answer == if old(appointments)[id].external.Some? && calendar.failDelete then ReconcileLater(id)
                          else CancelledNow(id)
      ensures answer == CancelledNow(id) ==>
                && appointments == old(appointments)[id := old(appointments)[id].(
                     status := if late then LateCancel else Cancelled)]
                && calendar.events == if old(appointments)[id].external.Some? then old(calendar.events) - {id}
                                      else old(calendar.events)
      ensures answer == ReconcileLater(id) ==>
                && calendar.events == old(calendar.events)
                && appointments == old(appointments)[id := old(appointments)[id].(flagged := true)]
      ensures OthersKept(old(appointments), old(calendar.events), appointments, calendar.events, id)
    {
      if !consent {
        return NotConfirmed;
      }
      if id !in appointments {
        return Unknown;
      }
      ghost var appointments0, events0 := appointments, calendar.events;
      var down := false;
      if appointments[id].external.Some? {
        var r := calendar.DeleteEvent(appointments[id].external.value);
        down := r == Unavailable;
      }
      if down {
        appointments := appointments[id := appointments[id].(flagged := true)];
        answer := ReconcileLater(id);
      } else {
        appointments := appointments[id := appointments[id].(status := if late then LateCancel else Cancelled)];
        answer := CancelledNow(id);
      }
      OthersAgree(appointments0, events0, appointments, calendar.events, id);
    }

    /** The calendar takes the event of a reschedule: it moves the one it has, or makes a new one. */
    ghost predicate Written(id: EventId)
      reads this, calendar
    {
      && !calendar.failUpdate
      && (id in calendar.events || (!calendar.failUpdateOnce && !calendar.failCreate))
    }

    /** _update_or_reconcile_event: Done if it returns, otherwise the error it raises. A new event may be made
        and yet be reported as failed. */
    method UpdateOrReconcile(id: EventId, e: Event) returns (r: CallResult)
      modifies calendar`events, calendar`timeoutAfterCreate, calendar`failUpdateOnce
      ensures r == Done || r == Unavailable || r == NotFound
      ensures r == Done <==> old(Written(id)) && (id in old(calendar.events) || !old(calendar.timeoutAfterCreate))
      ensures calendar.events == if old(Written(id)) then old(calendar.events)[id := e] else old(calendar.events)
      ensures calendar.NoWorse(false)
    {
      r := calendar.UpdateEvent(id, e);
      if r == NotFound {
        r := calendar.CreateEvent(id, e);
        if r == AlreadyExists {
          return Unavailable;
        }
      } else if r == Unavailable {
        r := calendar.UpdateEvent(id, e);
      }
    }

    /** settle_visit_appointment, RESCHEDULE. None is an IntegrityError, Some(false) the ValueError. */
    method SettleReschedule(id: ApptId, day: Day, start: Minutes) returns (r: Option<bool>)
      requires id in appointments && AllowedStart(start)
      modifies this`appointments
      ensures r == if !Active(old(appointments)[id]) then Some(false)
                   else if old(SlotHeld(appointments, day, start, id)) then None else Some(true)
      ensures appointments == if r != Some(true) then old(appointments)
                else old(appointments)[id := MovedTo(old(appointments)[id], day, start)]
    {
      var a := appointments[id];
      if !Active(a) {
        return Some(false);
      }
      if SlotHeld(appointments, day, start, id) {
        return None;
      }
      appointments := appointments[id := a.(day := day, start := start, end := EndTime(start), status := Rescheduled,
                                            reschedules := a.reschedules + 1, flagged := false)];
      return Some(true);
    }

    /** A reschedule moves the calendar first. It breaks the agreement exactly when the calendar accepts the
        move and the database then refuses the slot: the calendar is not moved back. */
    ghost predicate Strands(id: ApptId, day: Day, start: Minutes, available: Availability)
      reads this, calendar
    {
      && available == Free && id in appointments && id in calendar.events && !calendar.failUpdate
      && Told(appointments[id]) && !appointments[id].flagged
      && SlotHeld(appointments, day, start, id)
    }

    /** The calendar reports the move as done and the database accepts it. */
    ghost predicate Lands(id: ApptId, day: Day, start: Minutes, available: Availability)
      reads this, calendar
    {
      && available == Free && id in appointments && Active(appointments[id])
      && Written(id) && (id in calendar.events || !calendar.timeoutAfterCreate)
      && !SlotHeld(appointments, day, start, id)
    }

    /** reschedule_appointment */
    method Reschedule(id: ApptId, day: Day, start: Minutes, text: string, available: Availability)
      returns (answer: Answer)
      requires Valid() && AllAgree() && (available == Free ==> AllowedStart(start))
      modifies this`appointments, calendar`events, calendar`timeoutAfterCreate, calendar`failUpdateOnce
      ensures Valid()
      ensures AllAgree() <==> !old(Strands(id, day, start, available))
      ensures answer == Moved(id) <==> old(Lands(id, day, start, available))
      ensures answer.Moved? ==> answer == Moved(id)
      ensures appointments == if answer.Moved? then old(appointments)[id := MovedTo(old(appointments)[id], day, start)]
                              else old(appointments)
      ensures calendar.events == if available == Free && id in old(appointments) && old(Written(id))
                                 then old(calendar.events)[id := VisitEvent(day, start, text)] else old(calendar.events)
      ensures id in calendar.events && calendar.events[id] == VisitEvent(day, start, text) && available == Free ==>
                IsVisitAt(calendar.events[id], day, start)
      ensures old(Strands(id, day, start, available)) ==>
                answer == SlotGone && id in calendar.events && IsVisitAt(calendar.events[id], day, start)
      ensures calendar.NoWorse(false)
    {
      if id !in appointments {
        return Unknown;
      }
      if available == Unverified {
        return CalendarDown;
      }
      if available == Taken {
        return SlotGone;
      }
      answer := MoveVisit(id, day, start, text);
    }

    /** The calendar call and the settlement of a reschedule. */
    method MoveVisit(id: ApptId, day: Day, start: Minutes, text: string) returns (answer: Answer)
      requires Valid() && AllAgree() && id in appointments && AllowedStart(start)
      modifies this`appointments, calendar`events, calendar`timeoutAfterCreate, calendar`failUpdateOnce
      ensures Valid() && calendar.NoWorse(false)
      ensures AllAgree() <==> !old(Strands(id, day, start, Free))
      ensures answer == Moved(id) <==> old(Lands(id, day, start, Free))
      ensures answer.Moved? ==> answer == Moved(id)
      ensures appointments == if answer.Moved? then old(appointments)[id := MovedTo(old(appointments)[id], day, start)]
                              else old(appointments)
      ensures calendar.events == if old(Written(id)) then old(calendar.events)[id := VisitEvent(day, start, text)]
                                 else old(calendar.events)
      ensures IsVisitAt(VisitEvent(day, start, text), day, start)
      ensures old(Strands(id, day, start, Free)) ==> answer == SlotGone
    {
      VisitEventIsRight(day, start, text);
      ghost var appointments0, events0 := appointments, calendar.events;
      var r := UpdateOrReconcile(id, VisitEvent(day, start, text));
      OthersAgree(appointments0, events0, appointments, calendar.events, id);
      if r == Unavailable {
        return CalendarDown;
      }
      if r == NotFound {
        return Failed;
      }
      if Told(appointments[id]) && !appointments[id].flagged && SlotHeld(appointments, day, start, id) {
        StrandedDisagrees(appointments, calendar.events, id, day, start);
      }
      answer := MoveRow(id, day, start);
      OthersAgree(appointments0, events0, appointments, calendar.events, id);
    }

    /** The settlement of a reschedule whose event has been moved. */
    method MoveRow(id: ApptId, day: Day, start: Minutes) returns (answer: Answer)
      requires Valid() && id in appointments && AllowedStart(start)
      modifies this`appointments
      ensures Valid()
      ensures answer == if !Active(old(appointments)[id]) then Failed
                        else if old(SlotHeld(appointments, day, start, id)) then SlotGone else Moved(id)
      ensures appointments == if answer != Moved(id) then old(appointments)
                else old(appointments)[id := MovedTo(old(appointments)[id], day, start)]
    {
      var settled := SettleReschedule(id, day, start);
      if settled.None? {
        return SlotGone;
      }
      return if settled.value then Moved(id) else Failed;
    }
  }

  /** One event stands for one slot. */
  lemma DifferentSlots(day: Day, start: Minutes, day': Day, start': Minutes)
    requires AllowedStart(start) && AllowedStart(start')
    ensures Moment(day, start) == Moment(day', start') <==> day == day' && start == start'
  {
  }

  // ----- Reachable failures -----

  /** A booking fails at the calendar, which then recovers; the pending visit is rescheduled and cancelled.
      Every operation succeeds, and the event of the cancelled visit stays in the calendar. */
  method OrphanedEvent(day: Day, start: Minutes, day': Day, start': Minutes) returns (desk: Desk, id: ApptId)
    requires AllowedStart(start) && AllowedStart(start')
    ensures desk.Valid() && desk.AllAgree()
    ensures id in desk.appointments && desk.appointments[id].status == Cancelled
    ensures id in desk.calendar.events && IsVisitAt(desk.calendar.events[id], day', start')
  {
    var calendar := new FakeCalendar(true, false, false, false, false);
    desk := new Desk(calendar);
    id := desk.supply;
    var booked := desk.Confirm(day, start, 1, "", true, Free, false, NoRival);
    assert booked == ReconcileLater(id);
    calendar.failCreate := false;
    var moved := desk.Reschedule(id, day', start', "", Free);
    assert moved == Moved(id);
    var cancelled := desk.Cancel(id, true, false);
    assert cancelled == CancelledNow(id);
  }

  /** Two visits are booked, and the first is rescheduled to the slot of the second, which its availability
      check saw before the second took it. */
  method StrandedEvent(day: Day, start: Minutes, day': Day, start': Minutes) returns (desk: Desk, id: ApptId)
    requires AllowedStart(start) && AllowedStart(start') && (day != day' || start != start')
    ensures desk.Valid() && !desk.AllAgree()
    ensures id in desk.appointments && desk.appointments[id].status == Confirmed && !desk.appointments[id].flagged
    ensures desk.appointments[id].day == day && desk.appointments[id].start == start
    ensures id in desk.calendar.events && IsVisitAt(desk.calendar.events[id], day', start')
  {
    desk, id := TwoVisits(day, start, day', start');
    var moved := desk.Reschedule(id, day', start', "", Free);
    assert moved == SlotGone;
  }

  method TwoVisits(day: Day, start: Minutes, day': Day, start': Minutes) returns (desk: Desk, id: ApptId)
    requires AllowedStart(start) && AllowedStart(start') && (day != day' || start != start')
    ensures fresh(desk) && fresh(desk.calendar) && desk.Valid() && desk.AllAgree() && id in desk.appointments
    ensures desk.Strands(id, day', start', Free)
    ensures desk.appointments[id].status == Confirmed
    ensures desk.appointments[id].day == day && desk.appointments[id].start == start
  {
    var calendar := new FakeCalendar(false, false, false, false, false);
    desk := new Desk(calendar);
    id := desk.supply;
    var first := desk.Confirm(day, start, 1, "", true, Free, false, NoRival);
    assert first == ConfirmedAt(id);
    ghost var taken := desk.supply;
    var second := desk.Confirm(day', start', 1, "", true, Free, false, NoRival);
    assert second == ConfirmedAt(taken);
  }

  /** A visit is being booked while its pending row is rescheduled to a slot that another visit holds. The
      booking confirms the old slot; the event stands at the other. */
  method MisledBooking(day: Day, start: Minutes, day': Day, start': Minutes) returns (desk: Desk, id: ApptId)
    requires AllowedStart(start) && AllowedStart(start') && (day != day' || start != start')
    ensures desk.Valid() && !desk.AllAgree()
    ensures id in desk.appointments && desk.appointments[id].status == Confirmed && !desk.appointments[id].flagged
    ensures desk.appointments[id].day == day && desk.appointments[id].start == start
    ensures id in desk.calendar.events && IsVisitAt(desk.calendar.events[id], day', start')
  {
    var calendar := new FakeCalendar(false, false, false, false, false);
    desk := new Desk(calendar);
    ghost var holder := desk.supply;
    var other := desk.Confirm(day', start', 1, "", true, Free, false, NoRival);
    assert other == ConfirmedAt(holder);
    id := desk.supply;
    assert holder in desk.appointments && Active(desk.appointments[holder]);
    var booked := desk.Confirm(day, start, 1, "", true, Free, false, Moves(day', start', "", Free, false));
    assert booked == ConfirmedAt(id);
  }
}
