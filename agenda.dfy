/** The agenda screen: appointments listed by the backend become calendar events, a pressed
    day becomes the selected date and the date of the draft appointment, the list shows the
    events of that day, and creating or deleting an appointment reloads the list on success. */
module Agenda {

  import opened Wrappers
  import opened Text
  import opened Decimal
  import opened Http
  import opened Ui
  import opened Session

  /** One appointment as `GET /diary` lists it. */
  datatype DiaryRecord = DiaryRecord(
    numero_cita: int,
    fecha: string,
    nombre_usuario: string,
    nombre_paciente: string,
    hora_inicio: string,
    hora_final: string)

  /** What the screen keeps for one appointment. */
  datatype Event = Event(id: string, date: string, title: string, time: string)

  /** The draft appointment the create modal posts to `/diary`. */
  datatype Appointment = Appointment(
    id_empresa: Option<string>,
    id_cedula_usuario: Option<string>,
    id_cedula_paciente: string,
    fecha: string,
    hora_inicio: string,
    hora_final: string)

  /** The separator placed between the two names of a title and the two hours of a time. */
  const Dash := " - "

  /** The calendar colour of both kinds of marker. */
  const Blue := "#007bff"

  // ---------------------------------------------------------------------------
  // Projection of records into events
  // ---------------------------------------------------------------------------

  function ToEvent(r: DiaryRecord): Event {
    Event(IntToString(r.numero_cita), DatePart(r.fecha),
          r.nombre_usuario + Dash + r.nombre_paciente,
          r.hora_inicio + Dash + r.hora_final)
  }

  /** `records.map(...)`: one event per record, in the backend's order. */
  function ProjectEvents(records: seq<DiaryRecord>): seq<Event> {
    seq(|records|, i requires 0 <= i < |records| => ToEvent(records[i]))
  }

  /** Every event keeps its record's place, its id reads back as the record's number, its date
      is the part of `fecha` before the first 'T' (so it holds no 'T'), and its title and time
      join the two names and the two hours around " - ". */
  lemma ProjectionFaithful(records: seq<DiaryRecord>, i: int)
    requires 0 <= i < |records|
    ensures var events, r := ProjectEvents(records), records[i];
      && |events| == |records|
      && ParseInt(events[i].id) == Some(r.numero_cita)
      && 'T' !in events[i].date
      && events[i].date <= r.fecha
      && ('T' in r.fecha ==> r.fecha[|events[i].date|] == 'T')
      && ('T' !in r.fecha ==> events[i].date == r.fecha)
      && events[i].title == r.nombre_usuario + " - " + r.nombre_paciente
      && events[i].time == r.hora_inicio + " - " + r.hora_final
  {
    ParseIntOfIntToString(records[i].numero_cita);
    SplitCharFirst(records[i].fecha, 'T');
  }

  /** The list item shows `title.split(' - ')[0]` as the assigned user and `[1]` as the patient. */
  function AssignedLabel(e: Event): string {
    Split(e.title, Dash)[0]
  }

  function PatientLabel(e: Event): Option<string> {
    var pieces := Split(e.title, Dash);
    if |pieces| > 1 then Some(pieces[1]) else None
  }

  /** When neither name holds a '-', the list shows back exactly the two names of the record. */
  lemma LabelsShowNames(r: DiaryRecord)
    requires '-' !in r.nombre_usuario && '-' !in r.nombre_paciente
    ensures AssignedLabel(ToEvent(r)) == r.nombre_usuario
    ensures PatientLabel(ToEvent(r)) == Some(r.nombre_paciente)
  {
    SplitAroundDash(r.nombre_usuario, r.nombre_paciente);
  }

  /** Splitting `a + " - " + b` on " - " gives back `a` and `b` when neither holds a '-'. */
  lemma SplitAroundDash(a: string, b: string)
    requires '-' !in a && '-' !in b
    ensures Split(a + Dash + b, Dash) == [a, b]
  {
    var s := a + Dash + b;
    forall j | 0 <= j < |a| ensures !OccursAt(s, Dash, j) {
      OccursAtSpells(s, Dash, j, 1);
    }
    assert s[|a|..|a| + 3] == Dash;
    assert OccursAt(s, Dash, |a|);
    var i := IndexFrom(s, Dash, 0);
    assert i == Some(|a|);
    assert s[..|a|] == a;
    assert s[|a| + 3..] == b;
    forall j | true ensures !OccursAt(b, Dash, j) {
      OccursAtSpells(b, Dash, j, 1);
    }
    assert IndexFrom(b, Dash, 0) == None;
    assert Split(b, Dash) == [b];
  }

  // ---------------------------------------------------------------------------
  // The events of the selected day
  // ---------------------------------------------------------------------------

  /** The events `renderEventItem` draws for `date`: those whose date equals it, in list order. */
  function EventsOn(events: seq<Event>, date: string): (r: seq<Event>)
    ensures IsSubsequence(r, events)
    ensures forall e :: e in r ==> e.date == date
  {
    if events == [] then []
    else
      var rest := EventsOn(events[1..], date);
      assert events == [events[0]] + events[1..];
      if events[0].date == date then
        assert ([events[0]] + rest)[1..] == rest;
        [events[0]] + rest
      else
        SubsequenceOfTail(rest, events);
        rest
  }

  /** Every event of the day is drawn as often as it occurs in the list, and no other event is. */
  lemma {:induction false} EventsOnCounts(events: seq<Event>, date: string, e: Event)
    ensures multiset(EventsOn(events, date))[e] == if e.date == date then multiset(events)[e] else 0
  {
    if events != [] {
      EventsOnCounts(events[1..], date, e);
      assert events == [events[0]] + events[1..];
    }
  }

  /** Nothing is drawn for an unset selection ('') unless some event has an empty date. */
  lemma NothingDrawnWithoutSelection(events: seq<Event>)
    ensures EventsOn(events, "") == [] <==> forall e :: e in events ==> e.date != ""
  {
    if exists e :: e in events && e.date == "" {
      var e :| e in events && e.date == "";
      EventsOnCounts(events, "", e);
    }
  }

  /** `ListEmptyComponent`: the "no events for this date" text is offered only when the whole
      event list is empty and a date is selected, not when the selected day alone has none. */
  predicate NoEventsTextShown(events: seq<Event>, selectedDate: string) {
    events == [] && selectedDate != ""
  }

  /** A day without events gets no text as soon as any other day has one. */
  lemma NoEventsTextIgnoresSelectedDay(events: seq<Event>, selectedDate: string)
    requires events != [] && selectedDate != ""
    requires forall e :: e in events ==> e.date != selectedDate
    ensures EventsOn(events, selectedDate) == []
    ensures !NoEventsTextShown(events, selectedDate)
  {
  }

  // ---------------------------------------------------------------------------
  // Calendar markings
  // ---------------------------------------------------------------------------

  /** The marker the calendar draws on a day: the selection, or the dot of a day with events. */
  datatype Marking = Selected(selectedColor: string) | Marked(dotColor: string)

  function Dates(events: seq<Event>): set<string> {
    set e | e in events :: e.date
  }

  /** `events.reduce((acc, e) => { acc[e.date] = dot; return acc }, acc)`. */
  function MarkEvents(events: seq<Event>, acc: map<string, Marking>): map<string, Marking>
    decreases |events|
  {
    if events == [] then acc
    else MarkEvents(events[1..], acc[events[0].date := Marked(Blue)])
  }

  /** The reduction adds a dot on every event date and leaves every other day as it was. */
  lemma {:induction false} MarkEventsSpec(events: seq<Event>, acc: map<string, Marking>)
    ensures var m := MarkEvents(events, acc);
      && m.Keys == acc.Keys + Dates(events)
      && (forall d :: d in Dates(events) ==> m[d] == Marked(Blue))
      && (forall d :: d in acc && d !in Dates(events) ==> m[d] == acc[d])
    decreases |events|
  {
    if events != [] {
      var acc' := acc[events[0].date := Marked(Blue)];
      MarkEventsSpec(events[1..], acc');
      assert events == [events[0]] + events[1..];
      assert Dates(events) == {events[0].date} + Dates(events[1..]);
    }
  }

  /** The `markedDates` object: the selected day first, then the spread of the reduction. */
  function MarkedDates(selectedDate: string, events: seq<Event>): map<string, Marking> {
    map[selectedDate := Selected(Blue)] + MarkEvents(events, map[])
  }

  /** The marked days are the event dates and the selected date. A day with events carries the
      dot, even when it is the selected day: the spread comes last and replaces the selection. */
  lemma MarkedDatesSpec(selectedDate: string, events: seq<Event>)
    ensures var m := MarkedDates(selectedDate, events);
      && m.Keys == Dates(events) + {selectedDate}
      && (forall d :: d in Dates(events) ==> m[d] == Marked(Blue))
      && (selectedDate !in Dates(events) ==> m[selectedDate] == Selected(Blue))
  {
    MarkEventsSpec(events, map[]);
  }

  // ---------------------------------------------------------------------------
  // Hour choices
  // ---------------------------------------------------------------------------

  /** `Array.from({ length: 24 }, (_, i) => `${i}:00`)`: the values of both hour pickers. */
  function HourSlots(): seq<string> {
    seq(24, i requires 0 <= i < 24 => NatToString(i) + ":00")
  }

  /** There are 24 hour choices and the K-th reads back as hour K under `parseInt`. */
  lemma HourSlotsParse()
    ensures |HourSlots()| == 24
    ensures forall i :: 0 <= i < 24 ==> ParseInt(HourSlots()[i]) == Some(i)
  {
    forall i | 0 <= i < 24 ensures ParseInt(HourSlots()[i]) == Some(i) {
      ParseIntOfDigitsThenColon(i);
    }
  }

  /** The 24 hour choices are all different. */
  lemma HourSlotsDistinct()
    ensures forall i, j :: 0 <= i < j < |HourSlots()| ==> HourSlots()[i] != HourSlots()[j]
  {
    HourSlotsParse();
  }

  /** The hour choices run from "0:00" to "23:00". */
  lemma HourSlotsRange()
    ensures HourSlots()[0] == "0:00" && HourSlots()[23] == "23:00"
  {
    assert DigitChar(0) == '0' && DigitChar(2) == '2' && DigitChar(3) == '3';
    assert NatToString(23) == NatToString(2) + [DigitChar(3)];
  }

  lemma ParseIntOfDigitsThenColon(n: nat)
    ensures ParseInt(NatToString(n) + ":00") == Some(n)
  {
    var digits := NatToString(n);
    var s := digits + ":00";
    TrimStartOfUnspaced(s);
    DigitPrefixStopsAtColon(digits, ":00");
    DigitsValueOfNatToString(n);
  }

  lemma {:induction false} DigitPrefixStopsAtColon(digits: string, rest: string)
    requires AllDigits(digits) && rest != [] && rest[0] == ':'
    ensures DigitPrefix(digits + rest) == digits
  {
    if digits != [] {
      assert (digits + rest)[1..] == digits[1..] + rest;
      assert AllDigits(digits[1..]) by {
        forall i | 0 <= i < |digits| - 1 ensures IsDigit(digits[1..][i]) {
          assert digits[1..][i] == digits[i + 1];
        }
      }
      DigitPrefixStopsAtColon(digits[1..], rest);
    }
  }

  // ---------------------------------------------------------------------------
  // The screen
  // ---------------------------------------------------------------------------

  const LoadFailed := Alert("Error", "No se pudieron cargar las citas.")
  const Created := Alert("Éxito", "Cita creada exitosamente.")
  const CreateFailed := Alert("Error", "No se pudo crear la cita. Verifica los datos.")
  const Deleted := Alert("Éxito", "La cita ha sido eliminada.")
  const DeleteFailed := Alert("Error", "No se pudo eliminar la cita. Inténtalo nuevamente.")

  /** `GET /diary` came back with a list: `response.data.data` was present. */
  predicate Listed(reply: Reply<Option<seq<DiaryRecord>>>) {
    reply.Response? && reply.body.Some?
  }

  class AgendaScreen {
    const user: User
    var selectedDate: string
    var events: seq<Event>
    var isModalVisible: bool
    var newAppointment: Appointment

    /** The draft starts with the user's company and id and every other field empty. */
    constructor (user: User)
      ensures this.user == user
      ensures selectedDate == "" && events == [] && !isModalVisible
      ensures newAppointment == Appointment(Prop(user, "id_empresa"), Prop(user, "id_cedula"), "", "", "", "")
    {
      this.user := user;
      selectedDate := "";
      events := [];
      isModalVisible := false;
      newAppointment := Appointment(Prop(user, "id_empresa"), Prop(user, "id_cedula"), "", "", "", "");
    }

    /** The events drawn under the calendar. */
    function VisibleEvents(): seq<Event>
      reads this
    {
      EventsOn(events, selectedDate)
    }

    /** `fetchEvents`: a listed reply replaces the events by their projection; a failure keeps
        the previous events and alerts. */
    method FetchEvents(reply: Reply<Option<seq<DiaryRecord>>>) returns (alert: Option<Alert>)
      modifies this`events
      ensures Listed(reply) ==> events == ProjectEvents(reply.body.value) && alert == None
      ensures !Listed(reply) ==> events == old(events) && alert == Some(LoadFailed)
    {
      if Listed(reply) {
        events := ProjectEvents(reply.body.value);
        alert := None;
      } else {
        alert := Some(LoadFailed);
      }
    }

    /** `handleDatePress`: the day becomes the selection and the draft's date, nothing else. */
    method HandleDatePress(date: string)
      modifies this`selectedDate, this`newAppointment
      ensures selectedDate == date
      ensures newAppointment == old(newAppointment).(fecha := date)
    {
      selectedDate := date;
      newAppointment := newAppointment.(fecha := date);
    }

    /** The patient picker. */
    method SelectPatient(id: string)
      modifies this`newAppointment
      ensures newAppointment == old(newAppointment).(id_cedula_paciente := id)
    {
      newAppointment := newAppointment.(id_cedula_paciente := id);
    }

    /** The start-hour picker: "" or one of `HourSlots()`. */
    method SelectStartHour(hour: string)
      requires hour == "" || hour in HourSlots()
      modifies this`newAppointment
      ensures newAppointment == old(newAppointment).(hora_inicio := hour)
    {
      newAppointment := newAppointment.(hora_inicio := hour);
    }

    /** The end-hour picker: "" or one of `HourSlots()`. */
    method SelectEndHour(hour: string)
      requires hour == "" || hour in HourSlots()
      modifies this`newAppointment
      ensures newAppointment == old(newAppointment).(hora_final := hour)
    {
      newAppointment := newAppointment.(hora_final := hour);
    }

    /** "Crear Cita" opens the modal, "Cancelar" closes it; the draft is kept either way. */
    method SetModalVisible(visible: bool)
      modifies this`isModalVisible
      ensures isModalVisible == visible
    {
      isModalVisible := visible;
    }

    /** `handleSaveAppointment`: the draft is posted as it is, with no check that its fields are
        filled or that the start hour precedes the end hour. Status 200 or 201 closes the modal
        and reloads the events with `reload`; a thrown error alerts and changes nothing; the
        draft is never cleared. */
    method HandleSaveAppointment(reply: Reply<()>, reload: Reply<Option<seq<DiaryRecord>>>)
      returns (posted: Appointment, alerts: seq<Alert>)
      modifies this`isModalVisible, this`events
      ensures posted == old(newAppointment) && newAppointment == old(newAppointment)
      ensures reply.Response? && (reply.status == 200 || reply.status == 201) ==>
        && !isModalVisible
        && (Listed(reload) ==> events == ProjectEvents(reload.body.value) && alerts == [Created])
        && (!Listed(reload) ==> events == old(events) && alerts == [Created, LoadFailed])
      ensures reply.Response? && !(reply.status == 200 || reply.status == 201) ==>
        isModalVisible == old(isModalVisible) && events == old(events) && alerts == []
      ensures reply.Thrown? ==>
        isModalVisible == old(isModalVisible) && events == old(events) && alerts == [CreateFailed]
    {
      posted := newAppointment;
      if reply.Response? {
        if reply.status == 200 || reply.status == 201 {
          isModalVisible := false;
          var reloadAlert := FetchEvents(reload);
          alerts := [Created] + (if reloadAlert.Some? then [reloadAlert.value] else []);
        } else {
          alerts := [];
        }
      } else {
        alerts := [CreateFailed];
      }
    }

    /** `handleDeleteAppointment(id)`: deletes `/diary/<id>`; only status 200 reloads the
        events; a thrown error alerts; the list never loses an event before the reload. */
    method HandleDeleteAppointment(id: string, reply: Reply<()>, reload: Reply<Option<seq<DiaryRecord>>>)
      returns (path: string, alerts: seq<Alert>)
      modifies this`events
      ensures path == "/diary/" + id
      ensures reply.Response? && reply.status == 200 ==>
        && (Listed(reload) ==> events == ProjectEvents(reload.body.value) && alerts == [Deleted])
        && (!Listed(reload) ==> events == old(events) && alerts == [Deleted, LoadFailed])
      ensures reply.Response? && reply.status != 200 ==> events == old(events) && alerts == []
      ensures reply.Thrown? ==> events == old(events) && alerts == [DeleteFailed]
    {
      path := "/diary/" + id;
      if reply.Response? {
        if reply.status == 200 {
          var reloadAlert := FetchEvents(reload);
          alerts := [Deleted] + (if reloadAlert.Some? then [reloadAlert.value] else []);
        } else {
          alerts := [];
        }
      } else {
        alerts := [DeleteFailed];
      }
    }
  }
}
