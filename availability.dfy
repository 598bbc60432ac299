/** A psychologist's bookable time slot. The date is fixed at construction;
    `schedule` is the one operation that changes a slot. */
module Availability {
  import opened Common

  const AlreadyFilledMsg: string := "Appointment is already fullfield."

  /** The state of a slot. */
  datatype AvailabilityData = AvailabilityData(id: Uuid, date: DateTime, appointmentId: Option<Uuid>, available: bool)

  /** `Availability(date, appointment_id=None, available=True, id=None)`: the
      date must be given; a missing id is generated. */
  function NewAvailabilityData(date: Option<DateTime>, appointmentId: Option<Uuid>, available: bool,
                               id: Option<Uuid>, generated: Uuid): (r: Result<AvailabilityData>)
    ensures r.Err? <==> date.None?
    ensures r.Ok? ==> r.value == AvailabilityData(ResolveId(id, generated), date.value, appointmentId, available)
  {
    if date.None? then Err("date")
    else Ok(AvailabilityData(ResolveId(id, generated), date.value, appointmentId, available))
  }

  /** `schedule(appointment)`: fails on a slot that is available, then on an
      undefined appointment; otherwise the slot becomes available and records
      the appointment's id. `appointment` is the appointment's id, or None
      when no appointment is given. */
  function ScheduleData(a: AvailabilityData, appointment: Option<Uuid>): (r: Result<AvailabilityData>)
  {
    if a.available then Err(AlreadyFilledMsg)
    else if appointment.None? then Err("appointment")
    else Ok(a.(available := true, appointmentId := appointment))
  }

  /** What `schedule` does, both ways: it succeeds exactly on a slot that is
      not available and a defined appointment, the availability check coming
      first; on success only the flag and the appointment id change. */
  lemma ScheduleSpec(a: AvailabilityData, appointment: Option<Uuid>)
    ensures ScheduleData(a, appointment).Ok? <==> !a.available && appointment.Some?
    ensures a.available ==> ScheduleData(a, appointment) == Err(AlreadyFilledMsg)
    ensures ScheduleData(a, appointment).Ok? ==>
      var b := ScheduleData(a, appointment).value;
      b.available && b.appointmentId == appointment && b.id == a.id && b.date == a.date
  {
  }

  /** A slot that was just scheduled cannot be scheduled again. */
  lemma ScheduleTwiceFails(a: AvailabilityData, first: Option<Uuid>, second: Option<Uuid>)
    requires ScheduleData(a, first).Ok?
    ensures ScheduleData(ScheduleData(a, first).value, second) == Err(AlreadyFilledMsg)
  {
  }

  /** The entity, whose fields `schedule` overwrites in place. */
  class Availability {
    const id: Uuid
    const date: DateTime
    var appointmentId: Option<Uuid>
    var available: bool

    function Data(): AvailabilityData
      reads this
    {
      AvailabilityData(id, date, appointmentId, available)
    }

    constructor (data: AvailabilityData)
      ensures Data() == data
    {
      id := data.id;
      date := data.date;
      appointmentId := data.appointmentId;
      available := data.available;
    }

    /** `schedule`: on failure the slot is left as it was. */
    method Schedule(appointment: Option<Uuid>) returns (r: Outcome)
      modifies this
      ensures ScheduleData(old(Data()), appointment).Ok? ==>
        r == Done && Data() == ScheduleData(old(Data()), appointment).value
      ensures ScheduleData(old(Data()), appointment).Err? ==>
        r == Raised(ScheduleData(old(Data()), appointment).msg) && Data() == old(Data())
    {
      if available {
        return Raised(AlreadyFilledMsg);
      }
      if appointment.None? {
        return Raised("appointment");
      }
      available := true;
      appointmentId := appointment;
      return Done;
    }
  }

  /** Constructing the entity: the guard on the date, then the fields. */
  method NewAvailability(date: Option<DateTime>, appointmentId: Option<Uuid>, available: bool,
                         id: Option<Uuid>, generated: Uuid) returns (r: Result<Availability>)
    ensures r.Err? <==> date.None?
    ensures r.Ok? ==> (fresh(r.value) &&
      r.value.Data() == NewAvailabilityData(date, appointmentId, available, id, generated).value)
  {
    var data :- NewAvailabilityData(date, appointmentId, available, id, generated);
    var a := new Availability(data);
    return Ok(a);
  }

  /** By default a new slot is available and holds no appointment. */
  lemma NewSlotDefaults(date: DateTime, generated: Uuid)
    ensures var r := NewAvailabilityData(Some(date), None, true, None, generated);
      r.Ok? && r.value.available && r.value.appointmentId.None? && r.value.date == date
  {
  }
}
