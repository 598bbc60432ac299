/** An appointment between a patient and a psychologist. Its status moves
    with `confirm`, `cancel` and `complete`, which accept any prior status.
    The fields are those the callers and the document use: the parties' ids,
    the value, the payment and the reserved slot. */
module Appointment {
  import opened Common
  import opened PixPayment

  const DefaultDurationMin: int := 50
  const DurationMsg: string := "Duration must be positive"

  datatype Status = Scheduled | Confirmed | Canceled | Completed

  /** The enum value stored for a status. */
  function StatusValue(s: Status): string {
    match s
    case Scheduled => "scheduled"
    case Confirmed => "confirmed"
    case Canceled => "canceled"
    case Completed => "completed"
  }

  /** `AppointmentStatusEnum(value)`. The message quotes the value as
      `repr` does when it holds no apostrophe; `repr`'s switch to double
      quotes and its escapes are not part of this model. */
  function ParseStatus(v: string): (r: Result<Status>)
    ensures r.Err? ==> r.msg == "'" + v + "' is not a valid AppointmentStatusEnum"
  {
    if v == "scheduled" then Ok(Scheduled)
    else if v == "confirmed" then Ok(Confirmed)
    else if v == "canceled" then Ok(Canceled)
    else if v == "completed" then Ok(Completed)
    else Err("'" + v + "' is not a valid AppointmentStatusEnum")
  }

  /** The lookup and the value are inverse to each other, both ways. */
  lemma StatusRoundTrip(s: Status, v: string)
    ensures ParseStatus(StatusValue(s)) == Ok(s)
    ensures ParseStatus(v).Ok? ==> StatusValue(ParseStatus(v).value) == v
  {
  }

  datatype AppointmentData = AppointmentData(
    id: Uuid,
    date: DateTime,
    patientId: Uuid,
    psychologistId: Uuid,
    value: real,
    pixPayment: PixPayment,
    durationMin: int,
    status: Status,
    availabilityId: Option<Uuid>)

  /** The constructor: a duration of zero or less is refused. */
  function NewAppointmentData(date: DateTime, patientId: Uuid, psychologistId: Uuid, value: real,
                              pixPayment: PixPayment, durationMin: int, status: Status,
                              availabilityId: Option<Uuid>, id: Option<Uuid>, generated: Uuid)
    : (r: Result<AppointmentData>)
    ensures r.Err? <==> durationMin <= 0
    ensures r.Err? ==> r.msg == DurationMsg
    ensures r.Ok? ==> r.value == AppointmentData(ResolveId(id, generated), date, patientId, psychologistId,
                                                 value, pixPayment, durationMin, status, availabilityId)
  {
    if durationMin <= 0 then Err(DurationMsg)
    else Ok(AppointmentData(ResolveId(id, generated), date, patientId, psychologistId, value, pixPayment,
                            durationMin, status, availabilityId))
  }

  /** With the defaults the appointment is SCHEDULED and lasts 50 minutes. */
  lemma Defaults(date: DateTime, patientId: Uuid, psychologistId: Uuid, value: real, pixPayment: PixPayment,
                 generated: Uuid)
    ensures var r := NewAppointmentData(date, patientId, psychologistId, value, pixPayment,
                                        DefaultDurationMin, Scheduled, None, None, generated);
      r.Ok? && r.value.status == Scheduled && r.value.durationMin == 50 && r.value.id == generated
  {
  }

  /** The entity, whose status the transitions overwrite in place. */
  class Appointment {
    const id: Uuid
    const date: DateTime
    const patientId: Uuid
    const psychologistId: Uuid
    const value: real
    const pixPayment: PixPayment
    const durationMin: int
    var status: Status
    const availabilityId: Option<Uuid>

    function Data(): AppointmentData
      reads this
    {
      AppointmentData(id, date, patientId, psychologistId, value, pixPayment, durationMin, status, availabilityId)
    }

    constructor (data: AppointmentData)
      ensures Data() == data
    {
      id := data.id;
      date := data.date;
      patientId := data.patientId;
      psychologistId := data.psychologistId;
      value := data.value;
      pixPayment := data.pixPayment;
      durationMin := data.durationMin;
      status := data.status;
      availabilityId := data.availabilityId;
    }

    /** `confirm`: CONFIRMED from any status; nothing else changes. */
    method Confirm()
      modifies this
      ensures Data() == old(Data()).(status := Confirmed)
    {
      status := Confirmed;
    }

    /** `cancel`: CANCELED from any status; nothing else changes. */
    method Cancel()
      modifies this
      ensures Data() == old(Data()).(status := Canceled)
    {
      status := Canceled;
    }

    /** `complete`: COMPLETED from any status; nothing else changes. */
    method Complete()
      modifies this
      ensures Data() == old(Data()).(status := Completed)
    {
      status := Completed;
    }
  }

  /** Constructing the entity: the duration guard, then the fields. */
  method NewAppointment(date: DateTime, patientId: Uuid, psychologistId: Uuid, value: real,
                        pixPayment: PixPayment, durationMin: int, status: Status,
                        availabilityId: Option<Uuid>, id: Option<Uuid>, generated: Uuid)
    returns (r: Result<Appointment>)
    ensures r.Err? <==> durationMin <= 0
    ensures r.Ok? ==> (fresh(r.value) && r.value.Data() ==
      NewAppointmentData(date, patientId, psychologistId, value, pixPayment, durationMin, status,
                         availabilityId, id, generated).value)
  {
    var data :- NewAppointmentData(date, patientId, psychologistId, value, pixPayment, durationMin, status,
                                   availabilityId, id, generated);
    var a := new Appointment(data);
    return Ok(a);
  }

  /** The transitions have no guards: each reaches its status from every
      status, so a canceled appointment can still be confirmed or completed,
      and applying one twice is applying it once. */
  method TransitionsIgnorePriorStatus(data: AppointmentData) returns (a: Appointment)
    ensures fresh(a) && a.Data() == data.(status := Completed)
  {
    a := new Appointment(data);
    a.Cancel();
    a.Confirm();
    a.Confirm();
    assert a.Data() == data.(status := Confirmed);
    a.Complete();
  }
}
