/** The appointment, content and patient use cases, over repositories held
    as maps from id to entity. Every repository write is also appended to
    `writes`, so that the order of persistence and "nothing persisted" can
    be stated. Domain operations that the callers use but the domain does
    not define (booking a slot by date, freeing a slot, rescheduling and
    marking a payment as sent) are parameters. */
module UseCases {
  import opened Common
  import opened Availability
  import Appt = Appointment
  import Pix = PixPayment
  import C = Content
  import U = User
  import Psy = Psychologist
  import Store

  const AppointmentNotFoundMsg: string := "Appointment not found."
  const NotAllowedToCancelMsg: string := "Not authorized to cancel this appointment."
  const NotAllowedToRescheduleMsg: string := "Not authorized to reschedule this appointment."
  const PastDateMsg: string := "Cannot reschedule to a past date."
  const PatientNotFoundMsg: string := "Patient not found."
  const PsychologistNotFoundMsg: string := "Psychologist not found."
  const BookingNotFoundMsg: string := "Agendamento não encontrado"
  const NoPermissionMsg: string := "Você não tem permissão para modificar este agendamento"
  const OnlyPsychologistsMsg: string := "Only psychologists can create content"
  const ContentNotFoundMsg: string := "Conteúdo não encontrado"
  const OnlyAuthorUpdatesMsg: string := "Apenas o autor pode atualizar este conteúdo"
  const OnlyAuthorDeletesMsg: string := "Apenas o autor pode deletar este conteúdo"
  const OwnAccountMsg: string := "You can only delete your own account."
  const DeleteFailedMsg: string := "Failed to delete patient."

  /** The default session length of a new appointment, in minutes. */
  const DefaultDuration: int := 50

  /** One call into a repository that changes it. */
  datatype Write =
    | AppointmentCreated(appointment: Appt.AppointmentData)
    | AppointmentSaved(appointment: Appt.AppointmentData)
    | PsychologistSaved(psychologist: Psy.PsychologistData)
    | ContentCreated(content: C.ContentData)
    | ContentSaved(content: C.ContentData)
    | ContentDeleted(contentId: Uuid)
    | PatientDeleted(patientId: Uuid)

  /** What booking a slot by date gives: the slot's id and the psychologist
      as the booking left it. */
  datatype Booking = Booking(slotId: Uuid, psychologist: Psy.PsychologistData)

  /** The psychologist after the first slot with id `slotId` is freed, or
      None when no slot has that id (or there are no slots). */
  function FreeSlot(p: Psy.PsychologistData, slotId: Uuid, unschedule: AvailabilityData -> AvailabilityData)
    : (r: Option<Psy.PsychologistData>)
  {
    if p.availabilities.None? then None
    else
      var slots := p.availabilities.value;
      var k := Store.FirstIndex(slots, (s: AvailabilityData) => s.id == slotId);
      if k.None? then None
      else Some(p.(availabilities := Some(slots[k.value := unschedule(slots[k.value])])))
  }

  /** Freeing touches one slot: the first with the id. Every other slot, the
      number of slots and the rest of the psychologist stay as they were;
      there is nothing to free exactly when no slot has the id. */
  lemma FreeSlotSpec(p: Psy.PsychologistData, slotId: Uuid, unschedule: AvailabilityData -> AvailabilityData)
    ensures FreeSlot(p, slotId, unschedule).None? <==>
      p.availabilities.None? || forall j :: 0 <= j < |p.availabilities.value| ==> p.availabilities.value[j].id != slotId
    ensures FreeSlot(p, slotId, unschedule).Some? ==>
      var q := FreeSlot(p, slotId, unschedule).value;
      var slots := p.availabilities.value;
      q.user == p.user && q.crp == p.crp && q.valuePerAppointment == p.valuePerAppointment &&
      q.availabilities.Some? && |q.availabilities.value| == |slots| &&
      exists k :: 0 <= k < |slots| && slots[k].id == slotId &&
        (forall j :: 0 <= j < k ==> slots[j].id != slotId) &&
        q.availabilities.value[k] == unschedule(slots[k]) &&
        forall j :: 0 <= j < |slots| && j != k ==> q.availabilities.value[j] == slots[j]
  {
    if p.availabilities.Some? {
      var slots := p.availabilities.value;
      var k := Store.FirstIndex(slots, (s: AvailabilityData) => s.id == slotId);
      if k.Some? {
        assert slots[k.value].id == slotId;
      }
    }
  }

  /** The loop `for av in availabilities: if av.id == slot_id:
      av.unschedule(); ...; break`. */
  method FreeFirstSlot(p: Psy.PsychologistData, slotId: Uuid, unschedule: AvailabilityData -> AvailabilityData)
    returns (r: Option<Psy.PsychologistData>)
    ensures r == FreeSlot(p, slotId, unschedule)
  {
    if p.availabilities.None? {
      return None;
    }
    var slots := p.availabilities.value;
    ghost var hit := (s: AvailabilityData) => s.id == slotId;
    var i := 0;
    while i < |slots|
      invariant 0 <= i <= |slots|
      invariant forall j :: 0 <= j < i ==> slots[j].id != slotId
    {
      if slots[i].id == slotId {
        FirstIndexIs(slots, hit, i);
        return Some(p.(availabilities := Some(slots[i := unschedule(slots[i])])));
      }
      i := i + 1;
    }
    FirstIndexNone(slots, hit);
    return None;
  }

  lemma FirstIndexIs<T>(s: seq<T>, hit: T -> bool, i: nat)
    requires i < |s| && hit(s[i]) && forall j :: 0 <= j < i ==> !hit(s[j])
    ensures Store.FirstIndex(s, hit) == Some(i)
  {
  }

  lemma FirstIndexNone<T>(s: seq<T>, hit: T -> bool)
    requires forall j :: 0 <= j < |s| ==> !hit(s[j])
    ensures Store.FirstIndex(s, hit).None?
  {
  }

  /** Who may cancel or reschedule: the appointment's patient or its
      psychologist. */
  predicate IsParty(a: Appt.AppointmentData, requester: Uuid) {
    requester == a.patientId || requester == a.psychologistId
  }

  /** The psychologist a cancellation saves, if any: the one whose slot it
      frees. */
  function CancelFrees(psychologists: map<Uuid, Psy.PsychologistData>, a: Appt.AppointmentData,
                       unschedule: AvailabilityData -> AvailabilityData): (r: Option<Psy.PsychologistData>)
    ensures r.Some? ==> a.availabilityId.Some? && a.psychologistId in psychologists &&
                        r == FreeSlot(psychologists[a.psychologistId], a.availabilityId.value, unschedule)
    ensures a.availabilityId.None? || a.psychologistId !in psychologists ==> r.None?
  {
    if a.availabilityId.Some? && a.psychologistId in psychologists then
      FreeSlot(psychologists[a.psychologistId], a.availabilityId.value, unschedule)
    else None
  }

  class Backend {
    var appointments: map<Uuid, Appt.AppointmentData>
    var psychologists: map<Uuid, Psy.PsychologistData>
    var patients: map<Uuid, U.UserData>
    var contents: map<Uuid, C.ContentData>
    var writes: seq<Write>

    constructor (appointments: map<Uuid, Appt.AppointmentData>, psychologists: map<Uuid, Psy.PsychologistData>,
                 patients: map<Uuid, U.UserData>, contents: map<Uuid, C.ContentData>)
      ensures this.appointments == appointments && this.psychologists == psychologists
      ensures this.patients == patients && this.contents == contents && writes == []
    {
      this.appointments := appointments;
      this.psychologists := psychologists;
      this.patients := patients;
      this.contents := contents;
      writes := [];
    }

    /** `appointment_repo.update`. */
    method SaveAppointment(a: Appt.AppointmentData)
      modifies this
      ensures appointments == old(appointments)[a.id := a] && writes == old(writes) + [AppointmentSaved(a)]
      ensures psychologists == old(psychologists) && patients == old(patients) && contents == old(contents)
    {
      appointments := appointments[a.id := a];
      writes := writes + [AppointmentSaved(a)];
    }

    /** `psychologist_repo.update`. */
    method SavePsychologist(p: Psy.PsychologistData)
      modifies this
      ensures psychologists == old(psychologists)[p.user.id := p] && writes == old(writes) + [PsychologistSaved(p)]
      ensures appointments == old(appointments) && patients == old(patients) && contents == old(contents)
    {
      psychologists := psychologists[p.user.id := p];
      writes := writes + [PsychologistSaved(p)];
    }

    /** Cancelling: the appointment must exist and the requester be one of
        its parties; the status becomes CANCELED whatever it was; the first
        slot with the appointment's slot id is freed and the psychologist
        saved, and then the appointment is saved. */
    method Cancel(appointmentId: Uuid, requester: Uuid, unschedule: AvailabilityData -> AvailabilityData)
      returns (r: Result<Appt.AppointmentData>)
      modifies this
      ensures appointmentId !in old(appointments) ==> r == Err(AppointmentNotFoundMsg) && unchanged(this)
      ensures appointmentId in old(appointments) && !IsParty(old(appointments)[appointmentId], requester) ==>
        r == Err(NotAllowedToCancelMsg) && unchanged(this)
      ensures appointmentId in old(appointments) && IsParty(old(appointments)[appointmentId], requester) ==>
        var a := old(appointments)[appointmentId].(status := Appt.Canceled);
        var freed := CancelFrees(old(psychologists), a, unschedule);
        r == Ok(a) &&
        appointments == old(appointments)[a.id := a] &&
        psychologists == (if freed.Some? then old(psychologists)[freed.value.user.id := freed.value]
                          else old(psychologists)) &&
        writes == old(writes) + (if freed.Some? then [PsychologistSaved(freed.value)] else []) +
                  [AppointmentSaved(a)] &&
        patients == old(patients) && contents == old(contents)
    {
      if appointmentId !in appointments {
        return Err(AppointmentNotFoundMsg);
      }
      var appointment := new Appt.Appointment(appointments[appointmentId]);
      if requester != appointment.patientId && requester != appointment.psychologistId {
        return Err(NotAllowedToCancelMsg);
      }
      appointment.Cancel();
      var a := appointment.Data();
      if a.availabilityId.Some? && a.psychologistId in psychologists {
        var freed := FreeFirstSlot(psychologists[a.psychologistId], a.availabilityId.value, unschedule);
        if freed.Some? {
          SavePsychologist(freed.value);
        }
      }
      SaveAppointment(a);
      return Ok(a);
    }

    /** Rescheduling: after the appointment, party and past-date checks and
        the psychologist lookup, the new slot is booked before the old one
        is freed, so a failed booking persists nothing; the psychologist is
        saved before the appointment. */
    method Reschedule(appointmentId: Uuid, newDate: DateTime, requester: Uuid, now: DateTime,
                      book: (Psy.PsychologistData, DateTime) -> Result<Booking>,
                      unschedule: AvailabilityData -> AvailabilityData,
                      reschedule: (Appt.AppointmentData, DateTime, Uuid) -> Appt.AppointmentData)
      returns (r: Result<Appt.AppointmentData>)
      modifies this
      ensures appointmentId !in old(appointments) ==> r == Err(AppointmentNotFoundMsg) && unchanged(this)
      ensures appointmentId in old(appointments) && !IsParty(old(appointments)[appointmentId], requester) ==>
        r == Err(NotAllowedToRescheduleMsg) && unchanged(this)
      ensures appointmentId in old(appointments) && IsParty(old(appointments)[appointmentId], requester) &&
              Ticks(newDate) < Ticks(now) ==>
        r == Err(PastDateMsg) && unchanged(this)
      ensures appointmentId in old(appointments) && IsParty(old(appointments)[appointmentId], requester) &&
              Ticks(newDate) >= Ticks(now) && old(appointments)[appointmentId].psychologistId !in old(psychologists) ==>
        r == Err(PsychologistNotFoundMsg) && unchanged(this)
      ensures appointmentId in old(appointments) && IsParty(old(appointments)[appointmentId], requester) &&
              Ticks(newDate) >= Ticks(now) && old(appointments)[appointmentId].psychologistId in old(psychologists) ==>
        var a := old(appointments)[appointmentId];
        var booked := book(old(psychologists)[a.psychologistId], newDate);
        (booked.Err? ==> r == Err(booked.msg) && unchanged(this)) &&
        (booked.Ok? ==>
          var p := booked.value.psychologist;
          var freed := if a.availabilityId.Some? then FreeSlot(p, a.availabilityId.value, unschedule) else None;
          var saved := if freed.Some? then freed.value else p;
          var moved := reschedule(a, newDate, booked.value.slotId);
          r == Ok(moved) &&
          psychologists == old(psychologists)[saved.user.id := saved] &&
          appointments == old(appointments)[moved.id := moved] &&
          writes == old(writes) + [PsychologistSaved(saved), AppointmentSaved(moved)] &&
          patients == old(patients) && contents == old(contents))
    {
      if appointmentId !in appointments {
        return Err(AppointmentNotFoundMsg);
      }
      var a := appointments[appointmentId];
      if requester != a.patientId && requester != a.psychologistId {
        return Err(NotAllowedToRescheduleMsg);
      }
      if Ticks(newDate) < Ticks(now) {
        return Err(PastDateMsg);
      }
      if a.psychologistId !in psychologists {
        return Err(PsychologistNotFoundMsg);
      }
      var booked := book(psychologists[a.psychologistId], newDate);
      if booked.Err? {
        return Err(booked.msg);
      }
      var p := booked.value.psychologist;
      if a.availabilityId.Some? {
        var freed := FreeFirstSlot(p, a.availabilityId.value, unschedule);
        if freed.Some? {
          p := freed.value;
        }
      }
      var moved := reschedule(a, newDate, booked.value.slotId);
      SavePsychologist(p);
      SaveAppointment(moved);
      return Ok(moved);
    }

    /** Requesting an appointment: patient first, then psychologist, then a
        slot booked on the date. The new appointment is SCHEDULED, lasts the
        default duration and is priced, together with its PIX charge, at
        the psychologist's value per appointment. It is created before the
        psychologist is saved. */
    method Solicit(date: DateTime, psychologistId: Uuid, patientId: Uuid, now: DateTime,
                   book: (Psy.PsychologistData, DateTime) -> Result<Booking>, pixId: Uuid, appointmentId: Uuid)
      returns (r: Result<Appt.AppointmentData>)
      modifies this
      ensures patientId !in old(patients) ==> r == Err(PatientNotFoundMsg) && unchanged(this)
      ensures patientId in old(patients) && psychologistId !in old(psychologists) ==>
        r == Err(PsychologistNotFoundMsg) && unchanged(this)
      ensures patientId in old(patients) && psychologistId in old(psychologists) ==>
        var p := old(psychologists)[psychologistId];
        var booked := book(p, date);
        (booked.Err? ==> r == Err(booked.msg) && unchanged(this)) &&
        (booked.Ok? && p.valuePerAppointment <= 0.0 ==> r == Err(Pix.AmountMsg) && unchanged(this)) &&
        (booked.Ok? && p.valuePerAppointment > 0.0 ==>
          r.Ok? &&
          r.value.status == Appt.Scheduled && r.value.durationMin == DefaultDuration &&
          r.value.value == p.valuePerAppointment && r.value.pixPayment.amount == p.valuePerAppointment &&
          r.value.pixPayment.status == Pix.Pending &&
          r.value.availabilityId == Some(booked.value.slotId) && r.value.date == date &&
          r.value.patientId == old(patients)[patientId].id && r.value.psychologistId == p.user.id &&
          r.value.id == appointmentId &&
          appointments == old(appointments)[r.value.id := r.value] &&
          psychologists == old(psychologists)[booked.value.psychologist.user.id := booked.value.psychologist] &&
          writes == old(writes) + [AppointmentCreated(r.value), PsychologistSaved(booked.value.psychologist)] &&
          patients == old(patients) && contents == old(contents))
    {
      if patientId !in patients {
        return Err(PatientNotFoundMsg);
      }
      var patient := patients[patientId];
      if psychologistId !in psychologists {
        return Err(PsychologistNotFoundMsg);
      }
      var p := psychologists[psychologistId];
      var booked := book(p, date);
      if booked.Err? {
        return Err(booked.msg);
      }
      var pix := Pix.NewPixPayment(p.valuePerAppointment, "to do", "to do", now, Pix.Pending, None, pixId);
      if pix.Err? {
        return Err(pix.msg);
      }
      var made := Appt.NewAppointmentData(date, patient.id, p.user.id, p.valuePerAppointment, pix.value,
                                          DefaultDuration, Appt.Scheduled, Some(booked.value.slotId),
                                          None, appointmentId);
      var a := made.value;
      appointments := appointments[a.id := a];
      writes := writes + [AppointmentCreated(a)];
      SavePsychologist(booked.value.psychologist);
      return Ok(a);
    }

    /** Confirming a payment: only the appointment's psychologist may; the
        status becomes CONFIRMED whatever it was, then it is saved. */
    method ConfirmPayment(appointmentId: Uuid, psychologistId: Uuid) returns (r: Result<Appt.AppointmentData>)
      modifies this
      ensures appointmentId !in old(appointments) ==> r == Err(BookingNotFoundMsg) && unchanged(this)
      ensures appointmentId in old(appointments) && old(appointments)[appointmentId].psychologistId != psychologistId ==>
        r == Err(NoPermissionMsg) && unchanged(this)
      ensures appointmentId in old(appointments) && old(appointments)[appointmentId].psychologistId == psychologistId ==>
        var a := old(appointments)[appointmentId].(status := Appt.Confirmed);
        r == Ok(a) && appointments == old(appointments)[a.id := a] && writes == old(writes) + [AppointmentSaved(a)] &&
        psychologists == old(psychologists) && patients == old(patients) && contents == old(contents)
    {
      if appointmentId !in appointments {
        return Err(BookingNotFoundMsg);
      }
      var appointment := new Appt.Appointment(appointments[appointmentId]);
      if appointment.psychologistId != psychologistId {
        return Err(NoPermissionMsg);
      }
      appointment.Confirm();
      var a := appointment.Data();
      SaveAppointment(a);
      return Ok(a);
    }

    /** Completing: only the appointment's psychologist may; the status
        becomes COMPLETED whatever it was, CANCELED included. */
    method Complete(appointmentId: Uuid, psychologistId: Uuid) returns (r: Result<Appt.AppointmentData>)
      modifies this
      ensures appointmentId !in old(appointments) ==> r == Err(BookingNotFoundMsg) && unchanged(this)
      ensures appointmentId in old(appointments) && old(appointments)[appointmentId].psychologistId != psychologistId ==>
        r == Err(NoPermissionMsg) && unchanged(this)
      ensures appointmentId in old(appointments) && old(appointments)[appointmentId].psychologistId == psychologistId ==>
        var a := old(appointments)[appointmentId].(status := Appt.Completed);
        r == Ok(a) && appointments == old(appointments)[a.id := a] && writes == old(writes) + [AppointmentSaved(a)] &&
        psychologists == old(psychologists) && patients == old(patients) && contents == old(contents)
    {
      if appointmentId !in appointments {
        return Err(BookingNotFoundMsg);
      }
      var appointment := new Appt.Appointment(appointments[appointmentId]);
      if appointment.psychologistId != psychologistId {
        return Err(NoPermissionMsg);
      }
      appointment.Complete();
      var a := appointment.Data();
      SaveAppointment(a);
      return Ok(a);
    }

    /** Marking a payment as sent: only the appointment's patient may. */
    method MarkPaymentSent(appointmentId: Uuid, patientId: Uuid,
                           markSent: Appt.AppointmentData -> Appt.AppointmentData)
      returns (r: Result<Appt.AppointmentData>)
      modifies this
      ensures appointmentId !in old(appointments) ==> r == Err(BookingNotFoundMsg) && unchanged(this)
      ensures appointmentId in old(appointments) && old(appointments)[appointmentId].patientId != patientId ==>
        r == Err(NoPermissionMsg) && unchanged(this)
      ensures appointmentId in old(appointments) && old(appointments)[appointmentId].patientId == patientId ==>
        var a := markSent(old(appointments)[appointmentId]);
        r == Ok(a) && appointments == old(appointments)[a.id := a] && writes == old(writes) + [AppointmentSaved(a)] &&
        psychologists == old(psychologists) && patients == old(patients) && contents == old(contents)
    {
      if appointmentId !in appointments {
        return Err(BookingNotFoundMsg);
      }
      var appointment := appointments[appointmentId];
      if appointment.patientId != patientId {
        return Err(NoPermissionMsg);
      }
      var a := markSent(appointment);
      SaveAppointment(a);
      return Ok(a);
    }

    /** Creating content: the author must be a psychologist and the title
        not blank; exactly one item is added, by the requested author. */
    method CreateContent(title: string, body: string, authorId: Uuid, now: DateTime, contentId: Uuid)
      returns (r: Result<C.ContentData>)
      modifies this
      ensures authorId !in old(psychologists) ==> r == Err(OnlyPsychologistsMsg) && unchanged(this)
      ensures authorId in old(psychologists) && C.Blank(title) ==> r == Err(C.TitleMsg) && unchanged(this)
      ensures authorId in old(psychologists) && !C.Blank(title) ==>
        r == Ok(C.ContentData(contentId, title, body, authorId, now)) &&
        contents == old(contents)[contentId := r.value] && writes == old(writes) + [ContentCreated(r.value)] &&
        appointments == old(appointments) && psychologists == old(psychologists) && patients == old(patients)
    {
      if authorId !in psychologists {
        return Err(OnlyPsychologistsMsg);
      }
      var made := C.NewContentData(title, body, authorId, None, now, None, contentId);
      if made.Err? {
        return Err(made.msg);
      }
      var c := made.value;
      contents := contents[c.id := c];
      writes := writes + [ContentCreated(c)];
      return Ok(c);
    }

    /** Updating content: only its author may; title and body are both
        replaced, and a blank title persists nothing. */
    method UpdateContent(contentId: Uuid, title: string, body: string, requester: Uuid)
      returns (r: Result<C.ContentData>)
      modifies this
      ensures contentId !in old(contents) ==> r == Err(ContentNotFoundMsg) && unchanged(this)
      ensures contentId in old(contents) && old(contents)[contentId].authorId != requester ==>
        r == Err(OnlyAuthorUpdatesMsg) && unchanged(this)
      ensures contentId in old(contents) && old(contents)[contentId].authorId == requester && C.Blank(title) ==>
        r == Err(C.TitleMsg) && unchanged(this)
      ensures contentId in old(contents) && old(contents)[contentId].authorId == requester && !C.Blank(title) ==>
        var c := old(contents)[contentId].(title := title, body := body);
        r == Ok(c) && contents == old(contents)[c.id := c] && writes == old(writes) + [ContentSaved(c)] &&
        appointments == old(appointments) && psychologists == old(psychologists) && patients == old(patients)
    {
      if contentId !in contents {
        return Err(ContentNotFoundMsg);
      }
      var before := contents[contentId];
      var content := new C.Content(before);
      if content.authorId != requester {
        return Err(OnlyAuthorUpdatesMsg);
      }
      C.UpdateSpec(before, Some(title), Some(body));
      var outcome := content.Update(Some(title), Some(body));
      if outcome.Raised? {
        assert C.Blank(title);
        return Err(outcome.msg);
      }
      var c := content.Data();
      assert !C.Blank(title) && c == before.(title := title, body := body);
      contents := contents[c.id := c];
      writes := writes + [ContentSaved(c)];
      return Ok(c);
    }

    /** Deleting content: only its author may; the answer is what the
        repository reports (`deleted`), and a reported deletion removes the
        item. */
    method DeleteContent(contentId: Uuid, requester: Uuid, deleted: bool) returns (r: Result<bool>)
      modifies this
      ensures contentId !in old(contents) ==> r == Err(ContentNotFoundMsg) && unchanged(this)
      ensures contentId in old(contents) && old(contents)[contentId].authorId != requester ==>
        r == Err(OnlyAuthorDeletesMsg) && unchanged(this)
      ensures contentId in old(contents) && old(contents)[contentId].authorId == requester ==>
        r == Ok(deleted) && writes == old(writes) + [ContentDeleted(contentId)] &&
        contents == (if deleted then old(contents) - {contentId} else old(contents)) &&
        appointments == old(appointments) && psychologists == old(psychologists) && patients == old(patients)
    {
      if contentId !in contents {
        return Err(ContentNotFoundMsg);
      }
      if contents[contentId].authorId != requester {
        return Err(OnlyAuthorDeletesMsg);
      }
      if deleted {
        contents := contents - {contentId};
      }
      writes := writes + [ContentDeleted(contentId)];
      return Ok(deleted);
    }

    /** Deleting a patient: only the patient themself may; a deletion the
        repository does not report fails with an error. */
    method DeletePatient(patientId: Uuid, requester: Uuid, deleted: bool) returns (r: Result<bool>)
      modifies this
      ensures patientId !in old(patients) ==> r == Err(PatientNotFoundMsg) && unchanged(this)
      ensures patientId in old(patients) && old(patients)[patientId].id != requester ==>
        r == Err(OwnAccountMsg) && unchanged(this)
      ensures patientId in old(patients) && old(patients)[patientId].id == requester ==>
        writes == old(writes) + [PatientDeleted(patientId)] &&
        (deleted ==> r == Ok(true) && patients == old(patients) - {patientId}) &&
        (!deleted ==> r == Err(DeleteFailedMsg) && patients == old(patients)) &&
        appointments == old(appointments) && psychologists == old(psychologists) && contents == old(contents)
    {
      if patientId !in patients {
        return Err(PatientNotFoundMsg);
      }
      if patients[patientId].id != requester {
        return Err(OwnAccountMsg);
      }
      if deleted {
        patients := patients - {patientId};
      }
      writes := writes + [PatientDeleted(patientId)];
      if !deleted {
        return Err(DeleteFailedMsg);
      }
      return Ok(true);
    }
  }
}
