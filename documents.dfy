/** The stored shapes of the entities: the fields each document keeps. */
module Documents {
  import opened Common
  import opened Geography
  import U = User

  /** A slot as stored: it keeps no appointment id. */
  datatype AvailabilityDocument = AvailabilityDocument(id: Uuid, date: DateTime, available: bool)

  /** A payment as stored, its status as the enum's string. */
  datatype PixPaymentDocument = PixPaymentDocument(id: Uuid, amount: real, providerPaymentId: string,
                                                   pixPayload: string, expiresAt: DateTime, status: string)

  /** An appointment as stored, with its payment embedded and its status as
      a string. */
  datatype AppointmentDocument = AppointmentDocument(
    id: Uuid,
    date: DateTime,
    patientId: Uuid,
    psychologistId: Uuid,
    value: real,
    pixPayment: PixPaymentDocument,
    durationMin: int,
    status: string,
    availabilityId: Option<Uuid>)

  datatype ContentDocument = ContentDocument(id: Uuid, title: string, body: string, authorId: Uuid,
                                             createdAt: DateTime)

  datatype SpecialtyDocument = SpecialtyDocument(id: Uuid, name: string, description: string)

  /** An approach as stored; `id` is None when the document's id is
      falsy. */
  datatype ApproachDocument = ApproachDocument(id: Option<Uuid>, name: string, description: string)

  datatype StateDocument = StateDocument(id: Uuid, name: string, abbreviation: string)

  /** The fields every user document has. The birth date is the day number
      the ISO text denotes; the city is held as the domain value. */
  datatype UserDocument = UserDocument(
    id: Uuid,
    name: string,
    email: string,
    passwordHash: string,
    cpf: string,
    phoneNumber: string,
    birthDate: int,
    gender: U.Gender,
    city: City,
    profilePicture: Option<string>)

  /** A psychologist document: the user fields and the professional ones. */
  datatype PsychologistDocument = PsychologistDocument(
    user: UserDocument,
    crp: string,
    specialties: seq<SpecialtyDocument>,
    approaches: seq<ApproachDocument>,
    audiences: seq<string>,
    valuePerAppointment: real,
    description: Option<string>,
    availabilities: Option<seq<AvailabilityDocument>>)
}
