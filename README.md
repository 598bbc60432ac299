# Psychologist booking back end — a Dafny model of its core

This project models the logic of a FastAPI/MongoDB back end in which patients find psychologists, book sessions and pay by PIX. Everything else in that back end is HTTP, dependency and database wiring, and is left out. The model covers:

- **Value objects.** These are the validators for:
  - the CPF taxpayer number, with its mod-11 check digits;
  - the password policy;
  - the CRP registration number;
  - the Brazilian phone number;
  - the "empty string to None" normaliser used by query filters.
- **Pagination.** `Pageable` covers offset, limit, next, previous and sort normalisation. `Page` covers total pages and next/previous.
- **Domain entities.**
  - `Availability`, `Appointment`, `Content` and `User` change their own fields. They are Dafny classes whose mutators are specified against pure functions of their field values.
  - `PixPayment`, `Psychologist`, `Specialty`, `Approach` and `State` are only built and read. They are datatypes with `Result`-returning constructors.
- **In-memory repositories** (psychologists, availabilities, patients, specialties). Each is a class over a `seq`: it appends, replaces the first item with an equal id, finds the first match, runs a chain of filters and slices one page.
- **The relevance ranking** of the Mongo psychologist repository. A weighted score per candidate comes from gender, price and set overlaps. Candidates are sorted by descending score, then one page is skipped and limited.
- **The seed slot generator.** It emits every working hour of every weekday in a run of days.
- **Document mappers.** Each domain↔document pair comes with its round trip, including the ways it loses information.
- **Use cases.** These cover cancel, reschedule, solicit, confirm payment, complete, mark payment sent, create/update/delete content and delete patient. They run over repositories held as maps, with a log of writes so that the order of persistence can be stated.
- **The message translation script.** It rewrites quoted English messages into Portuguese.

Ids are modelled as `Uuid(value: nat)`. Dates are `DateTime` records with a day number. Floats are `real`. "Now", freshly generated ids, the e-mail check and the domain methods that callers use but that the domain classes do not define are all parameters.

## Model

| member | source | states |
|---|---|---|
| Common.ResolveId | src/domain/common/entity.py:11-12 | A given id is kept; a missing one is replaced by the freshly generated id |
| Common.Lower | src/application/common/pageable.py:42 | Lower-casing keeps the length, maps each character on its own, and leaves no upper-case letter |
| Common.LowerIdempotent | src/application/common/pageable.py:42 | Lower-casing a lower-cased string changes nothing |
| Common.StripIdempotent | src/domain/value_objects/crp.py:16 | A stripped string has no whitespace at either end, and stripping it again changes nothing |
| Common.Slice | src/infra/repos/in_memory/psychologist_repo.py:66-68 | Python's `s[start:stop]`: the elements from start up to stop, clipped to the sequence, so the window never exceeds stop - start elements |
| Cpf.KeepDigits | src/domain/value_objects/cpf.py:13 | Keeping only the digits yields a digit string no longer than the input |
| Cpf.KeepDigitsOfDigits | src/domain/value_objects/cpf.py:13 | A string of digits is kept whole |
| Cpf.KeepDigitsAppend | src/domain/value_objects/cpf.py:13 | Digit filtering distributes over concatenation |
| Cpf.CalcDigit | src/domain/value_objects/cpf.py:17-20 | A computed check digit is a single decimal digit |
| Cpf.CalcDigitIsStandard | src/domain/value_objects/cpf.py:17-20 | The source's `(10·s) mod 11, 10 → 0` equals the usual rule (0 when s mod 11 < 2, else 11 − s mod 11) for every digit string and length |
| Cpf.ValidateCpf | src/domain/value_objects/cpf.py:12-25 | An accepted CPF is stored as the input's digits only; a rejection carries "Invalid CPF format" or "Invalid CPF number" |
| Cpf.ValidateIgnoresNonDigits | src/domain/value_objects/cpf.py:13 | Punctuation and other non-digits never change the verdict: the input is judged as its digit string |
| Cpf.AcceptedIff | src/domain/value_objects/cpf.py:14-23 | Accepted exactly when the digit string has 11 digits, not all equal, and both check digits match |
| Cpf.WrongLengthRejected | src/domain/value_objects/cpf.py:14-15 | Any input whose digit string is not 11 long is rejected as a format error |
| Cpf.SumOfEqualDigits | src/domain/value_objects/cpf.py:18 | When every digit is d, the weighted sum is d times the sum of the weights |
| Cpf.RepeatedSums | src/domain/value_objects/cpf.py:17-23 | Eleven equal digits satisfy both check-digit equations |
| Cpf.RepeatedDigitsRejected | src/domain/value_objects/cpf.py:14-15 | Eleven equal digits pass the check-digit arithmetic, yet are rejected as a format error |
| Cpf.Idempotent | src/domain/value_objects/cpf.py:12-25 | Re-validating an accepted value gives the same value back |
| Cpf.Accepts | src/domain/value_objects/cpf.py:12-25 | An input whose digits form an 11-digit, non-repeated string with valid check digits is accepted as that string |
| Cpf.KnownSums | src/domain/value_objects/cpf.py:18 | The weighted sums of 86231101533 are 195 (nine digits) and 228 (ten digits) |
| Cpf.KnownChecks | src/domain/value_objects/cpf.py:17-23 | 86231101533 satisfies both check-digit equations |
| Cpf.KnownValid | src/domain/value_objects/cpf.py:12-25 | "86231101533" is accepted unchanged |
| Cpf.Punctuate | src/domain/value_objects/cpf.py:13 | The display form `ddd.ddd.ddd-dd` of 11 digits is 14 characters with the separators in place |
| Cpf.PunctuationDropped | src/domain/value_objects/cpf.py:13 | The display form's digits are the original digits |
| Cpf.SeparatorDropped | src/domain/value_objects/cpf.py:13 | A non-digit separator between a prefix and a digit run is dropped |
| Cpf.PunctuatedAccepted | src/domain/value_objects/cpf.py:13-25 | Every accepted CPF is also accepted in punctuated form and stored as the same digits (so "862.311.015-33" is judged as "86231101533") |
| Password.ValidatePassword | src/domain/value_objects/password.py:24-49 | An accepted value is returned unmodified; a hashed value is always accepted |
| Password.NewPassword | src/domain/value_objects/password.py:18-49 | A password object is built exactly when validation accepts, holds the hashed flag and the value, and carries validation's error otherwise |
| Password.AcceptedIffStrong | src/domain/value_objects/password.py:29-49 | A plain password is accepted iff its length is 6..20 and it has a digit, an upper-case letter, a lower-case letter and one of the special characters |
| Password.ErrorIsFirstBrokenRule | src/domain/value_objects/password.py:29-47 | Each error message appears exactly when its rule is the first broken one, in the order length, digit, upper, lower, special |
| Password.MessagesDistinct | src/domain/value_objects/password.py:30-47 | The five messages are pairwise different, so the message identifies the broken rule |
| Password.SpecialMessageListsTheSet | src/domain/value_objects/password.py:8-47 | The special-character message lists the set's characters once each, in sorted order |
| Password.Examples | src/domain/value_objects/password.py:25-49 | "AcC123456*" is accepted; "abc" fails on length; "abcdefg" fails on the digit rule; "abc" is accepted when hashed |
| Crp.ValidateCrp | src/domain/value_objects/crp.py:14-20 | Accepted iff the stripped input has the form two digits, "/", four or five digits; the stripped text is what is stored |
| Crp.Digits | src/domain/value_objects/crp.py:15 | A zero-padded number of the given width is that many digits |
| Crp.FormatCrp | src/domain/value_objects/crp.py:15 | A region and number rendered as a CRP are 7 or 8 characters |
| Crp.FormattedAccepted | src/domain/value_objects/crp.py:15-20 | Every well-formed CRP is accepted with any surrounding whitespace and stored without it |
| Crp.StripAround | src/domain/value_objects/crp.py:16 | Whitespace around a text that does not start or end in whitespace is exactly what strip removes |
| Crp.Idempotent | src/domain/value_objects/crp.py:14-20 | Re-validating an accepted value gives the same value |
| Crp.AcceptedShape | src/domain/value_objects/crp.py:15-20 | An accepted CRP is 7 or 8 characters with "/" at position 2 |
| Crp.AcceptsWhen | src/domain/value_objects/crp.py:16-20 | An input whose stripped form is well formed is accepted as that form |
| Crp.RejectsWhen | src/domain/value_objects/crp.py:16-19 | An input whose stripped form is malformed is rejected with the CRP message |
| Crp.ExampleAccepted | src/domain/value_objects/crp.py:14-20 | " 05/5555 " is accepted as "05/5555" |
| Crp.ExampleSeparatorSpace | src/domain/value_objects/crp.py:16-20 | " \x1c05/5555\xa0" is accepted as "05/5555": information separators and the no-break space are stripped like any whitespace |
| Crp.ExampleWide | src/domain/value_objects/crp.py:15 | "05/55555" (five-digit number) is accepted |
| Crp.ExampleRejected | src/domain/value_objects/crp.py:15-19 | "5/5555", "05/555" and "05-5555" are rejected |
| Crp.RejectedBare | src/domain/value_objects/crp.py:16-19 | A malformed value that starts and ends with a digit is rejected with the CRP message, with nothing stripped |
| Phone.CountryLength | src/domain/value_objects/phone_number.py:8 | The optional "+55" prefix with its optional space is a prefix of the text |
| Phone.ValidatePhone | src/domain/value_objects/phone_number.py:16-20 | Accepted iff the stripped input is in the phone language, and the stripped text is stored; every other input raises the phone message |
| Phone.MatchesIffLanguage | src/domain/value_objects/phone_number.py:8 | The greedy left-to-right matcher accepts exactly the strings the pattern's grammar (country, area, local parts) describes |
| Phone.MatchesInLanguage | src/domain/value_objects/phone_number.py:8 | What the matcher accepts splits into country, area and local parts |
| Phone.SplitMatches | src/domain/value_objects/phone_number.py:8 | Any split into country, area and local parts is found by the matcher |
| Phone.CountryIsForced | src/domain/value_objects/phone_number.py:8 | The country part of an accepted number is determined: only one split point works |
| Phone.AreaPartLength | src/domain/value_objects/phone_number.py:8 | An area part is empty or 2 to 5 characters |
| Phone.LocalPartLength | src/domain/value_objects/phone_number.py:8 | A local part is 8 to 10 characters and ends in a digit |
| Phone.LanguageLength | src/domain/value_objects/phone_number.py:8 | Every phone in the language is 8 to 19 characters long |
| Phone.AcceptedLength | src/domain/value_objects/phone_number.py:16-20 | Every accepted phone is stored with 8 to 19 characters |
| Phone.Idempotent | src/domain/value_objects/phone_number.py:16-20 | Re-validating an accepted phone gives the same value |
| Phone.AcceptsWhen | src/domain/value_objects/phone_number.py:16-20 | An input whose stripped form splits into the three parts is accepted as that form |
| Phone.MobileLocal | src/domain/value_objects/phone_number.py:8 | A leading 9 then four digits, an optional hyphen and four digits form a local part |
| Phone.BareAccepted | src/domain/value_objects/phone_number.py:8 | Two area digits followed by a local part are accepted (as in "71999258225") |
| Phone.PunctuatedAccepted | src/domain/value_objects/phone_number.py:8 | "+55 (" area ") " local is accepted |
| Phone.UnbalancedAccepted | src/domain/value_objects/phone_number.py:8 | An opening parenthesis without its closing one is accepted, as in "(71 99925-8225", because the two are independently optional |
| Phone.ShortRejected | src/domain/value_objects/phone_number.py:18-19 | A stripped input shorter than 8 characters is rejected |
| EmptyStr.Elements | src/infra/routers/utils.py:7 | Iterating a string yields its one-character strings; iterating a list yields its items |
| EmptyStr.ConvertEmptyStrToNone | src/infra/routers/utils.py:6-10 | The result is None or the value itself |
| EmptyStr.ConvertCases | src/infra/routers/utils.py:6-10 | "" maps to None; a list maps to None iff all its items are "" (so the empty list does); a non-empty string, a list with a non-empty item, and any non-iterable pass through |
| EmptyStr.ConvertIdempotent | src/application/filters/appointment_filters.py:8-12 | Normalising twice is normalising once |
| EmptyStr.DefaultFilters | src/application/filters/appointment_filters.py:18-24 | Every appointment filter field defaults to None |
| EmptyStr.DateField | src/application/filters/appointment_filters.py:15-20 | A date field is normalised before parsing: what normalises to None is absent, otherwise the parse decides |
| EmptyStr.MakeFilters | src/application/filters/appointment_filters.py:18-24 | Filters are built iff both dates parse, and the other fields are kept as given |
| EmptyStr.EmptyDatesGiveDefaults | src/application/filters/appointment_filters.py:8-24 | "" and all-empty lists for both dates give the default filters |
| Pageable.DirectionText | src/application/common/pageable.py:10-12 | A direction's text is "asc" or "desc" |
| Pageable.ParseDirection | src/application/common/pageable.py:42-43 | A direction is accepted iff its lower-cased text is "asc" or "desc", and it then denotes that text |
| Pageable.NormalizeItem | src/application/common/pageable.py:36-45 | Only a two-element list or tuple is accepted; its field is kept and its direction is the lower-cased text |
| Pageable.NormalizeAll | src/application/common/pageable.py:35-47 | A normalised list has one item per input item |
| Pageable.PrefixFailure | src/application/common/pageable.py:35-39 | The first bad item decides the error: nothing after it matters |
| Pageable.NormalizeSort | src/application/common/pageable.py:26-47 | The loop returns None for None, and otherwise the item-by-item normalisation or its first error |
| Pageable.NormalizeAllPointwise | src/application/common/pageable.py:35-47 | A normalised list is the items normalised one by one, in order |
| Pageable.Render | src/application/common/pageable.py:22 | Rendering sort items gives (field, direction text) pairs, one per item |
| Pageable.NormalizeRender | src/application/common/pageable.py:35-47 | Normalising rendered sort items gives them back |
| Pageable.Build | src/application/common/pageable.py:19-47 | A pageable is built iff page ≥ 1, size ≥ 1 and the sort normalises; it then holds exactly those values |
| Pageable.MakePageable | src/application/common/pageable.py:19-47 | The validator's loop builds exactly the pageable the construction rule describes, or fails with its error |
| Pageable.DefaultPageable | src/application/common/pageable.py:15-22 | The defaults are page 1, size 10, no sort; they are valid and are what the constructor builds with no arguments |
| Pageable.Offset | src/application/common/pageable.py:49-50 | The offset of a valid pageable is non-negative and is the first index after the pages before it |
| Pageable.Limit | src/application/common/pageable.py:52-53 | The limit of a valid pageable is at least 1 |
| Pageable.Next | src/application/common/pageable.py:55-56 | As written: an unsorted request moves one page on, keeping size and sort; whenever it succeeds, page and size are the next ones |
| Pageable.Previous | src/application/common/pageable.py:58-60 | As written: an unsorted request moves one page back but never below page 1; whenever it succeeds, page and size are the previous ones |
| Pageable.ResubmittedRejected | src/application/common/pageable.py:42-45 | A stored sort passed back through the validator fails at its first item: `str()` of a member, lower-cased, is neither "asc" nor "desc" |
| Pageable.SortedRequestCannotMove | src/application/common/pageable.py:55-60 | As written, next and previous of any request with a non-empty sort raise the direction guard's error for its first field |
| Pageable.MovesIffUnsorted | src/application/common/pageable.py:55-60 | As written, next and previous succeed exactly when the sort is None or empty |
| Pageable.NextByValue | src/application/common/pageable.py:55-56 | Corrected (directions passed back by value): every valid request moves one page on with the same size and sort |
| Pageable.PreviousByValue | src/application/common/pageable.py:58-60 | Corrected: every valid request moves one page back, never below page 1, with the same size and sort |
| Pageable.NextOffset | src/application/common/pageable.py:49-56 | The next page starts where this one's window ends, for the corrected next and for the as-written next whenever it succeeds |
| Pageable.PreviousNext | src/application/common/pageable.py:55-60 | Previous undoes Next; Next undoes Previous above page 1; Previous of page 1 is page 1. This holds for the corrected pair, and for the as-written pair whenever next succeeds |
| Page.PageNumber | src/application/common/page.py:11-13 | The page number is the pageable's |
| Page.Size | src/application/common/page.py:15-17 | The size is the pageable's |
| Page.TotalPages | src/application/common/page.py:19-24 | The page count is never negative |
| Page.TotalPagesIsCeiling | src/application/common/page.py:19-24 | The page count is the ceiling of total / size: enough pages for every item, and no empty last page |
| Page.HasNextIffMoreItems | src/application/common/page.py:26-28 | There is a next page iff items remain beyond the current page |
| Page.EmptyHasNoNext | src/application/common/page.py:19-32 | With no items there are no pages and no next page, and a previous page exists iff the page is not the first |
| Availability.NewAvailabilityData | src/domain/availability.py:11-24 | A slot needs a date, and then keeps the given fields with a resolved id |
| Availability.ScheduleSpec | src/domain/availability.py:26-33 | Scheduling succeeds iff the slot is not available and an appointment is given; an available slot fails first; success marks the slot available with that appointment, and keeps id and date |
| Availability.ScheduleTwiceFails | src/domain/availability.py:26-28 | A slot scheduled once cannot be scheduled again |
| Availability.NewSlotDefaults | src/domain/availability.py:11-24 | A new slot is available, has no appointment and keeps its date |
| Availability.Availability.constructor | src/domain/availability.py:11-24 | The object holds the given field values |
| Availability.Availability.Schedule | src/domain/availability.py:26-33 | The fields change as the schedule rule says; on an error nothing changes |
| Availability.NewAvailability | src/domain/availability.py:11-24 | A fresh slot object is built iff the date is given, holding the constructor's values |
| Appointment.ParseStatus | src/domain/appointment.py:17-21 | An unknown status text fails with the enum's error message |
| Appointment.StatusRoundTrip | src/domain/appointment.py:17-21 | Status and its text convert back and forth without loss |
| Appointment.NewAppointmentData | src/domain/appointment.py:25-55 | Construction fails iff the duration is not positive, with the duration message; otherwise every field is kept and the id resolved |
| Appointment.Defaults | src/domain/appointment.py:14-55 | With the defaults, an appointment is scheduled, lasts 50 minutes and gets the generated id |
| Appointment.Appointment.constructor | src/domain/appointment.py:25-55 | The object holds the given field values |
| Appointment.Appointment.Confirm | src/domain/appointment.py:57-59 | The status becomes confirmed whatever it was; nothing else changes |
| Appointment.Appointment.Cancel | src/domain/appointment.py:61-63 | The status becomes canceled whatever it was; nothing else changes |
| Appointment.Appointment.Complete | src/domain/appointment.py:65-67 | The status becomes completed whatever it was; nothing else changes |
| Appointment.NewAppointment | src/domain/appointment.py:25-55 | A fresh appointment object is built iff the duration is positive |
| Appointment.TransitionsIgnorePriorStatus | src/domain/appointment.py:57-67 | Cancel, then confirm, then complete are all allowed in sequence; the final status is completed and the other fields are intact |
| PixPayment.ParseStatus | src/domain/pix_payment.py:10-13 | An unknown status text fails with the enum's error message |
| PixPayment.StatusRoundTrip | src/domain/pix_payment.py:10-13 | Status and text convert back and forth; exactly "pending", "paid" and "failed" parse |
| PixPayment.NewPixPayment | src/domain/pix_payment.py:17-50 | A payment is built iff the amount is positive; every given field reads back as given |
| PixPayment.DefaultStatusPending | src/domain/pix_payment.py:23-39 | A payment built with the defaults is pending and valid |
| Content.BlankIffAllSpace | src/domain/content.py:28-29 | A title is blank iff it is all whitespace |
| Content.NewContentData | src/domain/content.py:10-34 | Construction fails iff the title is blank; otherwise the fields are kept and the creation time defaults to now |
| Content.SeparatorTitleRefused | src/domain/content.py:28-29 | A title made of the information separators \x1c and \x1f is blank and refused |
| Content.UpdateSpec | src/domain/content.py:52-59 | An update fails iff a blank title is given; with no arguments it changes nothing; otherwise only the given title and body change, and id, author and creation time are kept |
| Content.UpdateKeepsTitle | src/domain/content.py:28-59 | A non-blank title stays non-blank across updates |
| Content.Content.constructor | src/domain/content.py:10-34 | The object holds the given field values |
| Content.Content.Update | src/domain/content.py:52-59 | The fields change as the update rule says; on a blank title nothing changes |
| User.WrapEmail | src/domain/user.py:52-53 | An e-mail text is accepted iff the address type accepts it, and the address is stored in the form that type normalises it to; an `Email` object is kept |
| User.WrapPassword | src/domain/user.py:54 | A password text goes through the (unhashed) password policy |
| User.WrapCpf | src/domain/user.py:55 | A CPF text goes through CPF validation |
| User.WrapPhone | src/domain/user.py:56-57 | A phone text goes through phone validation |
| User.NewUserNameAndState | src/domain/user.py:39-59 | A built user has a non-empty name, and its state is its city's state; an undefined or empty name is rejected |
| User.NewUserValidated | src/domain/user.py:52-57 | The e-mail, password, CPF and phone of a built user, when given as text, are validated |
| User.SetPhoneNumberData | src/domain/user.py:102-104 | A phone text is re-validated before it replaces the number |
| User.SetCityData | src/domain/user.py:115-118 | An undefined city is rejected; otherwise only the city changes |
| User.SetGenderData | src/domain/user.py:110-113 | An undefined gender is rejected; otherwise only the gender changes |
| User.CityAndStateDiverge | src/domain/user.py:115-118 | After a city change, the user's state and its city's state can differ |
| User.User.constructor | src/domain/user.py:26-60 | The object holds the given field values |
| User.User.SetPhoneNumber | src/domain/user.py:102-104 | The phone changes as the setter rule says; on an error nothing changes |
| User.User.SetProfilePicture | src/domain/user.py:106-108 | Only the picture changes |
| User.User.SetGender | src/domain/user.py:110-113 | The gender changes as the setter rule says; on an error nothing changes |
| User.User.SetCity | src/domain/user.py:115-118 | The city changes as the setter rule says; on an error nothing changes |
| User.NewUser | src/domain/user.py:26-60 | A fresh user object is built iff the user data is built, and carries its error otherwise |
| Psychologist.WrapCrp | src/domain/psychologist.py:73 | A CRP text goes through CRP validation |
| Psychologist.PsychologistChecks | src/domain/psychologist.py:59-73 | The professional checks pass iff the CRP is given and valid, the description is non-empty and the three lists are non-empty |
| Psychologist.NewPsychologistData | src/domain/psychologist.py:27-78 | A psychologist is built iff both the user checks and the professional checks pass, the user's error coming first; the availabilities are stored as given |
| Psychologist.PsychologistInvariants | src/domain/psychologist.py:59-73 | A psychologist passing the checks has a description, non-empty lists and a well-formed, stripped CRP |
| Psychologist.EmptyListsRefused | src/domain/psychologist.py:65-71 | An empty specialties list is refused first, whatever the other lists |
| Specialty.NewSpecialty | src/domain/specialty.py:7-18 | A specialty is built iff name and description are given and non-empty |
| Specialty.NewApproach | src/infra/mappers/mongo/approach_mapper.py:10-14 | An approach keeps its name and description, and a given id |
| Specialty.ParseAudience | src/domain/psychologist.py:22-23 | Only "children" is an audience |
| Specialty.AudienceRoundTrip | src/domain/psychologist.py:22-23 | Audience and text convert back and forth |
| Geography.NewState | src/domain/state.py:7-19 | A state is built iff name and abbreviation are given, holding them |
| Seeder.Weekday | src/infra/database/seeds/psychologist_seeder.py:39 | A weekday number is 0..6 |
| Seeder.DaySlots | src/infra/database/seeds/psychologist_seeder.py:33-43 | A day's slots are one per working hour, on the hour |
| Seeder.GenerateAvailabilities | src/infra/database/seeds/psychologist_seeder.py:19-52 | The nested loop produces the open slot documents of the working hours of the weekdays among the days |
| Seeder.AddDay | src/infra/database/seeds/psychologist_seeder.py:42-50 | The inner loop appends one open document per working hour of the day |
| Seeder.DocumentsSnoc | src/infra/database/seeds/psychologist_seeder.py:45-50 | Appending a date appends exactly its document |
| Seeder.SlotCount | src/infra/database/seeds/psychologist_seeder.py:35-50 | There are nine slots per weekday in the range |
| Seeder.HoursAscend | src/infra/database/seeds/psychologist_seeder.py:33 | The working hours ascend strictly |
| Seeder.SlotShape | src/infra/database/seeds/psychologist_seeder.py:35-43 | Every slot lies in the range, on a weekday, at a working hour with zero minute, second and microsecond |
| Seeder.SlotsAscending | src/infra/database/seeds/psychologist_seeder.py:35-50 | Slots are ordered by day, then by ascending hour |
| Seeder.SlotDocumentsOpen | src/infra/database/seeds/psychologist_seeder.py:45-49 | Every generated document is available and carries its date |
| Ranking.Overlap | src/infra/repos/mongo/psychologist_repo.py:138-158 | An overlap term lies between 0 and its weight |
| Ranking.BuildTerms | src/infra/repos/mongo/psychologist_repo.py:113-202 | The conditional appends give the gender, price, approach, specialty and audience terms present in the filters, in that order |
| Ranking.TotalAppend | src/infra/repos/mongo/psychologist_repo.py:204 | The sum of the terms distributes over concatenation |
| Ranking.PieceScores | src/infra/repos/mongo/psychologist_repo.py:116-202 | Each term present adds its own score |
| Ranking.TermsScore | src/infra/repos/mongo/psychologist_repo.py:204 | The `$add` of the terms is the score |
| Ranking.ScoreBounds | src/infra/repos/mongo/psychologist_repo.py:49-55 | A score lies between 0 and 105 |
| Ranking.GenderTermValue | src/infra/repos/mongo/psychologist_repo.py:116-125 | The gender term is 10 iff the genders are equal, else 0 |
| Ranking.ZeroMaxPriceIgnored | src/infra/repos/mongo/psychologist_repo.py:127 | A maximum price of 0 is falsy: no price term |
| Ranking.SpecialtyUsesApproachWeight | src/infra/repos/mongo/psychologist_repo.py:160-180 | A full specialty match scores the approach weight 30, not the table's 40 |
| Ranking.AudienceUsesApproachWeight | src/infra/repos/mongo/psychologist_repo.py:182-202 | A full audience match scores the approach weight 30, not the table's 15 |
| Ranking.FullShare | src/infra/repos/mongo/psychologist_repo.py:141-156 | A full overlap yields the full weight |
| Ranking.NoOverlapNoScore | src/infra/repos/mongo/psychologist_repo.py:138-158 | No common approach yields 0 |
| Ranking.AsStored | src/infra/repos/mongo/psychologist_repo.py:127-136 | As stored, a candidate has no `price_per_session` field; the price it has sits in `value_per_appointment` |
| Ranking.StoredPriceAlwaysMatches | src/infra/repos/mongo/psychologist_repo.py:127-136 | As written, the price term is 5 even for a psychologist dearer than the maximum |
| Ranking.Priced | src/infra/repos/mongo/psychologist_repo.py:127-136 | The corrected candidate compares its own price per appointment, and nothing else changes |
| Ranking.PricedTermIffCheaper | src/infra/repos/mongo/psychologist_repo.py:127-136 | Corrected, the price term is 5 iff the price is at most the maximum |
| Ranking.Insert | src/infra/repos/mongo/psychologist_repo.py:205 | Insertion adds exactly one element: a permutation |
| Ranking.InsertSorted | src/infra/repos/mongo/psychologist_repo.py:205 | Insertion keeps a sorted list sorted |
| Ranking.SortBy | src/infra/repos/mongo/psychologist_repo.py:205 | Sorting keeps the same candidates |
| Ranking.SortBySorted | src/infra/repos/mongo/psychologist_repo.py:205 | Sorting yields descending keys |
| Ranking.SortByScore | src/infra/repos/mongo/psychologist_repo.py:205 | Sorting by score drops no candidate and adds none |
| Ranking.SortByScoreSorted | src/infra/repos/mongo/psychologist_repo.py:205 | Sorted candidates have descending scores |
| Ranking.RankSpec | src/infra/repos/mongo/psychologist_repo.py:111-254 | The page is the window at the offset of the score ordering (a permutation of the candidates), at most size long, full when enough candidates remain; the total is the page's length |
| Ranking.UnfilteredKeepsOrder | src/infra/repos/mongo/psychologist_repo.py:207-243 | Without filters, the page is the stored order's slice at offset and limit |
| Store.FilterSeq | src/infra/repos/in_memory/psychologist_repo.py:36 | A comprehension keeps exactly the items that pass, and nothing else |
| Store.FilterTwice | src/infra/repos/in_memory/psychologist_repo.py:34-64 | Two filters in a row are one filter by both conditions |
| Store.FilterAll | src/infra/repos/in_memory/psychologist_repo.py:34-64 | A filter every item passes changes nothing |
| Store.StageAfter | src/infra/repos/in_memory/psychologist_repo.py:34-64 | An optional filter stage after a filter is one filter by the combined condition |
| Store.FirstIndex | src/infra/repos/in_memory/psychologist_repo.py:22-25 | The index found is the first hit; None means no hit |
| Store.FirstMatch | src/infra/repos/in_memory/psychologist_repo.py:76-80 | `next(...)` gives the first item that passes, or None iff none does |
| Store.Window | src/infra/repos/in_memory/psychologist_repo.py:66-68 | A page is the run of consecutive items at the offset, at most size long, full when enough items remain |
| AvailabilityStore.Filtered | src/infra/repos/in_memory/availability_repo.py:25-29 | With filters, the flag and day conditions narrow the list; without, nothing is dropped |
| AvailabilityStore.AvailabilityRepo.constructor | src/infra/repos/in_memory/availability_repo.py:10-12 | The store starts empty |
| AvailabilityStore.AvailabilityRepo.Create | src/infra/repos/in_memory/availability_repo.py:14-16 | The slot is appended and returned |
| AvailabilityStore.AvailabilityRepo.Get | src/infra/repos/in_memory/availability_repo.py:18-39 | The page is the filtered slots' window, each matching the filters; total counts the whole store |
| AvailabilityStore.AvailabilityRepo.GetById | src/infra/repos/in_memory/availability_repo.py:41-45 | A slot is found iff one has the id |
| AvailabilityStore.AppendThenFind | src/infra/repos/in_memory/availability_repo.py:14-45 | A slot appended with a new id is found by that id |
| PatientStore.Filtered | src/infra/repos/in_memory/patient_repo.py:22-26 | With filters, the name and city conditions narrow the list |
| PatientStore.NameFilterIgnoresCase | src/infra/repos/in_memory/patient_repo.py:24 | The name filter is blind to the case of name and query |
| PatientStore.PatientRepo.constructor | src/infra/repos/in_memory/patient_repo.py:10-12 | The store starts empty |
| PatientStore.PatientRepo.Save | src/infra/repos/in_memory/patient_repo.py:14-16 | The patient is appended and returned |
| PatientStore.PatientRepo.Get | src/infra/repos/in_memory/patient_repo.py:18-36 | The page is the filtered patients' window, each matching; total counts the whole store |
| PatientStore.PatientRepo.GetById | src/infra/repos/in_memory/patient_repo.py:38-39 | A patient is found iff one has the id |
| PsychologistStore.StagesAreOneFilter | src/infra/repos/in_memory/psychologist_repo.py:34-64 | The seven optional stages are one order-preserving filter by all present conditions |
| PsychologistStore.Filtered | src/infra/repos/in_memory/psychologist_repo.py:33-64 | With filters, the list is narrowed by every present condition; without, nothing is dropped |
| PsychologistStore.FindById | src/infra/repos/in_memory/psychologist_repo.py:76-80 | A psychologist is found iff one has the id |
| PsychologistStore.ReplaceFirstSpec | src/infra/repos/in_memory/psychologist_repo.py:21-26 | Update replaces only the first item with the id; length and all other items are kept; an unknown id changes nothing |
| PsychologistStore.FoundSlots | src/infra/repos/in_memory/psychologist_repo.py:90-101 | The slots passed along are store slots, at most one per id |
| PsychologistStore.FoundSlotsSpec | src/infra/repos/in_memory/psychologist_repo.py:90-101 | Every slot passed along has a requested id; when all ids exist, one slot comes per id |
| PsychologistStore.PsychologistRepo.constructor | src/infra/repos/in_memory/psychologist_repo.py:10-12 | The store starts empty |
| PsychologistStore.PsychologistRepo.ExistsByCrp | src/infra/repos/in_memory/psychologist_repo.py:14-15 | True iff some psychologist has the CRP |
| PsychologistStore.PsychologistRepo.Create | src/infra/repos/in_memory/psychologist_repo.py:17-19 | The psychologist is appended and returned |
| PsychologistStore.PsychologistRepo.Update | src/infra/repos/in_memory/psychologist_repo.py:21-26 | The loop replaces the first item with the id |
| PsychologistStore.PsychologistRepo.Get | src/infra/repos/in_memory/psychologist_repo.py:28-74 | The page holds stored psychologists that pass every present filter, at most size of them; total counts the whole store |
| PsychologistStore.PsychologistRepo.GetById | src/infra/repos/in_memory/psychologist_repo.py:76-80 | A psychologist is found iff one has the id |
| PsychologistStore.PsychologistRepo.AddAvailabilities | src/infra/repos/in_memory/psychologist_repo.py:82-108 | Only the found slots are attached, to the first psychologist with the id |
| SpecialtyStore.Seed | src/infra/repos/in_memory/specialty_repo.py:9-15 | The store starts with one specialty, "Ansiedade" |
| SpecialtyStore.FilterKeepsDistinct | src/infra/repos/in_memory/specialty_repo.py:24 | Filtering keeps ids distinct |
| SpecialtyStore.DistinctIdCount | src/infra/repos/in_memory/specialty_repo.py:24 | Distinct ids count one per specialty |
| SpecialtyStore.DuplicateCount | src/infra/repos/in_memory/specialty_repo.py:24 | A list with a repeated id has fewer distinct ids than entries |
| SpecialtyStore.SpecialtiesCheck | src/application/use_cases/psychologist/create_psychologist.py:91-93 | The create check passes iff one specialty is found per requested id |
| SpecialtyStore.DuplicateIdsFailCheck | src/infra/repos/in_memory/specialty_repo.py:23-24 | With a repeated requested id, fewer specialties come back than ids, and the create check fails |
| SpecialtyStore.SpecialtyRepo.constructor | src/infra/repos/in_memory/specialty_repo.py:9-17 | The store starts with the seed |
| SpecialtyStore.SpecialtyRepo.Save | src/infra/repos/in_memory/specialty_repo.py:19-21 | The specialty is appended and returned |
| SpecialtyStore.SpecialtyRepo.GetByIds | src/infra/repos/in_memory/specialty_repo.py:23-24 | Exactly the stored specialties with a requested id, each once |
| SpecialtyStore.SpecialtyRepo.GetById | src/infra/repos/in_memory/specialty_repo.py:26-29 | A specialty is found iff one has the id |
| SpecialtyStore.SeedTwice | src/infra/repos/in_memory/specialty_repo.py:9-24 | Asking for the seeded id twice returns it once, so the create check fails |
| Mappers.MapAll | src/infra/mappers/mongo/psychologist_mapper.py:27-30 | Mapping a list succeeds iff every element maps, element by element; otherwise the first failure is reported |
| Mappers.AvailabilityToModel | src/infra/mappers/mongo/availability_mapper.py:17-22 | The document copies id, date and available |
| Mappers.AvailabilityToDomain | src/infra/mappers/mongo/availability_mapper.py:9-14 | A loaded slot has no appointment |
| Mappers.AvailabilityRoundTrip | src/infra/mappers/mongo/availability_mapper.py:9-22 | Saving then loading loses only the appointment id; loading then saving is the identity |
| Mappers.PixToModel | src/infra/mappers/mongo/pix_payment_mapper.py:20-28 | The status is stored as its text |
| Mappers.PixToDomain | src/infra/mappers/mongo/pix_payment_mapper.py:9-17 | Loading succeeds iff the status text is known and the amount positive; each failure has its own message |
| Mappers.PixRoundTrip | src/infra/mappers/mongo/pix_payment_mapper.py:9-28 | A valid payment survives saving and loading |
| Mappers.AppointmentToModel | src/infra/mappers/mongo/appointment_mapper.py:26-39 | The status is stored as text, the payment through its mapper, the slot id as given |
| Mappers.AppointmentToDomain | src/infra/mappers/mongo/appointment_mapper.py:10-23 | Loading succeeds iff payment, status and duration load; id and slot id are kept |
| Mappers.AppointmentRoundTrip | src/infra/mappers/mongo/appointment_mapper.py:10-39 | A valid appointment survives saving and loading |
| Mappers.UnknownStatusFails | src/infra/mappers/mongo/appointment_mapper.py:20 | An unknown status text fails with the enum's error |
| Mappers.ContentToModel | src/infra/mappers/mongo/content_mapper.py:21-28 | The document copies every field |
| Mappers.ContentToDomain | src/infra/mappers/mongo/content_mapper.py:8-18 | No document loads as None; a document loads iff its title is not blank, keeping its creation time |
| Mappers.ContentRoundTrip | src/infra/mappers/mongo/content_mapper.py:8-28 | Content with a non-blank title survives saving and loading |
| Mappers.SpecialtyToModel | src/infra/mappers/mongo/specialty_mapper.py:17-22 | The document copies the three fields |
| Mappers.SpecialtyToDomain | src/infra/mappers/mongo/specialty_mapper.py:9-14 | Loading rejects an empty name or description |
| Mappers.SpecialtyRoundTrip | src/infra/mappers/mongo/specialty_mapper.py:9-22 | Both round trips are the identity where loading succeeds |
| Mappers.ApproachToModel | src/infra/mappers/mongo/approach_mapper.py:17-22 | The document copies the three fields |
| Mappers.ApproachToDomain | src/infra/mappers/mongo/approach_mapper.py:9-14 | A present id is kept; a missing one is replaced by a fresh one |
| Mappers.ApproachRoundTrip | src/infra/mappers/mongo/approach_mapper.py:9-22 | An approach survives saving and loading |
| Mappers.StateToModel | src/infra/mappers/mongo/state_mapper.py:17-22 | Saving succeeds iff the abbreviation fits the document's two characters |
| Mappers.StateToDomain | src/infra/mappers/mongo/state_mapper.py:9-14 | Loading copies the three fields |
| Mappers.StateRoundTrip | src/infra/mappers/mongo/state_mapper.py:9-22 | Both round trips are the identity for two-letter abbreviations |
| Mappers.LongAbbreviationNotStored | src/infra/models/mongo/state_document.py:11 | A state the domain allows, with a three-letter abbreviation, cannot be saved |
| Mappers.UserFieldsToModel | src/infra/mappers/mongo/patient_mapper.py:34-48 | The password is stored as its value, with id and e-mail |
| Mappers.UserFieldsToDomain | src/infra/mappers/mongo/patient_mapper.py:16-31 | A loaded user has a hashed password and its city's state, its e-mail is the stored address as the address type normalises it, and its CPF and phone are valid |
| Mappers.UserFieldsRoundTrip | src/infra/mappers/mongo/patient_mapper.py:16-48 | A loadable patient survives saving and loading, its password now marked hashed |
| Mappers.HashSkipsPolicy | src/infra/mappers/mongo/patient_mapper.py:21 | A stored password that would fail the policy still loads |
| Mappers.PsychologistToModel | src/infra/mappers/mongo/psychologist_mapper.py:64-107 | The lists are mapped one for one; missing slots stay missing |
| Mappers.SpecialtyDocs | src/infra/mappers/mongo/psychologist_mapper.py:76-81 | Each specialty is mapped in order |
| Mappers.ApproachDocs | src/infra/mappers/mongo/psychologist_mapper.py:83-85 | Each approach is mapped in order |
| Mappers.AudienceValues | src/infra/mappers/mongo/psychologist_mapper.py:104 | Each audience is stored as its text |
| Mappers.SlotDocs | src/infra/mappers/mongo/psychologist_mapper.py:66-75 | Each slot is mapped in order |
| Mappers.ApproachesToDomain | src/infra/mappers/mongo/psychologist_mapper.py:32-35 | Each approach document is loaded in order |
| Mappers.AvailabilitiesToDomain | src/infra/mappers/mongo/psychologist_mapper.py:37-42 | No slots and an empty list both load as None; a non-empty list loads element by element |
| Mappers.ValueObjects | src/infra/mappers/mongo/psychologist_mapper.py:46-53 | Loading succeeds iff e-mail, CPF, phone and CRP all validate, and yields their validated (normalised) forms |
| Mappers.PsychologistToDomain | src/infra/mappers/mongo/psychologist_mapper.py:24-62 | A loaded psychologist has a hashed password, its slots loaded, non-empty lists and a valid CRP |
| Mappers.PsychologistRoundTrip | src/infra/mappers/mongo/psychologist_mapper.py:24-107 | A loadable psychologist survives saving and loading, except that its password is marked hashed and its slots lose their appointments (an empty list becoming None) |
| Mappers.SlotsReloaded | src/infra/mappers/mongo/psychologist_mapper.py:37-75 | Reloaded slots keep id and date and have no appointment |
| Mappers.SpecialtiesRoundTrip | src/infra/mappers/mongo/psychologist_mapper.py:27-81 | Non-empty specialties survive |
| Mappers.ApproachesRoundTrip | src/infra/mappers/mongo/psychologist_mapper.py:32-85 | Approaches survive |
| Mappers.AudiencesRoundTrip | src/infra/mappers/mongo/psychologist_mapper.py:57-104 | Audiences survive |
| Mappers.SlotsRoundTrip | src/infra/mappers/mongo/psychologist_mapper.py:37-75 | Saved then loaded slots are the reloaded slots |
| Mappers.EmptySlotsReloadAsNone | src/infra/mappers/mongo/psychologist_mapper.py:37-75 | A psychologist saved with an empty slot list reloads with None |
| Mappers.UserToDomain | src/infra/mappers/mongo/user_mapper.py:15-22 | A patient document loads a patient, a psychologist document a psychologist, anything else fails with "Invalid model type" |
| Mappers.UserToModel | src/infra/mappers/mongo/user_mapper.py:25-32 | Saving dispatches on the entity kind, failing exactly for other kinds with "Invalid entity type" |
| Mappers.PatientDispatchRoundTrip | src/infra/mappers/mongo/user_mapper.py:15-32 | A patient saved and loaded through the dispatch comes back as a patient |
| UseCases.FreeSlotSpec | src/application/use_cases/appointment/cancel_appointment.py:54-64 | Freeing touches only the first slot with the id, leaving the others and the rest of the psychologist intact; None iff no slot has the id |
| UseCases.FreeFirstSlot | src/application/use_cases/appointment/cancel_appointment.py:58-64 | The search loop frees what FreeSlot describes |
| UseCases.CancelFrees | src/application/use_cases/appointment/cancel_appointment.py:54-64 | A slot is freed only when the appointment has one and its psychologist exists |
| UseCases.Backend.constructor | src/application/use_cases/appointment/cancel_appointment.py:26-32 | The repositories hold the given entities and nothing is written |
| UseCases.Backend.SaveAppointment | src/application/use_cases/appointment/cancel_appointment.py:66 | Saving stores the appointment and logs the write |
| UseCases.Backend.SavePsychologist | src/application/use_cases/appointment/cancel_appointment.py:64 | Saving stores the psychologist and logs the write |
| UseCases.Backend.Cancel | src/application/use_cases/appointment/cancel_appointment.py:34-68 | A missing appointment or a requester who is neither party fails with nothing written; otherwise the status becomes canceled, the freed psychologist is saved first when a slot was freed, then the appointment |
| UseCases.Backend.Reschedule | src/application/use_cases/appointment/reschedule_appointment.py:36-86 | Checks run in order (appointment, party, past date, psychologist, new slot), each failing with nothing written; on success the old slot is freed, the psychologist saved, then the moved appointment |
| UseCases.Backend.Solicit | src/application/use_cases/patient/solicit_schedule_appointment.py:43-73 | Patient, then psychologist, then slot are checked, with nothing written on failure; the new appointment is scheduled, priced at the psychologist's value in both value and payment, and created before the psychologist is saved |
| UseCases.Backend.ConfirmPayment | src/application/use_cases/psychologist/confirm_payment.py:26-43 | Only the appointment's psychologist confirms, from any status; the appointment is saved only then |
| UseCases.Backend.Complete | src/application/use_cases/appointment/complete_appointment.py:23-40 | Only the appointment's psychologist completes, from any status; saved only then |
| UseCases.Backend.MarkPaymentSent | src/application/use_cases/patient/mark_payment_sent.py:26-43 | Only the appointment's patient marks payment sent; saved only then |
| UseCases.Backend.CreateContent | src/application/use_cases/content/create_content.py:32-47 | Only an existing psychologist creates content; a blank title fails; exactly one item is added, by that author |
| UseCases.Backend.UpdateContent | src/application/use_cases/content/update_content.py:25-37 | Missing content, a non-author and a blank title each fail with nothing written; the author's update sets title and body |
| UseCases.Backend.DeleteContent | src/application/use_cases/content/delete_content.py:22-31 | Missing content and a non-author fail; the author gets the repository's result, and a successful delete removes the item |
| UseCases.Backend.DeletePatient | src/application/use_cases/patient/delete_patient.py:25-41 | Missing patient and another requester fail; a failed delete raises "Failed to delete patient."; success returns true and the patient is gone |
| Translation.ReplaceAbsent | traduzir_mensagens.py:57-58 | Replacing a pattern that does not occur changes nothing |
| Translation.ReplaceAtFront | traduzir_mensagens.py:57-58 | A pattern at the front is replaced, then the rest is scanned |
| Translation.DoubleQuoted | traduzir_mensagens.py:57 | The message wrapped in double quotes |
| Translation.SingleQuoted | traduzir_mensagens.py:58 | The message wrapped in single quotes |
| Translation.StepAbsent | traduzir_mensagens.py:57-58 | An entry whose quoted key does not occur changes nothing |
| Translation.RunAbsent | traduzir_mensagens.py:55-58 | Entries none of whose quoted keys occur change nothing |
| Translation.UnquotedUntouched | traduzir_mensagens.py:55-58 | Text without quotes is never changed |
| Translation.SecondRunUnchanged | traduzir_mensagens.py:55-65 | A second run changes nothing when no quoted key is left after the first |
| Translation.PeriodKeepsLiteral | traduzir_mensagens.py:20-21 | The key without its period does not rewrite the literal with the period |
| Translation.RunSplit | traduzir_mensagens.py:55-58 | Running two lists of entries is running one after the other |
| Translation.ReplaceLength | traduzir_mensagens.py:57-58 | A replacement no shorter than its pattern never shortens the text, and lengthens it when the pattern occurs |
| Translation.RunLength | traduzir_mensagens.py:55-58 | Entries that never shorten their key never shorten the text |
| Translation.AroundUserNotFound | traduzir_mensagens.py:38-58 | On a text with none of the other keys' marks, only the "User not found" entry acts |
| Translation.FirstRun | traduzir_mensagens.py:55-58 | The sample text translates once to its known result |
| Translation.SecondRunChanges | traduzir_mensagens.py:38-65 | Running the script twice is not the same as once: the first run's output can contain a new quoted key |
| Translation.ApplyAll | traduzir_mensagens.py:55-58 | The loop applies the entries in dictionary order |
| Translation.TranslateFile | traduzir_mensagens.py:47-68 | The file is written and true returned iff the translation changed it and the write succeeds; a failed read or write returns false |

## Left out

- HTTP routers, dependency providers, Mongo sessions, the Beanie documents and every Mongo query other than the ranking rule are transport and database I/O. They are not part of this model.
- The Mongo pipeline itself, meaning `$lookup`, `$unwind` and the aggregation engine, is left out. The ranking is a pure score, a sort and a slice over candidates already loaded. The sort is stable (insertion), while MongoDB's order between equal scores is unspecified.
- Concurrency (`asyncio.gather`) is modelled as an order-preserving map.
- Floating point is modelled as `real`, so there is no IEEE rounding.
- Datetimes and time zones are reduced to a `DateTime` record and a tick count. A naive reschedule date is taken as already comparable with "now". "Now" and `uuid4` are parameters.
- Birth dates stored as ISO text: the text conversion is the identity on the day number. The format itself is not part of this model.
- Character classes other than whitespace are ASCII: the password's `isdigit`/`isupper`/`islower`, the CPF's `isdigit` and the regex class `\d` are not modelled over Unicode. Whitespace (`strip()`, `isspace()`, `\s`) is Python's full set.
- PatientStore.NameFilterIgnoresCase: `str.lower()` is modelled on ASCII letters only (Common.Lower). So the name stages of the patient and psychologist filters (PatientStore.Filtered, PsychologistStore.Filtered) are blind to ASCII case only, where the source's Unicode lowering also matches "JOSÉ" with "josé".
- User.WrapEmail: the address check and normalisation of pydantic `EmailStr` is the parameter `checkEmail`, which gives the normalised address or None. The normalisation rules themselves are not part of this model.
- Appointment.NewAppointmentData: the source's `Appointment.__init__` takes whole `patient` and `psychologist` objects and defines no `patient_id`, `value` or `availability_id`. Its callers (the appointment mapper, the solicit and cancel use cases) use those attributes and would fail as written. The model gives the appointment the shape its callers use.
- Ranking.BuildTerms: the Mongo repository reads `filters.gender` and `filters.approach_ids`, which `PsychologistFilters` does not define, so every filtered query raises as written. The model scores against its own filter record, ScoreFilters, which has the fields the pipeline reads.
- Ranking.Overlap: the filters carry specialty ids as strings, while the documents hold UUIDs, so in the source the specialty overlap is always 0. The model compares ids of one type, as evidently intended.
- domain/common/guard.py is not part of this model. `against_empty_str` is taken to reject None and "", `against_empty_list` to reject [], and `against_undefined` to reject None.
- domain/approach.py and src/infra/models/mongo/patient_document.py are not part of this model. The approach constructor and the patient document are built from their uses in the mappers.
- `Psychologist.value_per_appointment` is read by callers but is not a constructor parameter in the source. The model carries it as a field.
- The city mapper and the in-memory city repository build `City` without its required abbreviation, so they fail as written. Mappers carry the city through unchanged.
- `get_availability_by_date`, `unschedule`, `reschedule`, `mark_payment_sent` and `Psychologist.add_availabilities` are called but not defined by the domain. They are function parameters of the use cases and repositories.
- The repository delete results in DeleteContent and DeletePatient are the parameter `deleted`.
- The in-memory repositories share class-level lists between instances. Each repository object owns its sequence, so sharing and aliasing between instances are not modelled.
- The in-memory psychologist and patient filters compare `str()` of the city and specialty ids through a parameter `show`.
- The translation script's file reading, its exception printing, and `main()` with its `os.walk` are left out. TranslateFile takes the file's content (None when it cannot be read) and whether the write fails.
- Translation.SecondRunUnchanged: idempotence of a second run is proved only when no quoted key remains after the first. It does not hold in general: Translation.SecondRunChanges exhibits a text in which two messages share a quote, and the first replacement creates a new quoted key.
- Cpf.KnownValid: the router's example "86231101533" is proved on its own. Its punctuated form is covered generically by Cpf.PunctuatedAccepted rather than as a literal.

## Findings

| source | as written | input that shows it | evidently intended | confidence | as-written member | corrected member |
|---|---|---|---|---|---|---|
| src/infra/repos/mongo/psychologist_repo.py:127-136 | The price term compares `$price_per_session`, a field psychologist documents do not have (they store `value_per_appointment`). A missing field is null, which MongoDB orders below every number, so `$lte` always holds and every candidate gets the 5 points | `max_price` 100 and a psychologist charging 200: price term 5 | The price term is 5 iff the psychologist's price per appointment is at most `max_price` | not executed | Ranking.StoredPriceAlwaysMatches | Ranking.PricedTermIffCheaper |
| src/application/common/pageable.py:55-60 | `next()` and `previous()` rebuild the request with `sort=self.sort`. That re-runs the sort validator on stored `SORT_DIRECTION` members, whose `str()` is "SORT_DIRECTION.ASC", which the direction guard rejects | `Pageable(page=1, size=10, sort=[("name", "asc")]).next()` raises | Moving keeps the sort, for example by passing each direction's value | not executed | Pageable.SortedRequestCannotMove | Pageable.NextByValue |
