# MAPH front end: a Dafny model of the screens' client-side logic

MAPH is a React Native application for a medical practice. Its screens are forms over an HTTP
backend: an agenda of appointments, a consultation form, a public request for an account, the
login, the upload of a patient's files, the main menu, password recovery and the professional
profile. This project models what the screens themselves decide:

- how backend records become what the screen shows (calendar events, a filled consultation form);
- which typed input is accepted, and how it is sanitised;
- in which order required fields are checked, and which message each failure produces;
- what each request carries (the consultation PATCH payload, the account-request e-mail, the
  multipart upload form);
- how the server's answer, or a thrown error, changes the screen's state, its alerts and its
  navigation.

Layout:

- Shared modules:
  - `wrappers.dfy`: `Option`.
  - `text.dfy`: JavaScript's `trim`, the two digit-filtering `replace` calls, `split` with its
    `[0]` and `pop()`, and ASCII `toUpperCase`.
  - `decimal.dfy`: `toString`, `parseInt` and the string-to-number conversion of a loose `==`.
  - `http.dfy`: the outcome of a request.
  - `session.dfy`: the user object.
  - `ui.dfy`: alerts.
- One module per screen. A screen whose handlers update React state is a class: its
  `useState` values are fields and each handler is a method. Pure transforms are functions, with
  lemmas about them.

Every request is a parameter of the handler that makes it: a `Reply` is either the `Response`
that came back, with its status and the part of `response.data` the screen reads, or `Thrown`,
with the status of the error's response if the server answered.

Three behaviours of the code are easy to miss, and the model keeps them as written:

- The code never clears the draft after creating an appointment.
- It does not check that the appointment's fields are filled, or that the start hour precedes
  the end hour.
- The "no events" text depends on the whole event list, not on the selected day's events.

## Model

| member | source | states |
|---|---|---|
| Text.Trim | MAPH/screens/loginScreen.js:13 | the definition of `trim()` as `trimEnd` after `trimStart`; what it removes is stated by Text.TrimStartSpec, Text.TrimEndSpec and Text.BlankIffAllSpace |
| Text.IsBlank | MAPH/screens/loginScreen.js:13-20 | the definition of `!s.trim()`; Text.BlankIffAllSpace states it holds exactly for all-space text |
| Text.TrimStartSpec | MAPH/screens/loginScreen.js:13 | trimming the front removes exactly a run of white space: the rest is a suffix of the input that starts with a non-space character |
| Text.TrimEndSpec | MAPH/screens/loginScreen.js:13 | trimming the back removes exactly a run of white space: the rest is a prefix of the input that ends with a non-space character |
| Text.BlankIffAllSpace | MAPH/screens/loginScreen.js:13-20 | `!s.trim()` holds exactly when every character of `s` is ECMAScript white space or a line terminator |
| Text.TrimOfPadded | MAPH/screens/principalScreen.js:13 | any white space around a text that starts and ends with a non-space character is trimmed back to that text |
| Text.StripDigits | MAPH/screens/sendCreateUserMailScreen.js:27 | the result of `replace(/[0-9]/g, '')` holds no digit and is no longer than its input |
| Text.KeepDigits | MAPH/screens/sendCreateUserMailScreen.js:30 | the result of `replace(/[^0-9]/g, '')` holds nothing but digits and is no longer than its input |
| Text.StripDigitsKeepsDigitFree | MAPH/screens/sendCreateUserMailScreen.js:27 | a digit-free string is left unchanged by the digit stripper |
| Text.KeepDigitsKeepsAllDigits | MAPH/screens/sendCreateUserMailScreen.js:30 | a string of digits is left unchanged by the digit keeper |
| Text.StripDigitsIdempotent | MAPH/screens/sendCreateUserMailScreen.js:27 | stripping digits twice is stripping them once |
| Text.KeepDigitsIdempotent | MAPH/screens/sendCreateUserMailScreen.js:30 | keeping digits twice is keeping them once |
| Text.StripDigitsIsSubsequence | MAPH/screens/sendCreateUserMailScreen.js:27 | the stripper only deletes characters: its output is a subsequence of its input |
| Text.KeepDigitsIsSubsequence | MAPH/screens/sendCreateUserMailScreen.js:30 | the keeper only deletes characters: its output is a subsequence of its input |
| Text.FiltersPartition | MAPH/screens/sendCreateUserMailScreen.js:27-30 | the characters the stripper drops are exactly those the keeper keeps (as multisets they add up to the input) |
| Text.ConcatContainsPiece | MAPH/screens/sendCreateUserMailScreen.js:58-71 | each piece of a template literal occurs in the result, right after the pieces before it |
| Text.IndexFrom | screens/agendaScreen.js:106 | `indexOf(sep, k)`: the first occurrence at or after `k`, or none at all |
| Text.Split | screens/agendaScreen.js:106-107 | `split(sep)` gives at least one piece, joining the pieces with `sep` gives the input back, and no piece contains `sep`; the input stays whole exactly when `sep` does not occur, and otherwise the first piece ends at the leftmost occurrence |
| Text.SplitCutsLeftmost | screens/agendaScreen.js:106-107 | every cut is leftmost: each piece but the last ends where `sep` first occurs in that piece and the ones after it joined back, so `split(" - ")[1]` is the text between the first and second occurrences |
| Text.SplitLeftmostExample | screens/agendaScreen.js:106-107 | "x - - y" splits on " - " into "x" and "- y", as JavaScript splits at the leftmost occurrence |
| Text.SplitCharFirst | screens/agendaScreen.js:30 | `split(c)[0]` is the longest prefix without `c`: all of `s` when `c` is absent, otherwise the part just before the first `c` |
| Text.SplitCharFirstOfConcat | screens/createConsultationScreen.js:107 | a text without `c`, followed by `c` and anything else, splits back on `c` to that text |
| Text.DatePart | screens/agendaScreen.js:30 | the definition of `fecha.split('T')[0]`; Text.SplitCharFirst states it is the prefix before the first 'T' |
| Text.LastSegment | MAPH/screens/fileScreen.js:61 | the definition of `split(c).pop()`; Text.LastSegmentIsTail states it is the suffix after the last `c` |
| Text.LastSegmentIsTail | MAPH/screens/fileScreen.js:61 | `split(c).pop()` is the suffix after the last `c`, holds no `c`, and is the whole string when `c` does not occur |
| Text.ToUpper | MAPH/screens/principalScreen.js:13 | upper-casing keeps the length and maps each ASCII letter to its capital |
| Text.UpperEqualsLetter | MAPH/screens/principalScreen.js:13 | an upper-cased string equals "D" exactly when the string is "D" or "d" |
| Decimal.NatToString | screens/agendaScreen.js:29 | `n.toString()` of a natural is a non-empty run of digits with no leading zero |
| Decimal.IntToString | screens/createConsultationScreen.js:36 | `i.toString()` starts with a minus sign or a digit |
| Decimal.ParseInt | screens/createConsultationScreen.js:96 | the definition of `parseInt(s, 10)`: leading white space, one optional sign, the longest digit run, and no number without digits; Decimal.ParseIntOfIntToString states it reads a rendered integer back |
| Decimal.StringToInteger | MAPH/screens/loginScreen.js:28 | the definition of the string-to-number conversion for integer text, with blank text as 0; Decimal.StringToIntegerOfIntToString and Login.PaddedIntegerText state what it reads back |
| Decimal.DigitsValueOfNatToString | screens/agendaScreen.js:29 | the digits of a rendered natural denote that natural |
| Decimal.ParseIntOfIntToString | screens/createConsultationScreen.js:96 | `parseInt` reads a rendered integer back as that integer |
| Decimal.StringToIntegerOfIntToString | MAPH/screens/loginScreen.js:28 | the loose comparison converts a rendered integer back to that integer |
| Decimal.IntToStringInjective | screens/agendaScreen.js:29 | different integers render as different text, so distinct appointment numbers give distinct event ids |
| Decimal.NatToStringInjective | screens/agendaScreen.js:219 | different naturals render as different text |
| Agenda.ToEvent | screens/agendaScreen.js:28-33 | the definition of the `map` callback from a diary record to an event; Agenda.ProjectionFaithful states what each event holds |
| Agenda.ProjectEvents | screens/agendaScreen.js:28-33 | the definition of `response.data.data.map(...)`; Agenda.ProjectionFaithful states it keeps number and order |
| Agenda.ProjectionFaithful | screens/agendaScreen.js:28-33 | projection keeps the number and order of records; an event's id is the record number as text, its date is the part of `fecha` before the first 'T', and its title and time join two fields around " - " |
| Agenda.LabelsShowNames | screens/agendaScreen.js:106-107 | when neither name holds a '-', the item's "Asignado" and "Paciente" texts are the record's two names |
| Agenda.SplitAroundDash | screens/agendaScreen.js:31 | a title built around " - " splits back into its two names when neither holds a '-' |
| Agenda.EventsOn | screens/agendaScreen.js:98-120 | the drawn items are a subsequence of the events, and each of them has the selected date |
| Agenda.EventsOnCounts | screens/agendaScreen.js:98-120 | every event of the selected day is drawn as many times as it is listed, and no other event is drawn |
| Agenda.NothingDrawnWithoutSelection | screens/agendaScreen.js:99 | with no day selected, nothing is drawn exactly when no event has an empty date |
| Agenda.NoEventsTextIgnoresSelectedDay | screens/agendaScreen.js:158-164 | a selected day without events gets no "no events" text once any other day has an event |
| Agenda.MarkEvents | screens/agendaScreen.js:140-143 | the definition of the `reduce` that marks event dates; Agenda.MarkEventsSpec states what it marks and keeps |
| Agenda.MarkedDates | screens/agendaScreen.js:138-144 | the definition of the `markedDates` object; Agenda.MarkedDatesSpec states its keys and values |
| Agenda.MarkEventsSpec | screens/agendaScreen.js:140-143 | the reduction puts a dot on every event date and leaves every other key as it was |
| Agenda.MarkedDatesSpec | screens/agendaScreen.js:138-144 | the marked days are the event dates plus the selected date; an event date carries the dot even when it is the selected day |
| Agenda.HourSlots | screens/agendaScreen.js:218-220 | the definition of `Array.from({ length: 24 }, ...)` with labels `${i}:00`; Agenda.HourSlotsParse, Agenda.HourSlotsDistinct and Agenda.HourSlotsRange state its contents |
| Agenda.HourSlotsParse | screens/agendaScreen.js:218-220 | there are 24 hour choices, and the K-th reads back as hour K |
| Agenda.HourSlotsDistinct | screens/agendaScreen.js:235-237 | the 24 hour choices are all different |
| Agenda.HourSlotsRange | screens/agendaScreen.js:218-220 | the hour choices run from "0:00" to "23:00" |
| Agenda.AgendaScreen.constructor | screens/agendaScreen.js:10-22 | nothing is selected, there are no events, the modal is closed, and the draft carries the user's company and id with every other field empty |
| Agenda.AgendaScreen.FetchEvents | screens/agendaScreen.js:25-40 | a reply with a list replaces the events by its projection; any failure keeps the events and alerts |
| Agenda.AgendaScreen.HandleDatePress | screens/agendaScreen.js:89-95 | the pressed day becomes the selection and the draft's date, and no other draft field changes |
| Agenda.AgendaScreen.SelectPatient | screens/agendaScreen.js:189-193 | only the draft's patient changes |
| Agenda.AgendaScreen.SelectStartHour | screens/agendaScreen.js:210-221 | only the draft's start hour changes |
| Agenda.AgendaScreen.SelectEndHour | screens/agendaScreen.js:227-238 | only the draft's end hour changes |
| Agenda.AgendaScreen.SetModalVisible | screens/agendaScreen.js:168-173 | the modal opens or closes, and the draft is kept |
| Agenda.AgendaScreen.HandleSaveAppointment | screens/agendaScreen.js:56-70 | the draft is posted unchecked and never cleared; 200 or 201 closes the modal and reloads the events; a thrown error alerts and changes nothing |
| Agenda.AgendaScreen.HandleDeleteAppointment | screens/agendaScreen.js:74-85 | only status 200 reloads the events; a thrown error alerts; apart from the reload the events never change |
| Consultation.EmptyForm | screens/createConsultationScreen.js:51-65 | the definition of the emptied form; Consultation.EmptyFormFields and Consultation.EmptyFormOffersOnlyCreate state its fields and buttons |
| Consultation.EmptyFormFields | screens/createConsultationScreen.js:51-65 | the empty form holds "" in every field except the company, which is the user's |
| Consultation.EmptyFormOffersOnlyCreate | screens/createConsultationScreen.js:309-344 | an emptied form can be neither saved nor created from, and offers only "Crear Consulta" |
| Consultation.RecordValue | screens/createConsultationScreen.js:36-47 | the definition of the value each field gets from a record; Consultation.FillFromRecordSpec states the id and date round-trips |
| Consultation.FillFromRecord | screens/createConsultationScreen.js:34-48 | the definition of the spread that loads a record; Consultation.FillFromRecordField and Consultation.FillFromRecordSpec state its fields |
| Consultation.FillFromRecordField | screens/createConsultationScreen.js:34-48 | loading a record sets every field from the record and keeps only the company |
| Consultation.FillFromRecordSpec | screens/createConsultationScreen.js:32-48 | the loaded id reads back as the record's id; the loaded date holds no 'T' and is a prefix of the record's date; editing and finalizing become enabled and creating disabled |
| Consultation.SaveReady | screens/createConsultationScreen.js:89 | the definition of the five-field check before a PATCH; Consultation.ValidatorsIgnoreOtherFields states what it reads |
| Consultation.CreateReady | screens/createConsultationScreen.js:178 | the definition of the five-field check before a POST; Consultation.ValidatorsIgnoreOtherFields states what it reads |
| Consultation.ValidatorsIgnoreOtherFields | screens/createConsultationScreen.js:89-92 | each validator depends on its own five fields only: creating never looks at the patient or the id, saving never at the assessment or the amount |
| Consultation.PutKeepsOthers | screens/createConsultationScreen.js:163-168 | writing a field changes that field and no other |
| Consultation.BuildPayload | screens/createConsultationScreen.js:95-110 | the definition of the PATCH payload; Consultation.PayloadSpec and Consultation.PayloadVital state what it carries |
| Consultation.PayloadVital | screens/createConsultationScreen.js:101-105 | each vital sign is sent as entered, and as "" when it is missing or empty |
| Consultation.PayloadSpec | screens/createConsultationScreen.js:95-110 | the payload is active (`estado` 1); its id is `parseInt` of the form's id; patient, company, kind, assessment and plan are the form's; every vital sign is the entered text or ""; the amount is the entered one or "0.00"; its date splits back on 'T' to the form's date |
| Consultation.SaveAfterLoadRoundTrip | screens/createConsultationScreen.js:36-107 | saving a loaded consultation unedited sends the record's own id and calendar day |
| Consultation.Enabled | screens/createConsultationScreen.js:312-341 | the definition of the three `disabled` props; Consultation.ModeOf and Consultation.ModesExclusive state how they relate |
| Consultation.ModeOf | screens/createConsultationScreen.js:309-344 | the screen is creating exactly when "Crear" is enabled, and showing or editing exactly when "Editar" and "Finalizar" are |
| Consultation.ModesExclusive | screens/createConsultationScreen.js:312-341 | a bookkeeping fact: edit and finalize are enabled together, and create exactly when they are not; the screen's modes are stated by Consultation.ModeOf |
| Consultation.Loaded | screens/createConsultationScreen.js:29-72 | the definition of the form `fetchConsultationData` leaves; Consultation.LoadOutcome states its outcomes |
| Consultation.LoadOutcome | screens/createConsultationScreen.js:29-72 | a load that alerts keeps the form; otherwise edit and finalize are enabled exactly when the reply listed a consultation, whose id the form reads back as, and an unlisted reply empties the form and offers only create |
| Consultation.ConsultationScreen.constructor | screens/createConsultationScreen.js:7-25 | the form starts empty except for the user's company, not editing, with the modal closed |
| Consultation.ConsultationScreen.FetchConsultationData | screens/createConsultationScreen.js:29-72 | the new form is what Consultation.Loaded gives for the old form, the user's company and the reply, and the alert is "No se pudo cargar la consulta." exactly when the request throws or code "200" comes without a list |
| Consultation.ConsultationScreen.HandleChange | screens/createConsultationScreen.js:163-173 | only the named field changes |
| Consultation.ConsultationScreen.PressEdit | screens/createConsultationScreen.js:309-318 | the button toggles editing while it is enabled, and does nothing otherwise |
| Consultation.ConsultationScreen.PressCreate | screens/createConsultationScreen.js:335-344 | the button opens the modal while it is enabled |
| Consultation.ConsultationScreen.HandleSaveConsultation | screens/createConsultationScreen.js:86-131 | an incomplete form alerts and sends nothing; otherwise the payload is sent, 200 or 201 ends editing, and a failure changes nothing and shows no alert |
| Consultation.ConsultationScreen.HandleFinalizeConsultation | screens/createConsultationScreen.js:134-160 | PATCH `{ estado: 1 }` to the consultation's path; 200 or 201 empties the form, keeping the company, and ends editing; a thrown error alerts and changes nothing |
| Consultation.ConsultationScreen.PressFinalize | screens/createConsultationScreen.js:321-332 | without a consultation id nothing is sent or changed; while editing it sends the save payload when the form is complete (else the missing-fields alert), ending editing on 200 or 201 with the update alert; otherwise it sends the finalizing PATCH, empties the form on success and shows the finalize alert or the error |
| Consultation.ConsultationScreen.HandleModalSaveConsultation | screens/createConsultationScreen.js:176-194 | an incomplete form alerts and sends nothing; otherwise the form is posted with the user's company; 200 or 201 closes the modal, leaves the form the reload gives, and shows the creation alert followed by the reload's alert, if any; a thrown error alerts and changes nothing |
| Consultation.ConsultationScreen.CancelModal | screens/createConsultationScreen.js:437-459 | cancelling closes the modal and empties the form |
| AccountRequest.UserData.Set | MAPH/screens/sendCreateUserMailScreen.js:32 | the spread update changes the named applicant field and no other |
| AccountRequest.CompanyData.Set | MAPH/screens/sendCreateUserMailScreen.js:42 | the spread update changes the named company field and no other |
| AccountRequest.SanitizeUser | MAPH/screens/sendCreateUserMailScreen.js:25-31 | the definition of the per-field filter for the applicant; AccountRequest.SanitizeUserSpec states its rules |
| AccountRequest.SanitizeCompany | MAPH/screens/sendCreateUserMailScreen.js:35-41 | the definition of the per-field filter for the company; AccountRequest.SanitizeCompanySpec states its rules |
| AccountRequest.SanitizeUserSpec | MAPH/screens/sendCreateUserMailScreen.js:25-33 | names hold no digit, the id and phone only digits, and the e-mail is untouched; each filter only deletes characters and is idempotent |
| AccountRequest.SanitizeCompanySpec | MAPH/screens/sendCreateUserMailScreen.js:35-43 | the same for the company: the name holds no digit, the id and phone only digits, and the e-mail is untouched |
| AccountRequest.SetSanitizedUser | MAPH/screens/sendCreateUserMailScreen.js:25-33 | storing a filtered value keeps every applicant field filtered |
| AccountRequest.SetSanitizedCompany | MAPH/screens/sendCreateUserMailScreen.js:35-43 | storing a filtered value keeps every company field filtered |
| AccountRequest.Validate | MAPH/screens/sendCreateUserMailScreen.js:45-54 | the definition of the two checks and their messages; AccountRequest.ValidateSpec states when each fails |
| AccountRequest.ValidateSpec | MAPH/screens/sendCreateUserMailScreen.js:45-54 | the request passes exactly when no applicant field is blank and, with a company, no company field is; the applicant is checked first; without a company the company fields are never looked at |
| AccountRequest.BuildEmail | MAPH/screens/sendCreateUserMailScreen.js:56-57 | a bookkeeping fact: every request is addressed to SOPORTEMAPH@GMAIL.COM; what the message says is stated by AccountRequest.ReasonCompanyBlock and AccountRequest.ReasonMentionsFields |
| AccountRequest.Reason | MAPH/screens/sendCreateUserMailScreen.js:58-71 | the definition of the template message; AccountRequest.ReasonCompanyBlock and AccountRequest.ReasonMentionsFields state its contents |
| AccountRequest.ReasonCompanyBlock | MAPH/screens/sendCreateUserMailScreen.js:64-71 | the company block follows the applicant block exactly when there is a company; without one the message does not depend on the company data |
| AccountRequest.ReasonMentionsFields | MAPH/screens/sendCreateUserMailScreen.js:58-70 | the message contains each applicant field, and with a company each company field |
| AccountRequest.RequestScreen.constructor | MAPH/screens/sendCreateUserMailScreen.js:7-23 | every field starts empty, there is no company and no error, and the stored fields count as filtered |
| AccountRequest.RequestScreen.HandleInputChange | MAPH/screens/sendCreateUserMailScreen.js:25-33 | only the named field changes, to the filtered value, and the stored fields stay filtered |
| AccountRequest.RequestScreen.HandleCompanyInputChange | MAPH/screens/sendCreateUserMailScreen.js:35-43 | only the named company field changes, to the filtered value, and the stored fields stay filtered |
| AccountRequest.RequestScreen.SetHasCompany | MAPH/screens/sendCreateUserMailScreen.js:99 | the switch sets whether a company is declared |
| AccountRequest.RequestScreen.HandleCreateUserRequest | MAPH/screens/sendCreateUserMailScreen.js:45-82 | a failed check sets its error and sends nothing; otherwise the e-mail is posted, and success alerts and goes to the login screen while a failure sets the sending error |
| Http.LooselyEquals | MAPH/screens/loginScreen.js:28 | the definition of `code == 200` for a number, a string or an absent code; Login.TextCodeLogsIn and Login.PaddedIntegerText state which codes pass |
| Login.MissingField | MAPH/screens/loginScreen.js:13-20 | the definition of the first blank credential; Login.ChecksInOrder states the order |
| Login.LoginOutcome | MAPH/screens/loginScreen.js:12-52 | the definition of how `handleLogin` ends; Login.LoggedInIff states when it logs in |
| Login.ReplyOutcome | MAPH/screens/loginScreen.js:22-52 | the definition of the `try` block and its `catch`; Login.ResponseMapping, Login.ThrownMapping and Login.TextCodeLogsIn state the mapping |
| Login.LoggedInIff | MAPH/screens/loginScreen.js:12-53 | a login happens exactly when both fields are non-blank and the reply has code loosely equal to 200 and a session; the session entered is the one sent |
| Login.ChecksInOrder | MAPH/screens/loginScreen.js:13-20 | a blank id is reported whatever the password and the server; a blank password is reported whatever the server |
| Login.ResponseMapping | MAPH/screens/loginScreen.js:28-44 | with both fields given, a response gives "Credenciales incorrectas" exactly when its code is not loosely 200; a loose 200 without `data` ends as "Error al autenticar.", and with `data` enters the session sent |
| Login.ThrownMapping | MAPH/screens/loginScreen.js:45-50 | a thrown error is an active session exactly when the server answered 403, and an authentication error otherwise |
| Login.TextCodeLogsIn | MAPH/screens/loginScreen.js:28 | the code 200 sent as a number, or as text with or without surrounding white space, logs in |
| Login.PaddedTwoHundred | MAPH/screens/loginScreen.js:28 | "200", padded with white space, compares loosely equal to 200 |
| Login.PaddedIntegerText | MAPH/screens/loginScreen.js:28 | any integer sent as text, padded with white space, compares loosely equal to itself |
| Login.LoginScreen.constructor | MAPH/screens/loginScreen.js:7-9 | both fields and the error start empty, and nothing is stored |
| Login.LoginScreen.SetCedula | MAPH/screens/loginScreen.js:69 | typing sets the user id |
| Login.LoginScreen.SetContrasena | MAPH/screens/loginScreen.js:77 | typing sets the password |
| Login.LoginScreen.HandleLogin | MAPH/screens/loginScreen.js:12-53 | the credentials are posted as typed exactly when neither is blank; a login stores the token and user and resets to the main menu; every other outcome sets its message and stores nothing |
| Login.LoginScreen.HandleReply | MAPH/screens/loginScreen.js:22-52 | the reply is handled as the `try` block and its `catch` do: storage and navigation on a login, the matching message otherwise |
| FileUpload.FileOf | MAPH/screens/fileScreen.js:59-63 | the definition of the file object built from a picked URI; FileUpload.FileOfSpec states its name and type |
| FileUpload.FileOfSpec | MAPH/screens/fileScreen.js:57-63 | the kept name is the URI's tail after its last '/', holds no '/', and is the whole URI when there is none; the type is always JPEG |
| FileUpload.FieldNames | MAPH/screens/fileScreen.js:93-122 | a bookkeeping fact: there is one field name per form entry; the names themselves are stated by FileUpload.FormPartsNames |
| FileUpload.FieldNamesAppend | MAPH/screens/fileScreen.js:93-122 | naming two forms one after the other names each in turn |
| FileUpload.ImageNames | MAPH/screens/fileScreen.js:96-116 | the image entries name `imageK` exactly for each image K that is set, in slot order |
| FileUpload.FormParts | MAPH/screens/fileScreen.js:93-122 | the definition of the multipart form; FileUpload.FormPartsNames and FileUpload.FormPartsFiles state its entries |
| FileUpload.FormPartsNames | MAPH/screens/fileScreen.js:93-122 | the form names the set images in slot order, then exactly `id_empresa`, `id_cedula`, `fecha`, `detalle`; with an image set it has at least five entries |
| FileUpload.FormPartsFiles | MAPH/screens/fileScreen.js:96-116 | each image that is set is in the form under its slot's name |
| FileUpload.FirstProblem | MAPH/screens/fileScreen.js:70-90 | the definition of the first failed check and its alert; FileUpload.FirstProblemSpec states when the upload goes ahead |
| FileUpload.FirstProblemSpec | MAPH/screens/fileScreen.js:70-90 | the upload goes ahead exactly when a patient is chosen, date and detail are non-empty and an image is set; a missing patient is reported first and a missing image last |
| FileUpload.FileScreen.constructor | MAPH/screens/fileScreen.js:18-24 | no patient, no date or detail, and three empty slots |
| FileUpload.FileScreen.PickImage | MAPH/screens/fileScreen.js:50-68 | a pick that was not cancelled and has assets fills the slot from the first asset; otherwise the slot is unchanged; other slots never change |
| FileUpload.FileScreen.SelectPatient | MAPH/screens/fileScreen.js:152-155 | the picker sets the patient |
| FileUpload.FileScreen.SetFields | MAPH/screens/fileScreen.js:169-195 | typing sets the date and the detail |
| FileUpload.FileScreen.AssembleFormData | MAPH/screens/fileScreen.js:93-122 | the entries appended one by one are the form of the current images, company, patient, date and detail |
| FileUpload.FileScreen.OnSubmit | MAPH/screens/fileScreen.js:70-143 | the first failed check alerts and nothing is uploaded; otherwise the form is posted, and success clears patient, date, detail and images while failure changes nothing |
| Principal.ScreenUser | MAPH/screens/principalScreen.js:6 | the definition of `route.params?.user \|\| {}`; Principal.GreetingOfScreenUser states what it gives |
| Principal.IsDependiente | MAPH/screens/principalScreen.js:13 | the definition of `user?.rol?.trim()?.toUpperCase() === "D"`; Principal.DependienteIff states when it holds |
| Principal.DependienteIff | MAPH/screens/principalScreen.js:13 | a user is dependent exactly when the trimmed role is "D" or "d"; without a role, never |
| Principal.PaddedRole | MAPH/screens/principalScreen.js:13 | a role of "d" or "D" with white space around it is a dependent's role |
| Principal.Greeting | MAPH/screens/principalScreen.js:18-20 | the definition of the welcome text; Principal.GreetingOfScreenUser states what it shows |
| Principal.GreetingOfScreenUser | MAPH/screens/principalScreen.js:6-20 | without a user parameter the screen greets "Bienvenido: Usuario "; with one it uses that user; the greeting is exactly "Bienvenido: " followed by the name (or "Usuario" when missing or empty), a space, and the surname (or nothing when missing or empty), in all four cases |
| Principal.Menu | MAPH/screens/principalScreen.js:24-68 | the definition of the menu buttons; Principal.MenuSpec and Principal.RestrictedEntries state which are shown |
| Principal.MenuSpec | MAPH/screens/principalScreen.js:24-68 | profile, agenda and patients always come first, each passed the user; reports and files follow, without parameters, exactly when the user is not dependent |
| Principal.RestrictedEntries | MAPH/screens/principalScreen.js:48-68 | reports and files appear in the menu exactly when the user is not dependent |
| ForgotPassword.RecoveryError | screens/forgotPasswordScreen.js:10-38 | the definition of the message recovery ends with; ForgotPassword.RecoveryErrorSpec states when there is none |
| ForgotPassword.RecoveryErrorSpec | screens/forgotPasswordScreen.js:10-38 | recovery succeeds exactly when neither field is blank and the server reports success; a blank e-mail is reported first and a blank reason next; every thrown error is a connection error |
| ForgotPassword.ForgotPasswordScreen.constructor | screens/forgotPasswordScreen.js:6-8 | both fields and the error start empty |
| ForgotPassword.ForgotPasswordScreen.SetEmail | screens/forgotPasswordScreen.js:47 | typing sets the e-mail |
| ForgotPassword.ForgotPasswordScreen.SetReason | screens/forgotPasswordScreen.js:55 | typing sets the reason |
| ForgotPassword.ForgotPasswordScreen.HandleForgotPassword | screens/forgotPasswordScreen.js:10-38 | the fields are posted as typed exactly when neither is blank; success alerts and goes back to 'Inicio'; every other outcome sets its message |
| UserProfile.ProfileScreen.constructor | screens/userProfile.js:6-8 | the form is a copy of the user and editing is off |
| UserProfile.ProfileScreen.HandleInputChange | screens/userProfile.js:10-15 | only the named field changes |
| UserProfile.ProfileScreen.TypeInto | screens/userProfile.js:39-76 | typing takes effect only in an editable input, so the id always stays the user's |
| UserProfile.ProfileScreen.HandleEdit | screens/userProfile.js:17-19 | "Editar" turns editing on |
| UserProfile.ProfileScreen.HandleAccept | screens/userProfile.js:21-33 | the form is sent; status 200 alerts, ends editing and goes to the main menu with the edited copy; a failure keeps editing on and does not navigate |
| UserProfile.TypingKeepsId | screens/userProfile.js:55-60 | however much is typed, the id stays the one the form started with, and nothing changes while editing is off |

## Left out

- The HTTP calls are not modelled, and no backend is. Each handler takes the reply its call came back with as a parameter.
- A reload that a handler starts without awaiting it (`fetchEvents()`, `fetchConsultationData()`) is modelled as running to completion inside the handler, with its own reply parameter.
- The AsyncStorage writes in the login are recorded as two fields of the screen. The user is stored as the user map; its JSON text is not modelled.
- The ImagePicker permission request and the gallery launch are device APIs. A pick is a `PickResult` parameter.
- Loading the patient lists (`fetchPatients`) is not modelled: the lists only feed pickers.
- JSX rendering, styles, and the Modal, Picker, Calendar and MaskInput widgets are not modelled. The items a list would draw and the menu buttons are functions.
- The route tables and the second, conditionless principal screen are not part of this model.
- React's batching of state updates and stale closures are not modelled. Each handler sees the state as it was when it started, and its updates take effect in order.
- Double taps and concurrency between requests in flight are not modelled.
- `toUpperCase` is modelled on ASCII letters only. Other letters are left as they are.
- The loose `==` between a string `code` and 200 is modelled for integer text only: an optional sign, decimal digits and surrounding white space, with blank text converting to 0. Decimal fractions, exponents, hexadecimal and `Infinity` are not modelled.
- `handleModalChange` is the same update as `handleChange`, so one method models both.
- The date and detail of the upload form, which react-hook-form manages, are two optional fields of the screen, set through one method.
- A consultation or diary record whose `fecha` or id is `null` makes `split` or `toString` throw before any state changes. The model's records always carry both.
- Decimal.NatToString, Decimal.IntToString, Decimal.ParseInt, Agenda.ToEvent, Consultation.RecordValue and Consultation.BuildPayload: `numero_cita` and `id_consulta` are JavaScript Numbers (doubles), modelled as unbounded integers. The model does not capture that `toString()` switches to exponent form from 1e21 on, that a non-integral id would render with a fraction, or that integers beyond 2^53 lose precision in `parseInt` and in the record itself. Decimal.IntToStringInjective, and the claim that distinct appointment numbers give distinct event ids, hold only for the integers a double represents exactly.
- axios rejects a status outside 200-299 by default. The model also admits `Response` replies with other statuses, which the handlers treat as the code does.
