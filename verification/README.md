# PhysioCare client core, modelled in Dafny

PhysioCare is an Android client for a physiotherapy clinic's REST backend.
Patients, physiotherapists and administrators log in. Patients see their own
profile and appointments. Staff see patient lists, patient records and
appointment lists, and they can book appointments. This project models the
client's decision and transformation logic as pure functions over immutable
data:

- the backend envelope `ApiResponse` and how it is normalised or unwrapped;
- the `Bearer` header every protected request carries;
- the flattening of a patient detail into flat appointment entries;
- the repository's preconditions;
- the session store;
- the view models' loads, as the states they publish in order and the
  requests they issue;
- two rules that live in fragments: the past-treatments list of the patient
  detail screen, and the new-appointment form.

The backend is an uninterpreted parameter (`Gateway.Backend`). It has one
total function per endpoint, and each may answer or throw. The current time
and date parsing are parameters too.

Files:

- `kotlin.dfy`: nullables, exceptions, `?:`, `orEmpty`, `toString` of a null, `isBlank`.
- `models.dfy`: the data-layer records.
- `session.dfy`: `SessionManager`.
- `gateway.dfy`: requests, the backend and the Bearer header.
- `envelopes.dfy`: envelope normalisation and unwrapping.
- `flatten.dfy`: flattening a patient detail.
- `timeline.dfy`: filtering and the pending/history split.
- `remote_source.dfy` and `api_source.dfy`: the two data-source revisions.
- `repository.dfy`: `PhysioRepository`.
- `view_state.dfy`: a view model's published states and issued requests, and the patient role name.
- `login.dfy`, `patients.dfy`, `patient_detail.dfy` and `consultations.dfy`: the view models of both UI revisions, `ui/features` and `ui/main`, plus the older `ui/login` and the `auth/ui` login.
- `picker_date.dfy` and `create_appointment.dfy`: the new-appointment form.

## Model

| member | source | states |
|---|---|---|
| Models.FullNameSplits | app/src/main/java/edu/matiasborra/physiocare/data/remote/RemoteDataSource.kt:138 | a label `name + " " + surname` gives back the name and surname when the first name has no space |
| Session.Lookup | app/src/main/java/edu/matiasborra/physiocare/utils/SessionManager.kt:60-67 | a key reads as null exactly when it is absent from the store (never written, or removed by a clear), and otherwise as its stored value |
| Session.Save | app/src/main/java/edu/matiasborra/physiocare/utils/SessionManager.kt:77-89 | a read after `saveSession` yields exactly the saved four-tuple; the store's keys grow by the four session keys only, and every other key keeps its value |
| Session.Clear | app/src/main/java/edu/matiasborra/physiocare/utils/SessionManager.kt:94-98 | after `clearSession` every key reads as null, so all four session fields are null |
| Session.UnwrittenKeysReadNull | app/src/main/java/edu/matiasborra/physiocare/utils/SessionManager.kt:60-67 | each session field is null if and only if its key is absent; an empty store reads as no session |
| Session.ProjectionsAgree | app/src/main/java/edu/matiasborra/physiocare/utils/SessionManager.kt:103-113 | `getToken`, `getUsername` and `getUserId` agree with the corresponding `sessionFlow` fields |
| Session.LastWriteWins | app/src/main/java/edu/matiasborra/physiocare/utils/SessionManager.kt:83-88 | two saves leave the store as the second save alone would, and a read yields the second tuple |
| Session.ClearForgetsSave | app/src/main/java/edu/matiasborra/physiocare/utils/SessionManager.kt:83-97 | a clear after a save reads as no session; a save after a clear reads like the save alone |
| Gateway.BearerRoundTrip | app/src/main/java/edu/matiasborra/physiocare/data/remote/RemoteDataSource.kt:27-28 | the token is read back from `"Bearer " + token`, and different tokens give different headers (section 2.1 of RFC 6750) |
| Envelopes.Normalise | app/src/main/java/edu/matiasborra/physiocare/data/remote/RemoteDataSource.kt:156-163 | the result is ok exactly when the input is ok with a result; on success the result is kept and the message cleared; on failure the backend message is kept |
| Envelopes.NormaliseFixesNormalised | app/src/main/java/edu/matiasborra/physiocare/data/remote/RemoteDataSource.kt:158-162 | normalising leaves a normalised envelope unchanged, so normalising twice is normalising once |
| Envelopes.Expect | app/src/main/java/edu/matiasborra/physiocare/data/repository/PhysioRepository.kt:42-46 | the unwrap idiom returns the result exactly when the envelope is ok with a result; otherwise it throws the backend message or the fallback; a gateway exception passes through |
| Flattening.FirstMedicalRecord | app/src/main/java/edu/matiasborra/physiocare/ui/main/patients/detail/PatientDetailViewModel.kt:52 | the history text is the first record's, or null when there are no records |
| Flattening.FlatOf | app/src/main/java/edu/matiasborra/physiocare/data/remote/RemoteDataSource.kt:136-147 | id, date, diagnosis and treatment are copied; patientName is `name surname`; physioName is `name surname` or `""` without a physio; physioId is the physio's id or null; an absent observation becomes `"null"` |
| Flattening.FlatOfKeepsAppointment | app/src/main/java/edu/matiasborra/physiocare/data/remote/RemoteDataSource.kt:136-147 | the appointment is rebuilt from its flat entry unless its observation is the text `"null"` |
| Flattening.AbsentObservationsReadAsNull | app/src/main/java/edu/matiasborra/physiocare/data/remote/RemoteDataSource.kt:145 | an absent observation and the text `"null"` flatten identically |
| Flattening.FlatRecord | app/src/main/java/edu/matiasborra/physiocare/data/remote/RemoteDataSource.kt:135-148 | one flat entry per appointment of the record, entry `i` built from appointment `i` |
| Flattening.Flatten | app/src/main/java/edu/matiasborra/physiocare/data/remote/RemoteDataSource.kt:133-148 | the flat list's length is the sum of the records' appointment counts, and every entry names the patient |
| Flattening.FlattenIsMapOfConcatenation | app/src/main/java/edu/matiasborra/physiocare/data/remote/RemoteDataSource.kt:133-135 | flat entry `i` is the flat form of entry `i` of the concatenated appointments |
| Flattening.AllAppointmentsKeepsOrder | app/src/main/java/edu/matiasborra/physiocare/ui/main/patients/detail/PatientDetailViewModel.kt:48-49 | the concatenation of the records' appointments distributes over splitting the record list, and its length is the sum of the counts |
| Flattening.FlattenPosition | app/src/main/java/edu/matiasborra/physiocare/data/remote/RemoteDataSource.kt:133-135 | appointment `k` of record `j` sits at position (appointments before record `j`) + `k` of the flat list: record order, then appointment order |
| Flattening.FlattenDetail | app/src/main/java/edu/matiasborra/physiocare/data/remote/RemoteDataSource.kt:132-152 | an ok detail with a result becomes an ok list with no message, its length the sum of the counts; anything else becomes a failure with no result and the backend message |
| Timeline.Filter | app/src/main/java/edu/matiasborra/physiocare/ui/main/consultations/ConsultationsViewModel.kt:63-68 | the filtered list is no longer than the input and holds exactly the input's elements that satisfy the predicate |
| Timeline.FilterKeepsOrder | app/src/main/java/edu/matiasborra/physiocare/ui/main/consultations/ConsultationsViewModel.kt:63-68 | filtering distributes over concatenation, so it keeps the original order |
| Timeline.FilterCounts | app/src/main/java/edu/matiasborra/physiocare/ui/main/consultations/ConsultationsViewModel.kt:63-68 | each kept element appears in the filtered list exactly as often as in the input, and rejected ones not at all |
| Timeline.FilterPartitions | app/src/main/java/edu/matiasborra/physiocare/ui/main/consultations/ConsultationsViewModel.kt:63-68 | a filter and its complement together hold every element of the list exactly as often as the list does |
| Timeline.FirstParseFailure | app/src/main/java/edu/matiasborra/physiocare/ui/features/consultations/ConsultationsViewModel.kt:89-90 | there is no failure exactly when every date parses, and a reported failure is the exception of the first element whose date fails, every earlier date parsing |
| Timeline.Split | app/src/main/java/edu/matiasborra/physiocare/ui/features/consultations/ConsultationsViewModel.kt:87-91 | the split throws exactly when some date fails to parse, with the exception of the first such date; otherwise pending and history together are a permutation of the list; pending holds exactly the entries dated strictly after now, history exactly those at or before now |
| Timeline.SplitKeepsOrder | app/src/main/java/edu/matiasborra/physiocare/ui/features/consultations/ConsultationsViewModel.kt:89-90 | both halves of the split keep the original order: splitting `a + b` is splitting `a` and `b` and concatenating |
| RemoteSource.Login | app/src/main/java/edu/matiasborra/physiocare/data/remote/RemoteDataSource.kt:19-20 | login issues exactly one request, which carries no Authorization header, and returns the backend's reply unchanged |
| RemoteSource.FetchAllPatients | app/src/main/java/edu/matiasborra/physiocare/data/remote/RemoteDataSource.kt:27-28 | one request to the patient list, authorised with `Bearer <token>`, and the backend's reply is returned unchanged |
| RemoteSource.FetchPatientById | app/src/main/java/edu/matiasborra/physiocare/data/remote/RemoteDataSource.kt:37-38 | one request for the patient, authorised with `Bearer <token>`, and the backend's reply is returned unchanged |
| RemoteSource.GetPatientDetail | app/src/main/java/edu/matiasborra/physiocare/data/remote/RemoteDataSource.kt:41-42 | one detail request, authorised with `Bearer <token>`, and the backend's reply is returned unchanged |
| RemoteSource.FetchRecordById | app/src/main/java/edu/matiasborra/physiocare/data/remote/RemoteDataSource.kt:96-97 | one record request, authorised with `Bearer <token>`, and the backend's reply is returned unchanged |
| RemoteSource.FetchAppointments | app/src/main/java/edu/matiasborra/physiocare/data/remote/RemoteDataSource.kt:93-94 | one request to the appointment list, authorised with `Bearer <token>`, and the backend's reply is returned unchanged |
| RemoteSource.AddAppointment | app/src/main/java/edu/matiasborra/physiocare/data/remote/RemoteDataSource.kt:112-113 | one post under the given id, authorised with `Bearer <token>`, and the backend's reply is returned unchanged |
| RemoteSource.GetAppointmentsByPhysio | app/src/main/java/edu/matiasborra/physiocare/data/remote/RemoteDataSource.kt:165-166 | one request for the physio's appointments, authorised with `Bearer <token>`, and the backend's reply is returned unchanged |
| RemoteSource.DeleteAppointment | app/src/main/java/edu/matiasborra/physiocare/data/remote/RemoteDataSource.kt:168-169 | one delete request, authorised with `Bearer <token>`, and the backend's reply is returned unchanged |
| RemoteSource.GetMyAppointments | app/src/main/java/edu/matiasborra/physiocare/data/remote/RemoteDataSource.kt:127-153 | one authorised detail request; a gateway exception passes through; the envelope is normalised, ok exactly when the detail is ok with a result; on success the list is the patient's flattened records, on failure the backend message is kept |
| RemoteSource.GetAppointments | app/src/main/java/edu/matiasborra/physiocare/data/remote/RemoteDataSource.kt:156-163 | one authorised request; an ok list is passed on unchanged with no message; an ok envelope without a list becomes a failure keeping the message |
| ApiSource.FetchAllPatients | app/src/main/java/edu/matiasborra/physiocare/data/api/RemoteDataSource.kt:49-50 | one request to the patient list; the header sent reads back, as a Bearer credential, as the token; the backend's reply is returned unchanged |
| ApiSource.GetMyAppointments | app/src/main/java/edu/matiasborra/physiocare/data/api/RemoteDataSource.kt:106-132 | one detail request; success gives an ok list with no message whose length is the sum of the appointment counts; failure gives `ok=false`, no result and the backend message |
| ApiSource.AgreesWithRemoteSource | app/src/main/java/edu/matiasborra/physiocare/data/api/RemoteDataSource.kt:106-132 | this revision's `getMyAppointments` issues the same request and returns the same envelope as the `data/remote` one |
| Repository.FirstRecordId | app/src/main/java/edu/matiasborra/physiocare/data/repository/PhysioRepository.kt:60 | a record id is found exactly when the detail carries a result with at least one record |
| Repository.GetAllPatients | app/src/main/java/edu/matiasborra/physiocare/data/repository/PhysioRepository.kt:39-47 | no token throws `"Token inválido"` with no request; otherwise one authorised request, whose list is returned when ok with a result, else it throws the backend message or `"Error al cargar pacientes"` |
| Repository.CreateAppointmentForPatient | app/src/main/java/edu/matiasborra/physiocare/data/repository/PhysioRepository.kt:49-72 | checks the token, then the session user id, then the first record, each failing with its own exception before any post; the post carries the session user as physio and the fields unchanged, is sent under the patient's id, and its reply is returned |
| Repository.RecordCheckIgnoresOk | app/src/main/java/edu/matiasborra/physiocare/data/repository/PhysioRepository.kt:59-61 | two detail answers with the same result, whatever their `ok` flags and messages, give the same outcome and the same requests |
| Repository.GetMyAppointmentsAsPhysio | app/src/main/java/edu/matiasborra/physiocare/data/repository/PhysioRepository.kt:148-152 | no token or no user id throws its message with no request; otherwise the session user is the physio queried and the envelope is returned unchanged |
| Repository.DeleteAppointment | app/src/main/java/edu/matiasborra/physiocare/data/repository/PhysioRepository.kt:154-157 | no token throws `"Token inválido"`; otherwise one authorised delete whose envelope is returned unchanged |
| Repository.NoTokenNoRequest | app/src/main/java/edu/matiasborra/physiocare/data/repository/PhysioRepository.kt:40-156 | without a stored token, no repository operation issues a request |
| AuthLogin.Login | app/src/main/java/edu/matiasborra/physiocare/auth/ui/LoginViewModel.kt:33-57 | blank input gives the credentials error with no Loading, request or session write; otherwise Loading, then Success with the response exactly when the reply is ok, saving the server's token, login, user id and role (`""` when absent) and keeping other keys; on failure the store is unchanged and the error is `error ?: "Login fallido"` or the exception's `?: "Error de red"` |
| AuthLogin.StoredUsernameIsServerLogin | app/src/main/java/edu/matiasborra/physiocare/auth/ui/LoginViewModel.kt:43-48 | the stored username is the server's login, not the typed one |
| UiLogin.Login | app/src/main/java/edu/matiasborra/physiocare/ui/login/LoginViewModel.kt:29-60 | blank input gives the credentials error with no request; otherwise Loading, then Success exactly when the reply is ok, with the session saved; otherwise the store is unchanged |
| UiLogin.AgreesWithAuthLogin | app/src/main/java/edu/matiasborra/physiocare/ui/login/LoginViewModel.kt:29-60 | the two login revisions publish the same states up to the success payload, issue the same requests and leave the same store |
| PatientsList.Fetch | app/src/main/java/edu/matiasborra/physiocare/ui/features/patients/PatientsViewModel.kt:71-88 | Loading, then one authorised request; role `"patient"` fetches the user's profile and succeeds with a one-element list, other roles the full list unchanged; failures show the message or the revision's fallback, exceptions their message or the revision's generic text |
| FeaturesPatients.LoadPatients | app/src/main/java/edu/matiasborra/physiocare/ui/features/patients/PatientsViewModel.kt:63-90 | missing token, role or user id count as `""`; the patient branch succeeds exactly when the profile reply is ok with a result, with that one patient, else `"Error al cargar perfil"`; other roles succeed exactly when the list reply is ok with a result, with that list unchanged, else `"Error al cargar pacientes"`; exceptions `"Error inesperado"` |
| MainPatients.LoadPatients | app/src/main/java/edu/matiasborra/physiocare/ui/main/patients/PatientsViewModel.kt:28-53 | Loading first; role and id come from the token's claims; a decoding failure leaves the screen at Loading with no request; otherwise the patient branch succeeds exactly when the profile reply is ok with a result, with that one patient, else `"No se pudo cargar tu paciente"`; other roles succeed exactly when the list reply is ok with a result, with that list unchanged, else `"Error al cargar pacientes"`; exceptions `"Error"` |
| MainPatients.AgreesWithFeatures | app/src/main/java/edu/matiasborra/physiocare/ui/main/patients/PatientsViewModel.kt:32-46 | when the token's claims name the session's role and user, both revisions issue the same request and succeed with the same patients; only the error fallbacks differ |
| FeaturesPatientDetail.LoadPatientAndRecords | app/src/main/java/edu/matiasborra/physiocare/ui/features/patients/detail/PatientDetailViewModel.kt:36-57 | Loading, then one request authorised with the stored token (`""` if none); Success with the patient and records unchanged exactly when ok with a result; otherwise `message ?: "Error cargando detalle"` or the exception's `?: "Error inesperado"` |
| MainPatientDetail.SettleSpec | app/src/main/java/edu/matiasborra/physiocare/ui/main/patients/detail/PatientDetailViewModel.kt:43-59 | Success exactly when ok with a result, with the patient unchanged, the first record's history text (null without records) and the in-order concatenation of all appointments; otherwise `message ?: "Error al cargar datos de paciente"` or the exception's `?: "Error inesperado"` |
| MainPatientDetail.LoadPatientAndRecords | app/src/main/java/edu/matiasborra/physiocare/ui/main/patients/detail/PatientDetailViewModel.kt:36-61 | as written: Loading, then one detail request whose header is `Bearer Bearer <token>`, settling on the reply as stated for SettleSpec |
| MainPatientDetail.DoubleBearer | app/src/main/java/edu/matiasborra/physiocare/ui/main/patients/detail/PatientDetailViewModel.kt:42 | the header sent reads back as the credential `"Bearer <token>"`, not the stored token, so the request is not authorised with it |
| MainPatientDetail.LoadPatientAndRecordsFixed | app/src/main/java/edu/matiasborra/physiocare/ui/main/patients/detail/PatientDetailViewModel.kt:36-61 | with the plain token handed on, the request carries `Bearer <token>`, reads back as the stored token, and settles on the reply as stated for SettleSpec |
| MainPatientDetail.FixedAgreesWithFeatures | app/src/main/java/edu/matiasborra/physiocare/ui/main/patients/detail/PatientDetailViewModel.kt:46-57 | the corrected load sends the `ui/features` request and succeeds exactly when it does, with the same patient, the first record's history text and the concatenation of the same records' appointments |
| PatientDetailScreen.PastAppointments | app/src/main/java/edu/matiasborra/physiocare/ui/features/patients/detail/PatientDetailFragment.kt:97-109 | the past list holds exactly the records' appointments whose date parses and lies strictly before now, each as often as it occurs in the records, and is no longer than all of them |
| PatientDetailScreen.PastAppointmentsKeepsOrder | app/src/main/java/edu/matiasborra/physiocare/ui/features/patients/detail/PatientDetailFragment.kt:97-109 | the past list keeps record order, then each record's appointment order: the list for `a + b` is the list for `a` followed by the list for `b`, and a single record's list is the filter of its appointments, so in their order |
| PatientDetailScreen.UnparsableDateDropped | app/src/main/java/edu/matiasborra/physiocare/ui/features/patients/detail/PatientDetailFragment.kt:100-108 | an appointment whose date fails to parse is left out, without an error |
| PatientDetailScreen.TreatmentLines | app/src/main/java/edu/matiasborra/physiocare/ui/features/patients/detail/PatientDetailFragment.kt:113-129 | one `"• " + treatment` line per past appointment, in order; an empty past list gives exactly the placeholder line |
| PatientDetailScreen.ShowTreatments | app/src/main/java/edu/matiasborra/physiocare/ui/features/patients/detail/PatientDetailFragment.kt:96-130 | a hidden section leaves the container as it was; a visible one ignores the container's previous lines and holds exactly the placeholder when nothing is past, and otherwise line `i` is `"• "` followed by past appointment `i`'s treatment |
| Consultations.PatientState | app/src/main/java/edu/matiasborra/physiocare/ui/features/consultations/ConsultationsViewModel.kt:86-91 | the state is an error with the first parse failure's message exactly when some date fails to parse; otherwise SuccessPatient, whose halves are the entries strictly after now and those not after now, each in the list's original order, together a permutation of the list |
| Consultations.PhysioState | app/src/main/java/edu/matiasborra/physiocare/ui/features/consultations/ConsultationsViewModel.kt:93-97 | SuccessPhysio with the list unchanged exactly when ok with a result; otherwise `message ?: "Error al cargar citas"`; exceptions `?: "Error inesperado"` |
| FeaturesConsultations.LoadConsultations | app/src/main/java/edu/matiasborra/physiocare/ui/features/consultations/ConsultationsViewModel.kt:71-103 | Loading first; a patient issues one detail request for their user id, with failures `message ?: "No tienes citas programadas"`, and on success their flattened appointments are split by date into pending and history, each in the original order; other roles go through the repository's physio query and its precondition errors |
| MainConsultations.LoadConsultations | app/src/main/java/edu/matiasborra/physiocare/ui/main/consultations/ConsultationsViewModel.kt:39-80 | Loading first; a patient issues one record request for their user id, with failures `message ?: "No tiene expediente"`, and on success the record's appointments are split by date into pending and history, each in the original order; other roles fetch the full flat list |
| PickerDate.Pad | app/src/main/java/edu/matiasborra/physiocare/ui/features/consultations/CreateAppointmentFragment.kt:69 | the text is all digits and exactly as wide as the field or the number, whichever is wider |
| PickerDate.PadRoundTrip | app/src/main/java/edu/matiasborra/physiocare/ui/features/consultations/CreateAppointmentFragment.kt:69 | a zero-padded number reads back as that number |
| PickerDate.FormatDay | app/src/main/java/edu/matiasborra/physiocare/ui/features/consultations/CreateAppointmentFragment.kt:67-69 | for four-digit years the picker's text is ten characters with dashes at positions 4 and 7 |
| PickerDate.FormatDayRoundTrip | app/src/main/java/edu/matiasborra/physiocare/ui/features/consultations/CreateAppointmentFragment.kt:67-69 | every day the picker can offer is read back from its `yyyy-MM-dd` text, with the month zero-based as the picker reports it |
| CreateAppointmentScreen.IsoDateRoundTrip | app/src/main/java/edu/matiasborra/physiocare/ui/features/consultations/CreateAppointmentFragment.kt:86 | the day text is recovered from the submitted date, and different days never submit the same date |
| CreateAppointmentScreen.SpinnerLabels | app/src/main/java/edu/matiasborra/physiocare/ui/features/consultations/CreateAppointmentFragment.kt:45 | one label per patient, in order, label `i` being `name surname` of patient `i` |
| CreateAppointmentScreen.SelectedId | app/src/main/java/edu/matiasborra/physiocare/ui/features/consultations/CreateAppointmentFragment.kt:52 | the remembered id is the id of the patient at the selected position |
| CreateAppointmentScreen.SpinnerPositionsAgree | app/src/main/java/edu/matiasborra/physiocare/ui/features/consultations/CreateAppointmentFragment.kt:45-52 | the label at a position gives back the name and surname of the patient whose id that position selects |
| CreateAppointmentScreen.LoadForm | app/src/main/java/edu/matiasborra/physiocare/ui/features/consultations/CreateAppointmentFragment.kt:41-62 | on success the spinner holds the repository's patients with one label each; on any exception it is empty and `"Error cargando pacientes"` is shown |
| CreateAppointmentScreen.CreateAppointment | app/src/main/java/edu/matiasborra/physiocare/ui/features/consultations/CreateAppointmentFragment.kt:74-104 | no selection does nothing, before validation; a blank date, diagnosis or treatment shows `"Completa todos los campos obligatorios"` with no request, whatever the observations; otherwise the repository's requests are issued; the screen is left exactly when the reply is ok, with the success toast; an exception shows `"Error al crear cita"`, a failure `message ?: "Error inesperado"` |
| CreateAppointmentScreen.SubmittedRequest | app/src/main/java/edu/matiasborra/physiocare/ui/features/consultations/CreateAppointmentFragment.kt:86-93 | a posted appointment goes under the selected patient's id, carries the typed day at `T09:00:00Z`, the session user as physio and the typed fields unchanged |
| CreateAppointmentScreen.PreconditionFailureShowsCreateFailed | app/src/main/java/edu/matiasborra/physiocare/ui/features/consultations/CreateAppointmentFragment.kt:100-101 | a repository precondition failure (no token, no user id) shows only `"Error al crear cita"` and issues no request |
| CreateAppointmentScreen.MissingRecordShowsCreateFailed | app/src/main/java/edu/matiasborra/physiocare/ui/features/consultations/CreateAppointmentFragment.kt:100-101 | a patient without a record shows only `"Error al crear cita"`, the detail lookup being the one request issued, and the screen stays |

## Left out

- HTTP, Retrofit and Gson decoding, and the two API-client factories. The backend is a parameter; any transport or decoding failure is an exception it may raise.
- Coroutines, `StateFlow` and DataStore asynchrony. Each load is a sequential function; overlapping loads and their last-write-wins race are not modelled.
- DataStore I/O failures while reading or writing the session.
- The JWT library. `MainPatients.LoadPatients` takes the decoding result as a parameter. A decoding exception escapes the coroutine; the model only says the screen stays at Loading with no request.
- PatientDetailScreen.PastAppointments: the fragment builds a fresh `Date()` for each appointment it tests; the model compares every appointment against one `now`, so an appointment dated between two of those clock readings is not modelled.
- Real date parsing and the clock. `ZonedDateTime.parse`, `SimpleDateFormat.parse` and "now" are parameters, and instants are integers compared by order.
- PickerDate.FormatDay: the calendar's leniency (a day past the month's end rolls over) and non-ASCII digits of the default locale are not modelled; the round trip is stated for four-digit years, months 0 to 11 and days 1 to 31.
- `auth.SessionManager`, which the repository and the `ui/login` and `ui/main` view models import, is not part of this model. They are modelled with `utils/SessionManager`'s store.
- Both login view models, `ui/login/LoginViewModel.kt` and `auth/ui/LoginViewModel.kt`, read fields their response type lacks. `PhysioRepository.login` (`data/repository/PhysioRepository.kt:3,16-17`) returns `auth/LoginUser.kt`'s `LoginResponse`, which has only `ok`, `token` and `error`. `auth/ui` reads `userId`, `rol` and `login` from it (`auth/ui/LoginViewModel.kt:45-47`), and `ui/login` reads `userId`, `rol` and `login` (`ui/login/LoginViewModel.kt:41-43`). As written, neither compiles against that type. The model gives both the response shape of `auth/data/LoginUser.kt`, which has every field they read.
- Repository operations that only forward to the data source (`getPatients`, `getPatient`, `getPatientDetail`, `getRecord`, `getAppointments`, `getMyAppointments`) are the data-source functions themselves.
- Data-source and repository endpoints no core screen uses: logout, search, create, update and delete of patients, physios and records, and appointment detail.
- Adapters, activities, layouts, navigation and logging.
- ApiSource.GetMyAppointments: its contract gives the success list's length; that the list equals the `data/remote` flattening is stated by `ApiSource.AgreesWithRemoteSource`.

## Findings

| source | as written | input that shows it | evidently intended | confidence | as-written member | corrected member |
|---|---|---|---|---|---|---|
| app/src/main/java/edu/matiasborra/physiocare/ui/main/patients/detail/PatientDetailViewModel.kt:42 | the view model hands `"Bearer $token"` to the repository, whose data source (`data/remote/RemoteDataSource.kt:41-42`) prefixes `"Bearer "` again, so the header is `Bearer Bearer <token>` | any stored token, e.g. `abc`: the header sent is `Bearer Bearer abc`, which a server reads as the credential `Bearer abc` | pass the plain token, so the header is `Bearer <token>` as on every other screen | high; not executed | MainPatientDetail.DoubleBearer | MainPatientDetail.LoadPatientAndRecordsFixed |
