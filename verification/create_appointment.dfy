/** The new-appointment form of the `ui/features` revision: the patient
    spinner, the date text, the field validation and the outcome of a
    submission, as the feedback shown and the requests issued. */
module CreateAppointmentScreen {
  import opened Kotlin
  import opened Models
  import opened Session
  import opened Gateway
  import Repository

  const LoadFailed := "Error cargando pacientes"
  const MissingFields := "Completa todos los campos obligatorios"
  const Created := "Cita creada correctamente"
  const CreateFailed := "Error al crear cita"
  const Unexpected := "Error inesperado"

  /** The time of day and zone every new appointment is booked at. */
  const BookingTime := "T09:00:00Z"

  /** What the user sees after an action: nothing, or a toast. */
  datatype Feedback = NoFeedback | Toast(text: string)

  /** The submitted date: the picker's day text at the booking time. */
  function IsoDate(day: string): (r: string)
    ensures |r| == |day| + |BookingTime| && r[..|day|] == day
  {
    day + BookingTime
  }

  /** The day text of a submitted date, when it has the booking suffix. */
  function DayOf(iso: string): (r: Option<string>)
    ensures r.Some? ==> |iso| >= |BookingTime| && iso[|iso| - |BookingTime|..] == BookingTime
  {
    if |iso| >= |BookingTime| && iso[|iso| - |BookingTime|..] == BookingTime
    then Some(iso[..|iso| - |BookingTime|])
    else None
  }

  /** The day is recovered from the submitted date, and two different days
      never submit the same date. */
  lemma IsoDateRoundTrip(day: string, other: string)
    ensures DayOf(IsoDate(day)) == Some(day)
    ensures IsoDate(day) == IsoDate(other) ==> day == other
  {
    assert IsoDate(day)[|day|..] == BookingTime;
    if IsoDate(day) == IsoDate(other) {
      assert DayOf(IsoDate(other)) == Some(other);
    }
  }

  /** The spinner's labels, one per patient, in list order. */
  function SpinnerLabels(patients: seq<PatientItem>): (labels: seq<string>)
    ensures |labels| == |patients|
    ensures forall i :: 0 <= i < |patients| ==> labels[i] == FullName(patients[i].name, patients[i].surname)
  {
    seq(|patients|, i requires 0 <= i < |patients| => FullName(patients[i].name, patients[i].surname))
  }

  /** The id remembered when spinner position `position` is selected. */
  function SelectedId(patients: seq<PatientItem>, position: nat): (r: string)
    requires position < |patients|
    ensures r == patients[position].id
    ensures exists p :: p in patients && r == p.id
  {
    patients[position].id
  }

  /** The label at a position names the very patient whose id that position
      selects: the label gives back that patient's name and surname. */
  lemma SpinnerPositionsAgree(patients: seq<PatientItem>, position: nat)
    requires position < |patients|
    requires forall k :: 0 <= k < |patients[position].name| ==> patients[position].name[k] != ' '
    ensures var p := patients[position];
      && SplitName(SpinnerLabels(patients)[position]) == (p.name, p.surname)
      && SelectedId(patients, position) == p.id
  {
    FullNameSplits(patients[position].name, patients[position].surname);
  }

  /** The form after `loadPatients`: the spinner's patients and labels, the
      feedback shown and the requests issued. */
  datatype Form = Form(patients: seq<PatientItem>, labels: seq<string>, feedback: Feedback, calls: seq<Request>)

  function LoadForm(store: Prefs, gw: Backend): (r: Form)
    ensures var run := Repository.GetAllPatients(store, gw);
      && r.calls == run.calls
      && |r.labels| == |r.patients|
      && (run.outcome.Returned? ==> r.patients == run.outcome.value && r.feedback == NoFeedback)
      && (run.outcome.Thrown? ==> r.patients == [] && r.feedback == Toast(LoadFailed))
    ensures forall i :: 0 <= i < |r.patients| ==> r.labels[i] == FullName(r.patients[i].name, r.patients[i].surname)
  {
    var run := Repository.GetAllPatients(store, gw);
    match run.outcome
    case Returned(ps) => Form(ps, SpinnerLabels(ps), NoFeedback, run.calls)
    case Thrown(_) => Form([], [], Toast(LoadFailed), run.calls)
  }

  /** What pressing "save" does: the feedback shown, whether the screen is
      left, and the requests issued. */
  datatype Submission = Submission(feedback: Feedback, popBack: bool, calls: seq<Request>)

  predicate Complete(dateInput: string, diagnosis: string, treatment: string) {
    !IsBlank(dateInput) && !IsBlank(diagnosis) && !IsBlank(treatment)
  }

  function CreateAppointment(store: Prefs, gw: Backend, selected: Option<string>, dateInput: string,
                             diagnosis: string, treatment: string, observations: string): (r: Submission)
    // no selection: silently nothing, before any validation
    ensures selected.None? ==> r == Submission(NoFeedback, false, [])
    ensures selected.Some? && !Complete(dateInput, diagnosis, treatment) ==>
      r == Submission(Toast(MissingFields), false, [])
    ensures selected.Some? && Complete(dateInput, diagnosis, treatment) ==>
      var run := Repository.CreateAppointmentForPatient(store, gw, selected.value, IsoDate(dateInput),
                                                        diagnosis, treatment, observations);
      && r.calls == run.calls
      && (r.popBack <==> run.outcome.Returned? && run.outcome.value.ok)
      && (run.outcome.Thrown? ==> r.feedback == Toast(CreateFailed))
      && (r.popBack ==> r.feedback == Toast(Created))
      && (run.outcome.Returned? && !run.outcome.value.ok ==>
            r.feedback == Toast(run.outcome.value.message.OrElse(Unexpected)))
  {
    match selected
    case None => Submission(NoFeedback, false, [])
    case Some(patientId) =>
      if !Complete(dateInput, diagnosis, treatment) then Submission(Toast(MissingFields), false, [])
      else
        var run := Repository.CreateAppointmentForPatient(store, gw, patientId, IsoDate(dateInput),
                                                          diagnosis, treatment, observations);
        match run.outcome
        case Thrown(_) => Submission(Toast(CreateFailed), false, run.calls)
        case Returned(resp) =>
          if resp.ok then Submission(Toast(Created), true, run.calls)
          else Submission(Toast(resp.message.OrElse(Unexpected)), false, run.calls)
  }

  /** A posted appointment carries the picker's day at the booking time, the
      session's own user as physio and the typed fields unchanged, and is
      posted under the selected patient's id. */
  lemma SubmittedRequest(store: Prefs, gw: Backend, patientId: string, dateInput: string,
                         diagnosis: string, treatment: string, observations: string)
    requires Complete(dateInput, diagnosis, treatment)
    requires |CreateAppointment(store, gw, Some(patientId), dateInput, diagnosis, treatment, observations).calls| == 2
    ensures var calls := CreateAppointment(store, gw, Some(patientId), dateInput, diagnosis, treatment, observations).calls;
      && calls[1].AddAppointment?
      && calls[1].recordId == patientId
      && DayOf(calls[1].body.date) == Some(dateInput)
      && Read(store).userId == Some(calls[1].body.physio)
      && calls[1].body.diagnosis == diagnosis && calls[1].body.treatment == treatment
      && calls[1].body.observations == Some(observations)
  {
    IsoDateRoundTrip(dateInput, dateInput);
  }

  /** A repository precondition failure on the session (no token, no user
      id) surfaces only as the generic creation error, before any request. */
  lemma PreconditionFailureShowsCreateFailed(store: Prefs, gw: Backend, patientId: string, dateInput: string,
                                             diagnosis: string, treatment: string, observations: string)
    requires Complete(dateInput, diagnosis, treatment)
    requires GetToken(store).None? || Read(store).userId.None?
    ensures CreateAppointment(store, gw, Some(patientId), dateInput, diagnosis, treatment, observations)
         == Submission(Toast(CreateFailed), false, [])
  {
  }

  /** A patient without a record also surfaces only as the generic creation
      error; the detail lookup is the one request issued. */
  lemma MissingRecordShowsCreateFailed(store: Prefs, gw: Backend, patientId: string, dateInput: string,
                                       diagnosis: string, treatment: string, observations: string)
    requires Complete(dateInput, diagnosis, treatment)
    requires GetToken(store).Some? && Read(store).userId.Some?
    requires gw.getPatientDetail(Bearer(GetToken(store).value), patientId).Returned?
    requires Repository.FirstRecordId(gw.getPatientDetail(Bearer(GetToken(store).value), patientId).value).None?
    ensures CreateAppointment(store, gw, Some(patientId), dateInput, diagnosis, treatment, observations)
         == Submission(Toast(CreateFailed), false, [Request.GetPatientDetail(Bearer(GetToken(store).value), patientId)])
  {
  }
}
