/** The consultations screen's states and how a fetched list settles into
    one, shared by both view-model revisions. The revisions differ in what a
    patient's entries are: flat entries in `ui/features`, the record's own
    appointments in `ui/main`. */
module Consultations {
  import opened Kotlin
  import opened Models
  import opened Timeline

  datatype ConsultationsUiState<+A> =
    | Loading
    | SuccessPhysio(all: seq<AppointmentFlat>)
    | SuccessPatient(pending: seq<A>, history: seq<A>)
    | Error(message: string)

  const Unexpected := "Error inesperado"
  const PhysioFallback := "Error al cargar citas"

  /** What the patient branch settles on once the list `xs` is in hand: the
      split by date, each half a filter of `xs` and so in its order (see
      `FilterKeepsOrder`), or the error of the first date that fails to
      parse. */
  ghost predicate SplitOutcome<A(!new)>(xs: seq<A>, dateOf: A -> string, parse: string -> Fallible<Instant>,
                                        now: Instant, s: ConsultationsUiState<A>) {
    && (s.Error? <==> exists i :: 0 <= i < |xs| && parse(dateOf(xs[i])).Thrown?)
    && (s.Error? ==> exists i :: 0 <= i < |xs| && parse(dateOf(xs[i])).Thrown?
                                && (forall j :: 0 <= j < i ==> parse(dateOf(xs[j])).Returned?)
                                && s.message == ErrorText(parse(dateOf(xs[i])).message, Unexpected))
    && (!s.Error? ==> s.SuccessPatient?)
    && (s.SuccessPatient? ==>
          && s.pending == Filter(xs, IsPending(dateOf, parse, now))
          && s.history == Filter(xs, Not(IsPending(dateOf, parse, now)))
          && multiset(s.pending) + multiset(s.history) == multiset(xs)
          && (forall x :: x in s.pending <==> x in xs && parse(dateOf(x)).Returned? && parse(dateOf(x)).value > now)
          && (forall x :: x in s.history <==> x in xs && parse(dateOf(x)).Returned? && parse(dateOf(x)).value <= now))
  }

  /** The patient branch's `try` body after the fetch, and its `catch`. */
  function PatientState<A(!new)>(xs: seq<A>, dateOf: A -> string, parse: string -> Fallible<Instant>,
                                 now: Instant): (s: ConsultationsUiState<A>)
    ensures SplitOutcome(xs, dateOf, parse, now, s)
  {
    match Split(xs, dateOf, parse, now)
    case Thrown(m) => Error(ErrorText(m, Unexpected))
    case Returned(parts) => SuccessPatient(parts.0, parts.1)
  }

  /** What the physio branch settles on for the list endpoint's reply. */
  ghost predicate PhysioOutcome<A>(reply: Fallible<ApiResponse<seq<AppointmentFlat>>>, s: ConsultationsUiState<A>) {
    && (reply.Thrown? ==> s == Error(ErrorText(reply.message, Unexpected)))
    && (reply.Returned? ==>
          && (s.SuccessPhysio? <==> reply.value.ok && reply.value.result.Some?)
          && (s.SuccessPhysio? ==> s.all == reply.value.result.value)
          && (!s.SuccessPhysio? ==> s == Error(reply.value.message.OrElse(PhysioFallback))))
  }

  function PhysioState<A>(reply: Fallible<ApiResponse<seq<AppointmentFlat>>>): (s: ConsultationsUiState<A>)
    ensures reply.Thrown? ==> s == Error(ErrorText(reply.message, Unexpected))
    ensures reply.Returned? ==> (s.SuccessPhysio? <==> reply.value.ok && reply.value.result.Some?)
    ensures s.SuccessPhysio? ==> s.all == reply.value.result.value
    ensures reply.Returned? && !s.SuccessPhysio? ==> s == Error(reply.value.message.OrElse(PhysioFallback))
  {
    match reply
    case Thrown(m) => Error(ErrorText(m, Unexpected))
    case Returned(resp) =>
      if resp.ok && resp.result.Some? then SuccessPhysio(resp.result.value)
      else Error(resp.message.OrElse(PhysioFallback))
  }
}

/** `loadConsultations` of the `ui/features` revision: a patient's flat
    appointments come from the patient-detail endpoint; every other role gets
    the appointments of the physio whose id is in the session. */
module FeaturesConsultations {
  import opened Kotlin
  import opened Models
  import opened Session
  import opened Gateway
  import opened Flattening
  import opened Timeline
  import opened ViewState
  import opened Consultations
  import RemoteSource
  import Repository

  const NoAppointments := "No tienes citas programadas"

  function DateOfFlat(f: AppointmentFlat): string { f.date }

  function LoadConsultations(store: Prefs, gw: Backend, parse: string -> Fallible<Instant>, now: Instant)
    : (r: Load<ConsultationsUiState<AppointmentFlat>>)
    ensures |r.states| == 2 && r.states[0] == Loading
    ensures var sd := Read(store);
      var token := OrEmpty(sd.token);
      var reply := gw.getPatientDetail(Bearer(token), OrEmpty(sd.userId));
      OrEmpty(sd.role) == PatientRole ==>
        && r.calls == [Request.GetPatientDetail(Bearer(token), OrEmpty(sd.userId))]
        && Authorized(r.calls, token)
        && (reply.Thrown? ==> r.states[1] == Error(ErrorText(reply.message, Unexpected)))
        && (reply.Returned? && !(reply.value.ok && reply.value.result.Some?) ==>
              r.states[1] == Error(reply.value.message.OrElse(NoAppointments)))
        && (reply.Returned? && reply.value.ok && reply.value.result.Some? ==>
              SplitOutcome(Flatten(reply.value.result.value.patient, reply.value.result.value.records),
                           DateOfFlat, parse, now, r.states[1]))
    ensures var sd := Read(store);
      OrEmpty(sd.role) != PatientRole ==>
        && (sd.token.None? ==> r.calls == [] && r.states[1] == Error(Repository.InvalidToken))
        && (sd.token.Some? && sd.userId.None? ==> r.calls == [] && r.states[1] == Error(Repository.NoUserId))
        && (sd.token.Some? && sd.userId.Some? ==>
              && r.calls == [Request.GetAppointmentsByPhysio(Bearer(sd.token.value), sd.userId.value)]
              && Authorized(r.calls, sd.token.value)
              && PhysioOutcome(gw.getAppointmentsByPhysio(Bearer(sd.token.value), sd.userId.value), r.states[1]))
  {
    var sd := Read(store);
    if OrEmpty(sd.role) == PatientRole then
      var call := RemoteSource.GetMyAppointments(gw, OrEmpty(sd.token), OrEmpty(sd.userId));
      var state := match call.outcome
        case Thrown(m) => Error(ErrorText(m, Unexpected))
        case Returned(resp) =>
          if !resp.ok || resp.result.None? then Error(resp.message.OrElse(NoAppointments))
          else PatientState(resp.result.value, DateOfFlat, parse, now);
      Load([Loading, state], call.calls)
    else
      var call := Repository.GetMyAppointmentsAsPhysio(store, gw);
      Load([Loading, PhysioState(call.outcome)], call.calls)
  }
}

/** `loadConsultations` of the `ui/main` revision: a patient's appointments
    are those of the record whose id is the patient's user id; every other
    role gets the full flat list. */
module MainConsultations {
  import opened Kotlin
  import opened Models
  import opened Session
  import opened Gateway
  import opened Timeline
  import opened ViewState
  import opened Consultations
  import RemoteSource

  const NoRecord := "No tiene expediente"

  function DateOfItem(a: AppointmentItem): string { a.date }

  function LoadConsultations(store: Prefs, gw: Backend, parse: string -> Fallible<Instant>, now: Instant)
    : (r: Load<ConsultationsUiState<AppointmentItem>>)
    ensures |r.states| == 2 && r.states[0] == Loading
    ensures var sd := Read(store); Authorized(r.calls, OrEmpty(sd.token))
    ensures var sd := Read(store);
      var token := OrEmpty(sd.token);
      var reply := gw.getRecord(Bearer(token), OrEmpty(sd.userId));
      OrEmpty(sd.role) == PatientRole ==>
        && r.calls == [Request.GetRecord(Bearer(token), OrEmpty(sd.userId))]
        && (reply.Thrown? ==> r.states[1] == Error(ErrorText(reply.message, Unexpected)))
        && (reply.Returned? && !(reply.value.ok && reply.value.result.Some?) ==>
              r.states[1] == Error(reply.value.message.OrElse(NoRecord)))
        && (reply.Returned? && reply.value.ok && reply.value.result.Some? ==>
              SplitOutcome(reply.value.result.value.appointments, DateOfItem, parse, now, r.states[1]))
    ensures var sd := Read(store);
      var token := OrEmpty(sd.token);
      OrEmpty(sd.role) != PatientRole ==>
        && r.calls == [Request.GetAppointments(Bearer(token))]
        && PhysioOutcome(gw.getAppointments(Bearer(token)), r.states[1])
  {
    var sd := Read(store);
    var token := OrEmpty(sd.token);
    if OrEmpty(sd.role) == PatientRole then
      var call := RemoteSource.FetchRecordById(gw, token, OrEmpty(sd.userId));
      var state := match call.outcome
        case Thrown(m) => Error(ErrorText(m, Unexpected))
        case Returned(resp) =>
          if !resp.ok || resp.result.None? then Error(resp.message.OrElse(NoRecord))
          else PatientState(resp.result.value.appointments, DateOfItem, parse, now);
      Load([Loading, state], call.calls)
    else
      var call := RemoteSource.FetchAppointments(gw, token);
      Load([Loading, PhysioState(call.outcome)], call.calls)
  }
}
