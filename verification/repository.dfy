/** The repository's composed operations. Each reads the session first and
    fails fast, with a local exception and before any request, when a
    prerequisite is missing; otherwise it issues its requests through the
    remote data source. */
module Repository {
  import opened Kotlin
  import opened Models
  import opened Session
  import opened Gateway
  import opened Envelopes
  import RemoteSource

  const InvalidToken := "Token inválido"
  const PatientsFallback := "Error al cargar pacientes"
  const NoPhysioId := "ID de physio no disponible"
  const NoUserId := "ID no disponible"
  const NoRecord := "No se encontró un expediente para este paciente"

  /** `result?.records?.firstOrNull()?._id`: the id of the patient's first
      record, whatever the envelope's `ok` flag says. */
  function FirstRecordId(resp: ApiResponse<PatientDetailResponse>): (r: Option<string>)
    ensures r.Some? <==> resp.result.Some? && |resp.result.value.records| > 0
  {
    match resp.result
    case None => None
    case Some(d) => if |d.records| == 0 then None else Some(d.records[0].id)
  }

  /** `getAllPatients`: the backend's list when it answers ok with a list;
      otherwise an exception with its message or the fallback. */
  function GetAllPatients(store: Prefs, gw: Backend): (r: Run<seq<PatientItem>>)
    ensures GetToken(store).None? ==> r == Run(Thrown(Some(InvalidToken)), [])
    ensures GetToken(store).Some? ==> var t := GetToken(store).value;
      && r.calls == [GetPatients(Bearer(t))]
      && var reply := gw.getPatients(Bearer(t));
      && (r.outcome.Returned? <==> reply.Returned? && reply.value.ok && reply.value.result.Some?)
      && (r.outcome.Returned? ==> r.outcome.value == reply.value.result.value)
      && (reply.Thrown? ==> r.outcome == Thrown(reply.message))
      && (reply.Returned? && r.outcome.Thrown? ==>
            r.outcome == Thrown(Some(reply.value.message.OrElse(PatientsFallback))))
  {
    match GetToken(store)
    case None => Run(Thrown(Some(InvalidToken)), [])
    case Some(t) =>
      var call := RemoteSource.FetchAllPatients(gw, t);
      Run(Expect(call.outcome, PatientsFallback), call.calls)
  }

  /** The request `createAppointmentForPatient` submits: the physio is the
      session's own user id, the other fields are passed through. */
  function NewAppointment(physioId: string, date: string, diagnosis: string, treatment: string, observations: string): AppointmentRequest {
    AppointmentRequest(date := date, physio := physioId, diagnosis := diagnosis, treatment := treatment, observations := Some(observations))
  }

  /** `createAppointmentForPatient`: checks the token, then the session's
      user id, then that the patient has a first record; only then posts the
      appointment, under the patient's id. */
  function CreateAppointmentForPatient(store: Prefs, gw: Backend, patientId: string, date: string,
                                       diagnosis: string, treatment: string, observations: string): (r: Run<ApiResponse<RecordItem>>)
    ensures GetToken(store).None? ==> r == Run(Thrown(Some(InvalidToken)), [])
    ensures GetToken(store).Some? && Read(store).userId.None? ==> r == Run(Thrown(Some(NoPhysioId)), [])
    ensures GetToken(store).Some? && Read(store).userId.Some? ==>
      var t := GetToken(store).value;
      var detail := gw.getPatientDetail(Bearer(t), patientId);
      var req := NewAppointment(Read(store).userId.value, date, diagnosis, treatment, observations);
      && 1 <= |r.calls| <= 2
      && r.calls[0] == Request.GetPatientDetail(Bearer(t), patientId)
      && Authorized(r.calls, t)
      && (detail.Thrown? ==> r == Run(Thrown(detail.message), r.calls[..1]))
      && (detail.Returned? && FirstRecordId(detail.value).None? ==> r == Run(Thrown(Some(NoRecord)), r.calls[..1]))
      && (|r.calls| == 2 <==> detail.Returned? && FirstRecordId(detail.value).Some?)
      && (|r.calls| == 2 ==> r.calls[1] == Request.AddAppointment(Bearer(t), patientId, req))
      && (|r.calls| == 2 ==> r.outcome == gw.addAppointment(Bearer(t), patientId, req))
  {
    match GetToken(store)
    case None => Run(Thrown(Some(InvalidToken)), [])
    case Some(t) =>
      match Read(store).userId
      case None => Run(Thrown(Some(NoPhysioId)), [])
      case Some(physioId) =>
        var lookup := RemoteSource.GetPatientDetail(gw, t, patientId);
        match lookup.outcome
        case Thrown(m) => Run(Thrown(m), lookup.calls)
        case Returned(resp) =>
          if FirstRecordId(resp).None? then Run(Thrown(Some(NoRecord)), lookup.calls)
          else
            var post := RemoteSource.AddAppointment(gw, t, patientId, NewAppointment(physioId, date, diagnosis, treatment, observations));
            Run(post.outcome, lookup.calls + post.calls)
  }

  /** The record check looks only at the first record, not at `ok` or the
      message: two detail answers with the same result lead to the same
      outcome and the same requests. */
  lemma RecordCheckIgnoresOk(store: Prefs, gw: Backend, gw': Backend, patientId: string, date: string,
                             diagnosis: string, treatment: string, observations: string, t: string)
    requires GetToken(store) == Some(t)
    requires gw.getPatientDetail(Bearer(t), patientId).Returned?
    requires gw'.getPatientDetail(Bearer(t), patientId).Returned?
    requires gw.getPatientDetail(Bearer(t), patientId).value.result == gw'.getPatientDetail(Bearer(t), patientId).value.result
    requires gw.addAppointment == gw'.addAppointment
    ensures CreateAppointmentForPatient(store, gw, patientId, date, diagnosis, treatment, observations)
         == CreateAppointmentForPatient(store, gw', patientId, date, diagnosis, treatment, observations)
  {
  }

  /** `getMyAppointmentsAsPhysio`: after the token and user-id checks, the
      session's own id is the physio queried; the envelope is returned as is. */
  function GetMyAppointmentsAsPhysio(store: Prefs, gw: Backend): (r: Run<ApiResponse<seq<AppointmentFlat>>>)
    ensures GetToken(store).None? ==> r == Run(Thrown(Some(InvalidToken)), [])
    ensures GetToken(store).Some? && Read(store).userId.None? ==> r == Run(Thrown(Some(NoUserId)), [])
    ensures GetToken(store).Some? && Read(store).userId.Some? ==>
      var t := GetToken(store).value;
      var id := Read(store).userId.value;
      r == Run(gw.getAppointmentsByPhysio(Bearer(t), id), [Request.GetAppointmentsByPhysio(Bearer(t), id)])
  {
    match GetToken(store)
    case None => Run(Thrown(Some(InvalidToken)), [])
    case Some(t) =>
      match Read(store).userId
      case None => Run(Thrown(Some(NoUserId)), [])
      case Some(physioId) => RemoteSource.GetAppointmentsByPhysio(gw, t, physioId)
  }

  /** `deleteAppointment`: needs a token; the envelope is returned as is. */
  function DeleteAppointment(store: Prefs, gw: Backend, appointmentId: string): (r: Run<ApiResponse<MessageResponse>>)
    ensures GetToken(store).None? ==> r == Run(Thrown(Some(InvalidToken)), [])
    ensures GetToken(store).Some? ==>
      var t := GetToken(store).value;
      r == Run(gw.deleteAppointment(Bearer(t), appointmentId), [Request.DeleteAppointment(Bearer(t), appointmentId)])
  {
    match GetToken(store)
    case None => Run(Thrown(Some(InvalidToken)), [])
    case Some(t) => RemoteSource.DeleteAppointment(gw, t, appointmentId)
  }

  /** No repository operation issues a request without a stored token. */
  lemma NoTokenNoRequest(store: Prefs, gw: Backend, patientId: string, date: string, diagnosis: string,
                         treatment: string, observations: string, appointmentId: string)
    requires GetToken(store).None?
    ensures GetAllPatients(store, gw).calls == []
    ensures CreateAppointmentForPatient(store, gw, patientId, date, diagnosis, treatment, observations).calls == []
    ensures GetMyAppointmentsAsPhysio(store, gw).calls == []
    ensures DeleteAppointment(store, gw, appointmentId).calls == []
  {
  }
}
