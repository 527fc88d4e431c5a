/** The remote data source the repository uses (the `data/remote`
    revision): one gateway request per operation, with the header built as
    `Bearer <token>`, plus the two operations that reshape the envelope. */
module RemoteSource {
  import opened Kotlin
  import opened Models
  import opened Gateway
  import opened Envelopes
  import opened Flattening

  /** `login`: the one unprotected request. */
  function Login(gw: Backend, login: string, password: string): (r: Run<LoginResponse>)
    ensures r.calls == [Request.Login(LoginRequest(login, password))]
    ensures r.outcome == gw.login(LoginRequest(login, password))
    ensures r.calls[0].Authorization() == None
  {
    Run(gw.login(LoginRequest(login, password)), [Request.Login(LoginRequest(login, password))])
  }

  function FetchAllPatients(gw: Backend, token: string): (r: Run<ApiResponse<seq<PatientItem>>>)
    ensures r.calls == [GetPatients(Bearer(token))]
    ensures r.outcome == gw.getPatients(Bearer(token))
    ensures Authorized(r.calls, token)
  {
    Run(gw.getPatients(Bearer(token)), [GetPatients(Bearer(token))])
  }

  function FetchPatientById(gw: Backend, token: string, id: string): (r: Run<ApiResponse<PatientItem>>)
    ensures r.calls == [GetPatient(Bearer(token), id)]
    ensures r.outcome == gw.getPatient(Bearer(token), id)
    ensures Authorized(r.calls, token)
  {
    Run(gw.getPatient(Bearer(token), id), [GetPatient(Bearer(token), id)])
  }

  function GetPatientDetail(gw: Backend, token: string, id: string): (r: Run<ApiResponse<PatientDetailResponse>>)
    ensures r.calls == [Request.GetPatientDetail(Bearer(token), id)]
    ensures r.outcome == gw.getPatientDetail(Bearer(token), id)
    ensures Authorized(r.calls, token)
  {
    Run(gw.getPatientDetail(Bearer(token), id), [Request.GetPatientDetail(Bearer(token), id)])
  }

  function FetchRecordById(gw: Backend, token: string, id: string): (r: Run<ApiResponse<RecordItem>>)
    ensures r.calls == [GetRecord(Bearer(token), id)]
    ensures r.outcome == gw.getRecord(Bearer(token), id)
    ensures Authorized(r.calls, token)
  {
    Run(gw.getRecord(Bearer(token), id), [GetRecord(Bearer(token), id)])
  }

  /** `fetchAppointments`: the raw list endpoint, envelope untouched. */
  function FetchAppointments(gw: Backend, token: string): (r: Run<ApiResponse<seq<AppointmentFlat>>>)
    ensures r.calls == [Request.GetAppointments(Bearer(token))]
    ensures r.outcome == gw.getAppointments(Bearer(token))
    ensures Authorized(r.calls, token)
  {
    Run(gw.getAppointments(Bearer(token)), [Request.GetAppointments(Bearer(token))])
  }

  function AddAppointment(gw: Backend, token: string, recordId: string, req: AppointmentRequest): (r: Run<ApiResponse<RecordItem>>)
    ensures r.calls == [Request.AddAppointment(Bearer(token), recordId, req)]
    ensures r.outcome == gw.addAppointment(Bearer(token), recordId, req)
    ensures Authorized(r.calls, token)
  {
    Run(gw.addAppointment(Bearer(token), recordId, req), [Request.AddAppointment(Bearer(token), recordId, req)])
  }

  function GetAppointmentsByPhysio(gw: Backend, token: string, physioId: string): (r: Run<ApiResponse<seq<AppointmentFlat>>>)
    ensures r.calls == [Request.GetAppointmentsByPhysio(Bearer(token), physioId)]
    ensures r.outcome == gw.getAppointmentsByPhysio(Bearer(token), physioId)
    ensures Authorized(r.calls, token)
  {
    Run(gw.getAppointmentsByPhysio(Bearer(token), physioId), [Request.GetAppointmentsByPhysio(Bearer(token), physioId)])
  }

  function DeleteAppointment(gw: Backend, token: string, appointmentId: string): (r: Run<ApiResponse<MessageResponse>>)
    ensures r.calls == [Request.DeleteAppointment(Bearer(token), appointmentId)]
    ensures r.outcome == gw.deleteAppointment(Bearer(token), appointmentId)
    ensures Authorized(r.calls, token)
  {
    Run(gw.deleteAppointment(Bearer(token), appointmentId), [Request.DeleteAppointment(Bearer(token), appointmentId)])
  }

  /** `getMyAppointments`: one patient-detail request, then the flat list of
      all the patient's appointments, or a failure carrying the backend's
      message. A gateway exception propagates. */
  function GetMyAppointments(gw: Backend, token: string, patientId: string): (r: Run<ApiResponse<seq<AppointmentFlat>>>)
    ensures r.calls == [Request.GetPatientDetail(Bearer(token), patientId)]
    ensures Authorized(r.calls, token)
    ensures var reply := gw.getPatientDetail(Bearer(token), patientId);
      && (reply.Thrown? ==> r.outcome == Thrown(reply.message))
      && (reply.Returned? ==> r.outcome.Returned? && Normalised(r.outcome.value))
      && (reply.Returned? ==> (r.outcome.value.ok <==> reply.value.ok && reply.value.result.Some?))
      && (reply.Returned? && r.outcome.value.ok ==>
            |r.outcome.value.result.value| == TotalAppointments(reply.value.result.value.records)
            && r.outcome.value.result.value == Flatten(reply.value.result.value.patient, reply.value.result.value.records))
      && (reply.Returned? && !r.outcome.value.ok ==> r.outcome.value.message == reply.value.message)
  {
    var call := GetPatientDetail(gw, token, patientId);
    match call.outcome
    case Thrown(m) => Run(Thrown(m), call.calls)
    case Returned(resp) => Run(Returned(FlattenDetail(resp)), call.calls)
  }

  /** `getAppointments`: the list endpoint with its envelope normalised; the
      list itself is passed on unchanged. */
  function GetAppointments(gw: Backend, token: string): (r: Run<ApiResponse<seq<AppointmentFlat>>>)
    ensures r.calls == [Request.GetAppointments(Bearer(token))]
    ensures Authorized(r.calls, token)
    ensures var reply := gw.getAppointments(Bearer(token));
      && (reply.Thrown? ==> r.outcome == Thrown(reply.message))
      && (reply.Returned? ==> r.outcome.Returned? && Normalised(r.outcome.value))
      && (reply.Returned? && reply.value.ok && reply.value.result.Some? ==>
            r.outcome.value == ApiResponse(true, reply.value.result, None))
      && (reply.Returned? && !(reply.value.ok && reply.value.result.Some?) ==>
            r.outcome.value == ApiResponse(false, None, reply.value.message))
  {
    var call := FetchAppointments(gw, token);
    match call.outcome
    case Thrown(m) => Run(Thrown(m), call.calls)
    case Returned(resp) => Run(Returned(Normalise(resp)), call.calls)
  }
}
