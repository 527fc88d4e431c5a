/** The other data-source revision (the `data/api` package). Its protected
    wrappers build the same `Bearer <token>` header; its `getMyAppointments`
    performs the same flattening, which the lemma below checks. */
module ApiSource {
  import opened Kotlin
  import opened Models
  import opened Gateway
  import opened Flattening
  import RemoteSource

  /** `fetchAllPatients`: the header value is `"Bearer $token"`. */
  function FetchAllPatients(gw: Backend, token: string): (r: Run<ApiResponse<seq<PatientItem>>>)
    ensures r.calls == [GetPatients(Bearer(token))]
    ensures CredentialOf(r.calls[0].auth) == Some(token)
    ensures r.outcome == gw.getPatients(Bearer(token))
  {
    BearerRoundTrip(token, token);
    Run(gw.getPatients(Bearer(token)), [GetPatients(Bearer(token))])
  }

  /** `getMyAppointments` of this revision. */
  function GetMyAppointments(gw: Backend, token: string, patientId: string): (r: Run<ApiResponse<seq<AppointmentFlat>>>)
    ensures r.calls == [Request.GetPatientDetail(Bearer(token), patientId)]
    ensures var reply := gw.getPatientDetail(Bearer(token), patientId);
      && (reply.Thrown? ==> r.outcome == Thrown(reply.message))
      && (reply.Returned? && reply.value.ok && reply.value.result.Some? ==>
            var d := reply.value.result.value;
            r.outcome.Returned? && r.outcome.value.ok && r.outcome.value.message == None
            && r.outcome.value.result.Some?
            && |r.outcome.value.result.value| == TotalAppointments(d.records))
      && (reply.Returned? && !(reply.value.ok && reply.value.result.Some?) ==>
            r.outcome == Returned(ApiResponse(false, None, reply.value.message)))
  {
    var resp := gw.getPatientDetail(Bearer(token), patientId);
    var out := match resp
      case Thrown(m) => Thrown(m)
      case Returned(e) =>
        if e.ok && e.result.Some? then
          Returned(ApiResponse(true, Some(Flatten(e.result.value.patient, e.result.value.records)), None))
        else Returned(ApiResponse(false, None, e.message));
    Run(out, [Request.GetPatientDetail(Bearer(token), patientId)])
  }

  /** Both revisions produce the same requests and the same envelope. */
  lemma AgreesWithRemoteSource(gw: Backend, token: string, patientId: string)
    ensures GetMyAppointments(gw, token, patientId) == RemoteSource.GetMyAppointments(gw, token, patientId)
  {
  }
}
