/** The REST gateway, seen from the client. The backend is an uninterpreted
    collaborator: one total function per endpoint, taking the value of the
    `Authorization` header first. Every client operation reports the requests
    it issued, in order, next to its outcome. */
module Gateway {
  import opened Kotlin
  import opened Models

  /** One request on the wire; `auth` is the `Authorization` header value. */
  datatype Request =
    | Login(credentials: LoginRequest)
    | GetPatients(auth: string)
    | GetPatient(auth: string, id: string)
    | GetPatientDetail(auth: string, id: string)
    | GetRecord(auth: string, id: string)
    | GetAppointments(auth: string)
    | GetAppointmentsByPhysio(auth: string, physioId: string)
    | AddAppointment(auth: string, recordId: string, body: AppointmentRequest)
    | DeleteAppointment(auth: string, appointmentId: string)
  {
    /** The `Authorization` header sent, if the endpoint is protected. */
    function Authorization(): Option<string> {
      if Login? then None else Some(auth)
    }
  }

  /** The backend's answer to each endpoint, or the exception the HTTP and
      JSON layers raise instead (network failure, non-2xx status, bad body). */
  datatype Backend = Backend(
    login: LoginRequest -> Fallible<LoginResponse>,
    getPatients: string -> Fallible<ApiResponse<seq<PatientItem>>>,
    getPatient: (string, string) -> Fallible<ApiResponse<PatientItem>>,
    getPatientDetail: (string, string) -> Fallible<ApiResponse<PatientDetailResponse>>,
    getRecord: (string, string) -> Fallible<ApiResponse<RecordItem>>,
    getAppointments: string -> Fallible<ApiResponse<seq<AppointmentFlat>>>,
    getAppointmentsByPhysio: (string, string) -> Fallible<ApiResponse<seq<AppointmentFlat>>>,
    addAppointment: (string, string, AppointmentRequest) -> Fallible<ApiResponse<RecordItem>>,
    deleteAppointment: (string, string) -> Fallible<ApiResponse<MessageResponse>>)

  /** What a client operation did: its outcome and the requests it issued. */
  datatype Run<+T> = Run(outcome: Fallible<T>, calls: seq<Request>)

  const BearerPrefix := "Bearer "

  /** The credential form of section 2.1 of RFC 6750: the scheme name, one
      space, then the token. */
  function Bearer(token: string): (header: string)
    ensures |header| == |BearerPrefix| + |token|
    ensures header[..|BearerPrefix|] == BearerPrefix
    ensures header[|BearerPrefix|..] == token
  {
    BearerPrefix + token
  }

  /** The token a server reads back from a Bearer header, if it is one. */
  function CredentialOf(header: string): Option<string> {
    if |header| >= |BearerPrefix| && header[..|BearerPrefix|] == BearerPrefix
    then Some(header[|BearerPrefix|..])
    else None
  }

  /** A server reading the header gets back exactly the stored token; so two
      different tokens never produce the same header. */
  lemma BearerRoundTrip(token: string, other: string)
    ensures CredentialOf(Bearer(token)) == Some(token)
    ensures Bearer(token) == Bearer(other) ==> token == other
  {
    if Bearer(token) == Bearer(other) {
      assert token == Bearer(token)[|BearerPrefix|..] == Bearer(other)[|BearerPrefix|..] == other;
    }
  }

  /** Every protected request in `calls` carries `Bearer <token>`. */
  predicate Authorized(calls: seq<Request>, token: string) {
    forall i :: 0 <= i < |calls| ==> calls[i].Authorization() == Some(Bearer(token))
  }
}
