/** The patient-list screen's load, shared by both view-model revisions:
    a patient sees their own profile as a one-element list, every other role
    the full list. */
module PatientsList {
  import opened Kotlin
  import opened Models
  import opened Gateway
  import opened Envelopes
  import opened ViewState
  import RemoteSource

  datatype PatientsUiState = Loading | Success(patients: seq<PatientItem>) | Error(message: string)

  /** The state before the first load. */
  const Initial: PatientsUiState := Loading

  /** The fallback texts, which differ between revisions: for a failed
      profile fetch, a failed list fetch, and an exception without message. */
  datatype Fallbacks = Fallbacks(profile: string, list: string, unexpected: string)

  /** The body of the `try` block and its `catch`, for a given token, role
      and user id. */
  function Fetch(gw: Backend, token: string, role: string, userId: string, texts: Fallbacks): (r: Load<PatientsUiState>)
    ensures |r.states| == 2 && r.states[0] == Loading && !r.states[1].Loading?
    ensures Authorized(r.calls, token)
    ensures role == PatientRole ==>
      var reply := gw.getPatient(Bearer(token), userId);
      && r.calls == [GetPatient(Bearer(token), userId)]
      && (r.states[1].Success? <==> reply.Returned? && reply.value.ok && reply.value.result.Some?)
      && (r.states[1].Success? ==> r.states[1].patients == [reply.value.result.value])
      && (reply.Returned? && !r.states[1].Success? ==> r.states[1] == Error(reply.value.message.OrElse(texts.profile)))
      && (reply.Thrown? ==> r.states[1] == Error(ErrorText(reply.message, texts.unexpected)))
    ensures role != PatientRole ==>
      var reply := gw.getPatients(Bearer(token));
      && r.calls == [GetPatients(Bearer(token))]
      && (r.states[1].Success? <==> reply.Returned? && reply.value.ok && reply.value.result.Some?)
      && (r.states[1].Success? ==> r.states[1].patients == reply.value.result.value)
      && (reply.Returned? && !r.states[1].Success? ==> r.states[1] == Error(reply.value.message.OrElse(texts.list)))
      && (reply.Thrown? ==> r.states[1] == Error(ErrorText(reply.message, texts.unexpected)))
  {
    if role == PatientRole then
      var call := RemoteSource.FetchPatientById(gw, token, userId);
      var state := match Expect(call.outcome, texts.profile)
        case Returned(p) => Success([p])
        case Thrown(m) => Error(ErrorText(m, texts.unexpected));
      Load([Loading, state], call.calls)
    else
      var call := RemoteSource.FetchAllPatients(gw, token);
      var state := match Expect(call.outcome, texts.list)
        case Returned(ps) => Success(ps)
        case Thrown(m) => Error(ErrorText(m, texts.unexpected));
      Load([Loading, state], call.calls)
  }
}

/** `loadPatients` of the `ui/features` revision: role, user id and token
    come from the session, missing ones read as `""`. */
module FeaturesPatients {
  import opened Kotlin
  import opened Models
  import opened Session
  import opened Gateway
  import opened ViewState
  import opened PatientsList

  const Texts := Fallbacks("Error al cargar perfil", "Error al cargar pacientes", "Error inesperado")

  function LoadPatients(store: Prefs, gw: Backend): (r: Load<PatientsUiState>)
    ensures |r.states| == 2 && r.states[0] == Loading
    ensures var sd := Read(store);
      var token := OrEmpty(sd.token);
      && Authorized(r.calls, token)
      && (OrEmpty(sd.role) == PatientRole ==> r.calls == [GetPatient(Bearer(token), OrEmpty(sd.userId))])
      && (OrEmpty(sd.role) == PatientRole && r.states[1].Success? ==> |r.states[1].patients| == 1)
      && (OrEmpty(sd.role) != PatientRole ==> r.calls == [GetPatients(Bearer(token))])
    ensures var sd := Read(store);
      var token := OrEmpty(sd.token);
      var profile := gw.getPatient(Bearer(token), OrEmpty(sd.userId));
      var all := gw.getPatients(Bearer(token));
      && (OrEmpty(sd.role) == PatientRole && profile.Returned? && !r.states[1].Success? ==>
            r.states[1] == Error(profile.value.message.OrElse("Error al cargar perfil")))
      && (OrEmpty(sd.role) != PatientRole && all.Returned? && !r.states[1].Success? ==>
            r.states[1] == Error(all.value.message.OrElse("Error al cargar pacientes")))
      && (OrEmpty(sd.role) == PatientRole && profile.Thrown? ==> r.states[1] == Error(ErrorText(profile.message, "Error inesperado")))
      && (OrEmpty(sd.role) != PatientRole && all.Thrown? ==> r.states[1] == Error(ErrorText(all.message, "Error inesperado")))
    ensures var sd := Read(store);
      var token := OrEmpty(sd.token);
      var profile := gw.getPatient(Bearer(token), OrEmpty(sd.userId));
      var all := gw.getPatients(Bearer(token));
      && (OrEmpty(sd.role) == PatientRole ==>
            (r.states[1].Success? <==> profile.Returned? && profile.value.ok && profile.value.result.Some?))
      && (OrEmpty(sd.role) == PatientRole && r.states[1].Success? ==> r.states[1].patients == [profile.value.result.value])
      && (OrEmpty(sd.role) != PatientRole ==>
            (r.states[1].Success? <==> all.Returned? && all.value.ok && all.value.result.Some?))
      && (OrEmpty(sd.role) != PatientRole && r.states[1].Success? ==> r.states[1].patients == all.value.result.value)
  {
    var sd := Read(store);
    Fetch(gw, OrEmpty(sd.token), OrEmpty(sd.role), OrEmpty(sd.userId), Texts)
  }
}

/** `loadPatients` of the `ui/main` revision: role and user id are the
    `role` and `id` claims of the stored token, decoded before the `try`. */
module MainPatients {
  import opened Kotlin
  import opened Models
  import opened Session
  import opened Gateway
  import opened ViewState
  import opened PatientsList
  import FeaturesPatients

  const Texts := Fallbacks("No se pudo cargar tu paciente", "Error al cargar pacientes", "Error")

  /** The string-valued claims of a decoded token. */
  type Claims = map<string, string>

  /** `jwt.getClaim(name).asString().orEmpty()`. */
  function Claim(claims: Claims, name: string): string {
    if name in claims then claims[name] else ""
  }

  /** `decoded` is what decoding the stored token (`""` when there is none)
      yields: its claims, or the exception the decoder raises. */
  function LoadPatients(store: Prefs, gw: Backend, decoded: Fallible<Claims>): (r: Load<PatientsUiState>)
    ensures |r.states| >= 1 && r.states[0] == Loading
    // a decoding failure escapes the try: no Error state, no request
    ensures decoded.Thrown? ==> r == Load([Loading], [])
    ensures decoded.Returned? ==>
      var token := OrEmpty(GetToken(store));
      && |r.states| == 2
      && Authorized(r.calls, token)
      && (Claim(decoded.value, "role") == PatientRole ==>
            r.calls == [GetPatient(Bearer(token), Claim(decoded.value, "id"))])
      && (Claim(decoded.value, "role") == PatientRole && r.states[1].Success? ==> |r.states[1].patients| == 1)
      && (Claim(decoded.value, "role") != PatientRole ==> r.calls == [GetPatients(Bearer(token))])
    ensures decoded.Returned? ==>
      var token := OrEmpty(GetToken(store));
      var role := Claim(decoded.value, "role");
      var profile := gw.getPatient(Bearer(token), Claim(decoded.value, "id"));
      var all := gw.getPatients(Bearer(token));
      && (role == PatientRole && profile.Returned? && !r.states[1].Success? ==>
            r.states[1] == Error(profile.value.message.OrElse("No se pudo cargar tu paciente")))
      && (role != PatientRole && all.Returned? && !r.states[1].Success? ==>
            r.states[1] == Error(all.value.message.OrElse("Error al cargar pacientes")))
      && (role == PatientRole && profile.Thrown? ==> r.states[1] == Error(ErrorText(profile.message, "Error")))
      && (role != PatientRole && all.Thrown? ==> r.states[1] == Error(ErrorText(all.message, "Error")))
    ensures decoded.Returned? ==>
      var token := OrEmpty(GetToken(store));
      var role := Claim(decoded.value, "role");
      var profile := gw.getPatient(Bearer(token), Claim(decoded.value, "id"));
      var all := gw.getPatients(Bearer(token));
      && (role == PatientRole ==>
            (r.states[1].Success? <==> profile.Returned? && profile.value.ok && profile.value.result.Some?))
      && (role == PatientRole && r.states[1].Success? ==> r.states[1].patients == [profile.value.result.value])
      && (role != PatientRole ==>
            (r.states[1].Success? <==> all.Returned? && all.value.ok && all.value.result.Some?))
      && (role != PatientRole && r.states[1].Success? ==> r.states[1].patients == all.value.result.value)
  {
    match decoded
    case Thrown(_) => Load([Loading], [])
    case Returned(claims) =>
      Fetch(gw, OrEmpty(GetToken(store)), Claim(claims, "role"), Claim(claims, "id"), Texts)
  }

  /** When the token's claims name the same role and user as the session,
      both revisions issue the same request and show the same patients; they
      differ only in the fallback texts of their errors. */
  lemma AgreesWithFeatures(store: Prefs, gw: Backend, claims: Claims)
    requires Claim(claims, "role") == OrEmpty(Read(store).role)
    requires Claim(claims, "id") == OrEmpty(Read(store).userId)
    ensures var main := LoadPatients(store, gw, Returned(claims));
      var features := FeaturesPatients.LoadPatients(store, gw);
      && main.calls == features.calls
      && |main.states| == |features.states| == 2
      && (main.states[1].Success? <==> features.states[1].Success?)
      && (main.states[1].Success? ==> main.states[1] == features.states[1])
  {
  }
}
