/** `loadPatientAndRecords` of the `ui/features` revision: the detail
    screen receives the patient and the records exactly as the backend sent
    them. */
module FeaturesPatientDetail {
  import opened Kotlin
  import opened Models
  import opened Session
  import opened Gateway
  import opened Envelopes
  import opened ViewState
  import RemoteSource

  datatype PatientDetailUiState =
    | Loading
    | Success(patient: PatientItem, records: seq<RecordItem>)
    | Error(message: string)

  const Initial: PatientDetailUiState := Loading

  function LoadPatientAndRecords(store: Prefs, gw: Backend, patientId: string): (r: Load<PatientDetailUiState>)
    ensures |r.states| == 2 && r.states[0] == Loading
    ensures var token := OrEmpty(GetToken(store));
      var reply := gw.getPatientDetail(Bearer(token), patientId);
      && r.calls == [Request.GetPatientDetail(Bearer(token), patientId)]
      && Authorized(r.calls, token)
      && (r.states[1].Success? <==> reply.Returned? && reply.value.ok && reply.value.result.Some?)
      && (r.states[1].Success? ==>
            r.states[1].patient == reply.value.result.value.patient
            && r.states[1].records == reply.value.result.value.records)
      && (reply.Returned? && !r.states[1].Success? ==>
            r.states[1] == Error(reply.value.message.OrElse("Error cargando detalle")))
      && (reply.Thrown? ==> r.states[1] == Error(ErrorText(reply.message, "Error inesperado")))
  {
    var call := RemoteSource.GetPatientDetail(gw, OrEmpty(GetToken(store)), patientId);
    var state := match Expect(call.outcome, "Error cargando detalle")
      case Returned(d) => Success(d.patient, d.records)
      case Thrown(m) => Error(ErrorText(m, "Error inesperado"));
    Load([Loading, state], call.calls)
  }
}

/** `loadPatientAndRecords` of the `ui/main` revision: the detail screen
    receives the patient, the first record's history text and all
    appointments of all records. As written, the view model hands the
    repository a token that already starts with "Bearer ", and the data
    source prefixes it once more. */
module MainPatientDetail {
  import opened Kotlin
  import opened Models
  import opened Session
  import opened Gateway
  import opened Envelopes
  import opened Flattening
  import opened ViewState
  import RemoteSource
  import FeaturesPatientDetail

  datatype PatientDetailUiState =
    | Loading
    | Success(patient: PatientItem, medicalRecord: Option<string>, appointments: seq<AppointmentItem>)
    | Error(message: string)

  const Initial: PatientDetailUiState := Loading

  const DetailFallback := "Error al cargar datos de paciente"

  /** The state the `try`/`catch` settles on for a detail request. */
  function Settle(reply: Fallible<ApiResponse<PatientDetailResponse>>): PatientDetailUiState {
    match Expect(reply, DetailFallback)
    case Returned(d) => Success(d.patient, FirstMedicalRecord(d.records), AllAppointments(d.records))
    case Thrown(m) => Error(ErrorText(m, "Error inesperado"))
  }

  /** What the detail request settles on, whatever header it was sent with. */
  ghost predicate SettlesOn(reply: Fallible<ApiResponse<PatientDetailResponse>>, s: PatientDetailUiState) {
    && (s.Success? <==> reply.Returned? && reply.value.ok && reply.value.result.Some?)
    && (s.Success? ==>
          var d := reply.value.result.value;
          s.patient == d.patient
          && s.medicalRecord == (if |d.records| == 0 then None else d.records[0].medicalRecord)
          && |s.appointments| == TotalAppointments(d.records)
          && s.appointments == AllAppointments(d.records))
    && (reply.Returned? && !s.Success? ==> s == Error(reply.value.message.OrElse(DetailFallback)))
    && (reply.Thrown? ==> s == Error(ErrorText(reply.message, "Error inesperado")))
  }

  lemma SettleSpec(reply: Fallible<ApiResponse<PatientDetailResponse>>)
    ensures SettlesOn(reply, Settle(reply))
  {
    match reply
    case Thrown(_) =>
    case Returned(e) =>
      if e.ok && e.result.Some? {
        AllAppointmentsKeepsOrder(e.result.value.records, []);
        assert e.result.value.records + [] == e.result.value.records;
      }
  }

  /** The load as written: the header sent is `Bearer Bearer <token>`. */
  function LoadPatientAndRecords(store: Prefs, gw: Backend, patientId: string): (r: Load<PatientDetailUiState>)
    ensures |r.states| == 2 && r.states[0] == Loading
    ensures var token := OrEmpty(Read(store).token);
      && r.calls == [Request.GetPatientDetail(Bearer(Bearer(token)), patientId)]
      && SettlesOn(gw.getPatientDetail(Bearer(Bearer(token)), patientId), r.states[1])
  {
    var call := RemoteSource.GetPatientDetail(gw, Bearer(OrEmpty(Read(store).token)), patientId);
    SettleSpec(call.outcome);
    Load([Loading, Settle(call.outcome)], call.calls)
  }

  /** The header the written load sends does not carry the stored token: a
      server reading it as a Bearer credential gets "Bearer <token>". */
  lemma DoubleBearer(store: Prefs, gw: Backend, patientId: string)
    ensures var token := OrEmpty(Read(store).token);
      var sent := LoadPatientAndRecords(store, gw, patientId).calls[0].auth;
      && CredentialOf(sent) == Some(Bearer(token))
      && CredentialOf(sent) != Some(token)
      && !Authorized(LoadPatientAndRecords(store, gw, patientId).calls, token)
  {
    var token := OrEmpty(Read(store).token);
    BearerRoundTrip(Bearer(token), Bearer(token));
    assert |Bearer(token)| != |token|;
  }

  /** The load as evidently intended: the plain token is handed on, so the
      request carries `Bearer <token>` like every other screen's. */
  function LoadPatientAndRecordsFixed(store: Prefs, gw: Backend, patientId: string): (r: Load<PatientDetailUiState>)
    ensures |r.states| == 2 && r.states[0] == Loading
    ensures var token := OrEmpty(Read(store).token);
      && r.calls == [Request.GetPatientDetail(Bearer(token), patientId)]
      && Authorized(r.calls, token)
      && CredentialOf(r.calls[0].auth) == Some(token)
      && SettlesOn(gw.getPatientDetail(Bearer(token), patientId), r.states[1])
  {
    var token := OrEmpty(Read(store).token);
    var call := RemoteSource.GetPatientDetail(gw, token, patientId);
    SettleSpec(call.outcome);
    BearerRoundTrip(token, token);
    Load([Loading, Settle(call.outcome)], call.calls)
  }

  /** The corrected load sends the same request as the `ui/features` one,
      and succeeds exactly when it does, with the same patient, the first of
      its records' history text and all of its records' appointments. */
  lemma FixedAgreesWithFeatures(store: Prefs, gw: Backend, patientId: string)
    ensures var main := LoadPatientAndRecordsFixed(store, gw, patientId);
      var features := FeaturesPatientDetail.LoadPatientAndRecords(store, gw, patientId);
      && main.calls == features.calls
      && (main.states[1].Success? <==> features.states[1].Success?)
      && (main.states[1].Success? ==>
            && main.states[1].patient == features.states[1].patient
            && main.states[1].medicalRecord == FirstMedicalRecord(features.states[1].records)
            && main.states[1].appointments == AllAppointments(features.states[1].records))
  {
  }
}

/** The treatment history on the `ui/features` patient detail screen: the
    past appointments of all records, one line each, or a placeholder. */
module PatientDetailScreen {
  import opened Kotlin
  import opened Models
  import opened Flattening
  import opened Timeline

  const NoTreatments := "Sin tratamientos previos registrados"
  const Bullet := "• "

  /** The fragment's filter: the date parses (with the millisecond pattern)
      and lies strictly before now; a date that does not parse is dropped. */
  function IsPast(parse: string -> Option<Instant>, now: Instant): AppointmentItem -> bool {
    (a: AppointmentItem) => parse(a.date).Some? && parse(a.date).value < now
  }

  /** The past appointments of all records, in their original order. */
  function PastAppointments(records: seq<RecordItem>, parse: string -> Option<Instant>, now: Instant): (r: seq<AppointmentItem>)
    ensures |r| <= TotalAppointments(records)
    ensures forall a :: a in r <==> a in AllAppointments(records) && parse(a.date).Some? && parse(a.date).value < now
    ensures forall a :: multiset(r)[a] == (if parse(a.date).Some? && parse(a.date).value < now then multiset(AllAppointments(records))[a] else 0)
  {
    AllAppointmentsKeepsOrder(records, []);
    FilterCounts(AllAppointments(records), IsPast(parse, now));
    assert records + [] == records;
    Filter(AllAppointments(records), IsPast(parse, now))
  }

  /** The past list keeps the original order: record order, then each
      record's appointment order. */
  lemma PastAppointmentsKeepsOrder(a: seq<RecordItem>, b: seq<RecordItem>, parse: string -> Option<Instant>, now: Instant)
    ensures PastAppointments(a + b, parse, now) == PastAppointments(a, parse, now) + PastAppointments(b, parse, now)
    ensures PastAppointments([], parse, now) == []
    ensures forall rec :: PastAppointments([rec], parse, now) == Filter(rec.appointments, IsPast(parse, now))
  {
    forall rec ensures PastAppointments([rec], parse, now) == Filter(rec.appointments, IsPast(parse, now)) {
      assert [rec][1..] == [];
      assert AllAppointments([rec]) == rec.appointments + [];
      assert rec.appointments + [] == rec.appointments;
    }
    AllAppointmentsKeepsOrder(a, b);
    FilterKeepsOrder(AllAppointments(a), AllAppointments(b), IsPast(parse, now));
  }

  /** The lines the treatment container holds after rendering `past`. */
  function TreatmentLines(past: seq<AppointmentItem>): (lines: seq<string>)
    ensures |past| == 0 ==> lines == [NoTreatments]
    ensures |past| > 0 ==> |lines| == |past|
    ensures forall i :: 0 <= i < |past| ==> lines[i] == Bullet + past[i].treatment
  {
    if |past| == 0 then [NoTreatments]
    else seq(|past|, i requires 0 <= i < |past| => Bullet + past[i].treatment)
  }

  /** Rendering a `Success` state into a container: when the appointment
      section is visible, the container is cleared and refilled, so what it
      held before never shows and repeated renders do not accumulate lines. */
  function ShowTreatments(container: seq<string>, visible: bool, records: seq<RecordItem>,
                          parse: string -> Option<Instant>, now: Instant): (r: seq<string>)
    ensures !visible ==> r == container
    ensures visible ==> |r| == (if PastAppointments(records, parse, now) == [] then 1 else |PastAppointments(records, parse, now)|)
    ensures visible && PastAppointments(records, parse, now) == [] ==> r == [NoTreatments]
    ensures visible ==> var past := PastAppointments(records, parse, now);
      forall i :: 0 <= i < |past| ==> r[i] == Bullet + past[i].treatment
  {
    if visible then TreatmentLines(PastAppointments(records, parse, now)) else container
  }

  /** An appointment whose date does not parse is left out silently. */
  lemma UnparsableDateDropped(records: seq<RecordItem>, parse: string -> Option<Instant>, now: Instant, a: AppointmentItem)
    requires a in AllAppointments(records) && parse(a.date).None?
    ensures a !in PastAppointments(records, parse, now)
  {
  }
}
