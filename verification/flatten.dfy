/** The flattening of a patient detail into the denormalised appointment
    list, and the other record-level projections the screens use. */
module Flattening {
  import opened Kotlin
  import opened Models
  import opened Envelopes

  /** The in-order concatenation of every record's appointments
      (`records.flatMap { it.appointments }`). */
  function AllAppointments(records: seq<RecordItem>): seq<AppointmentItem> {
    if |records| == 0 then [] else records[0].appointments + AllAppointments(records[1..])
  }

  /** The sum of the records' appointment counts. */
  function TotalAppointments(records: seq<RecordItem>): nat {
    if |records| == 0 then 0 else |records[0].appointments| + TotalAppointments(records[1..])
  }

  /** `records.firstOrNull()?.medicalRecord`: the first record's history
      text, null when there is no record or the first has none. */
  function FirstMedicalRecord(records: seq<RecordItem>): (r: Option<string>)
    ensures |records| == 0 ==> r == None
    ensures |records| > 0 ==> r == records[0].medicalRecord
  {
    if |records| == 0 then None else records[0].medicalRecord
  }

  /** The flat entry built for one appointment of `patient`. */
  function FlatOf(patient: PatientItem, app: AppointmentItem): (f: AppointmentFlat)
    ensures f.id == app.id && f.date == app.date
    ensures f.diagnosis == app.diagnosis && f.treatment == app.treatment
    ensures f.patientName == FullName(patient.name, patient.surname)
    ensures app.physio.None? ==> f.physioName == "" && f.physioId == None
    ensures app.physio.Some? ==> f.physioName == FullName(app.physio.value.name, app.physio.value.surname)
    ensures app.physio.Some? ==> f.physioId == Some(app.physio.value.id)
    ensures app.observations.None? ==> f.observations == "null"
    ensures app.observations.Some? ==> f.observations == app.observations.value
  {
    AppointmentFlat(
      id := app.id,
      patientName := FullName(patient.name, patient.surname),
      physioName := match app.physio
        case Some(p) => FullName(p.name, p.surname)
        case None => "",
      physioId := match app.physio
        case Some(p) => Some(p.id)
        case None => None,
      date := app.date,
      diagnosis := app.diagnosis,
      treatment := app.treatment,
      observations := Stringify(app.observations))
  }

  /** Rebuilds the appointment from its flat entry, given the physio reference
      the flat entry only keeps in part. */
  function Unflatten(f: AppointmentFlat, physio: Option<AppointmentPhysio>): AppointmentItem {
    AppointmentItem(
      f.id, f.date, physio, f.diagnosis, f.treatment,
      if f.observations == "null" then None else Some(f.observations))
  }

  /** Flattening keeps every field of the appointment except the physio's
      names, unless the observations are the literal text "null". */
  lemma FlatOfKeepsAppointment(patient: PatientItem, app: AppointmentItem)
    requires app.observations != Some("null")
    ensures Unflatten(FlatOf(patient, app), app.physio) == app
  {
  }

  /** An absent observation and the text "null" flatten identically. */
  lemma AbsentObservationsReadAsNull(patient: PatientItem, app: AppointmentItem)
    ensures FlatOf(patient, app.(observations := None)) == FlatOf(patient, app.(observations := Some("null")))
  {
  }

  /** The flat entries of one record's appointments, in order. */
  function FlatRecord(patient: PatientItem, apps: seq<AppointmentItem>): (r: seq<AppointmentFlat>)
    ensures |r| == |apps|
    ensures forall i :: 0 <= i < |apps| ==> r[i] == FlatOf(patient, apps[i])
  {
    seq(|apps|, i requires 0 <= i < |apps| => FlatOf(patient, apps[i]))
  }

  /** `records.flatMap { it.appointments }.map { FlatOf(patient, it) }`:
      one entry per appointment of every record, all naming the patient. */
  function Flatten(patient: PatientItem, records: seq<RecordItem>): (r: seq<AppointmentFlat>)
    ensures |r| == TotalAppointments(records)
    ensures forall i :: 0 <= i < |r| ==> r[i].patientName == FullName(patient.name, patient.surname)
  {
    if |records| == 0 then []
    else FlatRecord(patient, records[0].appointments) + Flatten(patient, records[1..])
  }

  /** Entry `i` of the flat list is the flat form of appointment `i` of the
      concatenated records. */
  lemma {:induction false} FlattenIsMapOfConcatenation(patient: PatientItem, records: seq<RecordItem>)
    ensures |AllAppointments(records)| == |Flatten(patient, records)|
    ensures forall i :: 0 <= i < |Flatten(patient, records)| ==>
      Flatten(patient, records)[i] == FlatOf(patient, AllAppointments(records)[i])
  {
    if |records| > 0 {
      FlattenIsMapOfConcatenation(patient, records[1..]);
    }
  }

  /** The concatenation keeps record order: it distributes over splitting
      the record list. */
  lemma {:induction false} AllAppointmentsKeepsOrder(a: seq<RecordItem>, b: seq<RecordItem>)
    ensures AllAppointments(a + b) == AllAppointments(a) + AllAppointments(b)
    ensures |AllAppointments(a)| == TotalAppointments(a)
  {
    if |a| == 0 {
      assert a + b == b;
    } else {
      assert (a + b)[1..] == a[1..] + b;
      AllAppointmentsKeepsOrder(a[1..], b);
    }
  }

  /** The number of appointments in the records before record `j`. */
  function Offset(records: seq<RecordItem>, j: nat): nat
    requires j <= |records|
  {
    TotalAppointments(records[..j])
  }

  /** Record order, then appointment order: appointment `k` of record `j`
      sits at `Offset(records, j) + k` of the flat list. */
  lemma {:induction false} FlattenPosition(patient: PatientItem, records: seq<RecordItem>, j: nat, k: nat)
    requires j < |records| && k < |records[j].appointments|
    ensures Offset(records, j) + k < |Flatten(patient, records)|
    ensures Flatten(patient, records)[Offset(records, j) + k] == FlatOf(patient, records[j].appointments[k])
  {
    if j == 0 {
      assert records[..0] == [];
    } else {
      var rest := records[1..];
      assert records[..j][0] == records[0];
      assert records[..j][1..] == rest[..j - 1];
      FlattenPosition(patient, rest, j - 1, k);
    }
  }

  /** `getMyAppointments` after the gateway call: an ok envelope with a detail
      becomes the flat list with no message; anything else a failure with the
      backend's message. */
  function FlattenDetail(resp: ApiResponse<PatientDetailResponse>): (r: ApiResponse<seq<AppointmentFlat>>)
    ensures Normalised(r)
    ensures r.ok <==> resp.ok && resp.result.Some?
    ensures r.ok ==> |r.result.value| == TotalAppointments(resp.result.value.records)
    ensures r.ok ==> r.result.value == Flatten(resp.result.value.patient, resp.result.value.records)
    ensures !r.ok ==> r.message == resp.message
  {
    if resp.ok && resp.result.Some? then
      ApiResponse(true, Some(Flatten(resp.result.value.patient, resp.result.value.records)), None)
    else
      ApiResponse(false, None, resp.message)
  }
}
