/** The backend's JSON shapes as the client decodes them. A Kotlin `_id`
    property is called `id` here; a nullable property is an `Option`. */
module Models {
  import opened Kotlin

  /** The envelope around every backend answer. `ok`, `result` and `message`
      are independent: nothing in the type ties `ok` to a present result. */
  datatype ApiResponse<+T> = ApiResponse(ok: bool, result: Option<T>, message: Option<string>)

  datatype LoginRequest = LoginRequest(login: string, password: string)

  /** The answer of `POST auth/login`; every field but `ok` may be absent. */
  datatype LoginResponse = LoginResponse(
    ok: bool,
    token: Option<string>,
    userId: Option<string>,
    login: Option<string>,
    rol: Option<string>,
    error: Option<string>)

  datatype MessageResponse = MessageResponse(message: string)

  datatype PatientItem = PatientItem(
    id: string,
    name: string,
    surname: string,
    birthDate: string,
    address: Option<string>,
    insuranceNumber: string,
    email: string,
    image: Option<string>)

  /** One patient together with all of their records. */
  datatype PatientDetailResponse = PatientDetailResponse(patient: PatientItem, records: seq<RecordItem>)

  datatype PhysioItem = PhysioItem(
    id: string,
    name: string,
    surname: string,
    specialty: string,
    licenseNumber: string,
    email: string,
    image: Option<string>)

  /** An appointment nested in a record: the physio and the observations may
      both be missing. */
  datatype AppointmentItem = AppointmentItem(
    id: string,
    date: string,
    physio: Option<AppointmentPhysio>,
    diagnosis: string,
    treatment: string,
    observations: Option<string>)

  /** The short physio reference embedded in an appointment. */
  datatype AppointmentPhysio = AppointmentPhysio(id: string, name: string, surname: string)

  /** A medical record: optional history text and its appointments, in order. */
  datatype RecordItem = RecordItem(
    id: string,
    patient: string,
    medicalRecord: Option<string>,
    appointments: seq<AppointmentItem>)

  /** The denormalised appointment shown in lists. Observations are always a
      string here; only the physio id may be absent. */
  datatype AppointmentFlat = AppointmentFlat(
    id: string,
    patientName: string,
    physioName: string,
    physioId: Option<string>,
    date: string,
    diagnosis: string,
    treatment: string,
    observations: string)

  /** The body of a new appointment: the physio is referred to by id, and the
      observations are optional. */
  datatype AppointmentRequest = AppointmentRequest(
    date: string,
    physio: string,
    diagnosis: string,
    treatment: string,
    observations: Option<string>)

  /** The `"$name $surname"` label used for patients and physios alike. */
  function FullName(name: string, surname: string): (r: string)
    ensures |r| == |name| + 1 + |surname|
    ensures r[..|name|] == name && r[|name|] == ' ' && r[|name| + 1..] == surname
  {
    name + " " + surname
  }

  /** Splits a text at its first space: the inverse of `FullName` for
      first names without a space. */
  function SplitName(text: string): (string, string)
  {
    if |text| == 0 then ("", "")
    else if text[0] == ' ' then ("", text[1..])
    else
      var (first, rest) := SplitName(text[1..]);
      ([text[0]] + first, rest)
  }

  /** The label loses nothing: a first name without a space and the surname
      are recovered from it. */
  lemma {:induction false} FullNameSplits(name: string, surname: string)
    requires forall k :: 0 <= k < |name| ==> name[k] != ' '
    ensures SplitName(FullName(name, surname)) == (name, surname)
  {
    if |name| == 0 {
      assert FullName(name, surname) == [' '] + surname;
    } else {
      assert FullName(name, surname)[1..] == FullName(name[1..], surname);
      FullNameSplits(name[1..], surname);
      assert [name[0]] + name[1..] == name;
    }
  }
}
