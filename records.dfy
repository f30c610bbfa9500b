/** Patient records as the chaincode stores them in the world state, the codec
    between a record and a stored value, and the error kinds the operations return. */
module Records {

  /** One octet of a stored value (Go's `byte`). */
  newtype byte = b: int | 0 <= b < 0x100

  /** The medical part of a patient record: the current diagnosis and medication,
      and one history entry for each update. */
  datatype MedicalRecord = MedicalRecord(
    diagnose: string,
    medications: string,
    diagnosesHistory: seq<string>,
    medicationsHistory: seq<string>)

  /** A patient record. `access` maps an actor ID to its grant flag; the patient
      itself (actor ID == id) needs no entry. */
  datatype PatientData = PatientData(
    id: string,
    name: string,
    age: int,
    gender: string,
    bloodType: string,
    allergies: string,
    access: map<string, bool>,
    record: MedicalRecord)

  /** What one key of the world state holds. A patient record is stored in its
      serialized form; `ShareData` stores a caller-supplied payload verbatim. The
      JSON document of a record is represented by the record itself, and a payload
      never decodes as a record. */
  datatype Value = Patient(data: PatientData) | Blob(bytes: seq<byte>)

  /** The error returns of the contract, one constructor per kind of failure. */
  datatype Error =
    | RecordNotFound(key: string)                       // nothing is stored at key
    | Corrupt(key: string)                              // the value at key is not a patient record
    | NotInAccessList(userID: string, patientID: string)
    | AccessRevoked(userID: string, patientID: string)  // the entry exists and is false
    | PermissionDenied(patientID: string)               // provider gate of update and the reads
    | CallerDenied(patientID: string)                   // caller gate of ShareData
    | RecipientDenied(patientID: string)                // recipient gate of ShareData
    | NotOwner(callerID: string, patientID: string)     // grant or revoke by someone other than the patient
    | GranteeNotFound(userID: string, patientID: string)

  datatype Option<+T> = None | Some(value: T)

  /** A value or the error that replaced it. */
  datatype Result<+T> = Ok(value: T) | Err(error: Error)

  /** The `error` return of an operation that returns nothing else. */
  datatype Outcome = Pass | Fail(error: Error)

  /** True when the two histories have one entry per update each. */
  predicate HistoriesAligned(p: PatientData)
  {
    |p.record.diagnosesHistory| == |p.record.medicationsHistory|
  }

  /** True when `after` keeps the identity and demographics of `before`. */
  predicate SameDemographics(before: PatientData, after: PatientData)
  {
    && after.id == before.id
    && after.name == before.name
    && after.age == before.age
    && after.gender == before.gender
    && after.bloodType == before.bloodType
    && after.allergies == before.allergies
  }

  /** json.Unmarshal into a PatientData: fails unless the stored value is a record. */
  function Unmarshal(v: Value): (r: Option<PatientData>)
    ensures r.Some? <==> v.Patient?
    ensures r.Some? ==> v == Patient(r.value)
  {
    match v
    case Patient(p) => Some(p)
    case Blob(_) => None
  }

  /** json.Marshal of a PatientData; decoding what it produces gives the record back. */
  function Marshal(p: PatientData): (v: Value)
    ensures Unmarshal(v) == Some(p)
  {
    Patient(p)
  }
}
