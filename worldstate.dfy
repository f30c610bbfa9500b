/** The world state as a map from key to stored value, and the operations of the
    contract that only read it: existence, the permission check and the two reads. */
module WorldState {
  import opened Records

  /** Every key the ledger holds, with its value. An absent key is one GetState
      returns nil for. */
  type Store = map<string, Value>

  /** True when every stored patient record sits under its own ID and has one
      history entry per update in each history. */
  ghost predicate Consistent(s: Store)
  {
    forall k :: k in s && s[k].Patient? ==> s[k].data.id == k && HistoriesAligned(s[k].data)
  }

  /** True when `t` agrees with `s` on every key other than `key`. */
  ghost predicate SameExcept(s: Store, t: Store, key: string)
  {
    forall k :: k != key ==> (k in s <==> k in t) && (k in s ==> t[k] == s[k])
  }

  /** True when the record grants `userID` access through its access map. */
  predicate Grants(p: PatientData, userID: string)
  {
    userID in p.access && p.access[userID]
  }

  /** GetState of `key` followed by decoding the value as a patient record. */
  function Lookup(s: Store, key: string): (r: Result<PatientData>)
    ensures r.Ok? <==> key in s && s[key].Patient?
    ensures r.Ok? ==> s[key] == Marshal(r.value)
    ensures r.Err? ==> r.error == (if key in s then Corrupt(key) else RecordNotFound(key))
  {
    if key !in s then Err(RecordNotFound(key))
    else match Unmarshal(s[key])
      case None => Err(Corrupt(key))
      case Some(p) => Ok(p)
  }

  /** PatientExists: whether anything is stored under `id`, decodable or not. */
  function PatientExists(s: Store, id: string): (b: bool)
    ensures b <==> id in s
    ensures Lookup(s, id).Ok? ==> b
    ensures !b <==> Lookup(s, id) == Err(RecordNotFound(id))
  {
    id in s
  }

  /** The (bool, error) pair hasPermission returns. */
  datatype Permission = Permission(granted: bool, err: Option<Error>)

  /** The gate every caller of hasPermission writes: `access == false && err != nil`. */
  predicate Denies(a: Permission)
  {
    !a.granted && a.err.Some?
  }

  /** hasPermission: the owner always passes; anyone else passes exactly when the
      stored record grants them access. Every refusal carries an error, so the
      callers' gate refuses exactly the ungranted requests. */
  function HasPermission(s: Store, userID: string, patientID: string): (a: Permission)
    ensures userID == patientID ==> a == Permission(true, None)
    ensures userID != patientID ==>
              (a.granted <==> Lookup(s, patientID).Ok? && Grants(Lookup(s, patientID).value, userID))
    ensures a.granted <==> a.err.None?
    ensures Denies(a) <==> !a.granted
    ensures userID != patientID && Lookup(s, patientID).Err? ==> a.err == Some(Lookup(s, patientID).error)
    ensures userID != patientID && Lookup(s, patientID).Ok? && userID !in Lookup(s, patientID).value.access ==>
              a.err == Some(NotInAccessList(userID, patientID))
    ensures userID != patientID && Lookup(s, patientID).Ok? && userID in Lookup(s, patientID).value.access
              && !Lookup(s, patientID).value.access[userID] ==>
              a.err == Some(AccessRevoked(userID, patientID))
  {
    if userID == patientID then Permission(true, None)
    else match Lookup(s, patientID)
      case Err(e) => Permission(false, Some(e))
      case Ok(p) =>
        if userID !in p.access then Permission(false, Some(NotInAccessList(userID, patientID)))
        else if !p.access[userID] then Permission(false, Some(AccessRevoked(userID, patientID)))
        else Permission(true, None)
  }

  /** ReadPatientMedicalInfo: the medical part of the record, behind the provider gate. */
  function ReadPatientMedicalInfo(s: Store, providerID: string, patientID: string): (r: Result<MedicalRecord>)
    ensures r.Ok? <==> HasPermission(s, providerID, patientID).granted && Lookup(s, patientID).Ok?
    ensures r.Ok? ==> s[patientID].Patient? && r.value == s[patientID].data.record
    ensures !HasPermission(s, providerID, patientID).granted ==> r == Err(PermissionDenied(patientID))
    ensures HasPermission(s, providerID, patientID).granted && Lookup(s, patientID).Err? ==>
              r == Err(Lookup(s, patientID).error)
  {
    if Denies(HasPermission(s, providerID, patientID)) then Err(PermissionDenied(patientID))
    else match Lookup(s, patientID)
      case Err(e) => Err(e)
      case Ok(p) => Ok(p.record)
  }

  /** ReadPatientAllInfo: the whole record, behind the same gate. */
  function ReadPatientAllInfo(s: Store, providerID: string, patientID: string): (r: Result<PatientData>)
    ensures r.Ok? <==> HasPermission(s, providerID, patientID).granted && Lookup(s, patientID).Ok?
    ensures r.Ok? ==> s[patientID] == Marshal(r.value)
    ensures !HasPermission(s, providerID, patientID).granted ==> r == Err(PermissionDenied(patientID))
    ensures HasPermission(s, providerID, patientID).granted && Lookup(s, patientID).Err? ==>
              r == Err(Lookup(s, patientID).error)
  {
    if Denies(HasPermission(s, providerID, patientID)) then Err(PermissionDenied(patientID))
    else Lookup(s, patientID)
  }
}
