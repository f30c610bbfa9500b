/** Each state-changing operation of the contract as a function from the world
    state before the call to its error return and the world state after it. Every
    operation reads, checks, computes the new value and then writes at most once,
    so a failed call leaves the world state as it was. */
module Transitions {
  import opened Records
  import opened WorldState

  /** The error return of one call and the world state it leaves behind. */
  datatype Step = Step(out: Outcome, world: Store)

  /** The IDs of a list of records. */
  ghost function Ids(ps: seq<PatientData>): (ids: set<string>)
  {
    set p | p in ps :: p.id
  }

  /** The six records InitLedger writes. */
  function SeedPatients(): (ps: seq<PatientData>)
    ensures |ps| == 6
  {
    var diagnoses := ["diagnose11", "diagnose12"];
    var medications := ["medication11", "medication12"];
    [ PatientData("Patient1", "test1", 5, "male", "B+", "xx", map["Doctor1" := true],
                  MedicalRecord("Diagnose1", "Medications1", diagnoses, medications)),
      PatientData("Patient2", "test2", 5, "male", "A+", "yy", map["Doctor2" := true],
                  MedicalRecord("Diagnose2", "Medications2", diagnoses, medications)),
      PatientData("Patient3", "test3", 10, "female", "AB", "cc", map["Doctor1" := true],
                  MedicalRecord("Diagnose3", "Medications3", diagnoses, medications)),
      PatientData("Patient4", "test4", 10, "female", "O+", "nn", map["Doctor2" := true],
                  MedicalRecord("Diagnose4", "Medications4", diagnoses, medications)),
      PatientData("Patient5", "test5", 15, "female", "O-", "mm", map["Doctor1" := true],
                  MedicalRecord("Diagnose5", "Medications5", diagnoses, medications)),
      PatientData("Patient6", "test6", 15, "female", "B-", "jj", map["Doctor2" := true],
                  MedicalRecord("Diagnose6", "Medications6", diagnoses, medications)) ]
  }

  /** The world state after PutState of each record under its ID, in order. */
  function PutAll(s: Store, ps: seq<PatientData>): (t: Store)
    decreases |ps|
  {
    if ps == [] then s
    else
      var n := |ps| - 1;
      PutAll(s, ps[..n])[ps[n].id := Marshal(ps[n])]
  }

  /** The keys PutAll writes are exactly the records' IDs; every other key keeps
      its value. */
  lemma {:induction false} PutAllFrame(s: Store, ps: seq<PatientData>)
    ensures PutAll(s, ps).Keys == s.Keys + Ids(ps)
    ensures forall k :: k in s && k !in Ids(ps) ==> PutAll(s, ps)[k] == s[k]
    decreases |ps|
  {
    if ps != [] {
      var n := |ps| - 1;
      PutAllFrame(s, ps[..n]);
      assert ps == ps[..n] + [ps[n]];
      assert Ids(ps) == Ids(ps[..n]) + {ps[n].id};
    }
  }

  /** Seeding keeps every stored record under its own ID with aligned histories,
      provided every seed record has aligned histories. */
  lemma {:induction false} PutAllConsistent(s: Store, ps: seq<PatientData>)
    requires Consistent(s)
    requires forall p :: p in ps ==> HistoriesAligned(p)
    ensures Consistent(PutAll(s, ps))
    decreases |ps|
  {
    if ps != [] {
      var n := |ps| - 1;
      PutAllConsistent(s, ps[..n]);
      var before := PutAll(s, ps[..n]);
      assert PutAll(s, ps) == before[ps[n].id := Marshal(ps[n])];
      assert HistoriesAligned(ps[n]);
    }
  }

  /** UpdateMedicalpatientrecords: behind the provider gate, overwrite the current
      diagnosis and medication and append each to its history. */
  function UpdateStep(s: Store, providerID: string, patientID: string, diagnose: string, medication: string): (r: Step)
    ensures r.out.Pass? <==> HasPermission(s, providerID, patientID).granted && Lookup(s, patientID).Ok?
    ensures r.out.Fail? ==> r.world == s
    ensures !HasPermission(s, providerID, patientID).granted ==> r.out == Fail(PermissionDenied(patientID))
    ensures HasPermission(s, providerID, patientID).granted && Lookup(s, patientID).Err? ==>
              r.out == Fail(Lookup(s, patientID).error)
    ensures r.out.Pass? ==>
              && SameExcept(s, r.world, patientID)
              && Lookup(r.world, patientID).Ok?
              && Appended(s[patientID].data, r.world[patientID].data, diagnose, medication)
    ensures Consistent(s) ==> Consistent(r.world)
  {
    if Denies(HasPermission(s, providerID, patientID)) then Step(Fail(PermissionDenied(patientID)), s)
    else match Lookup(s, patientID)
      case Err(e) => Step(Fail(e), s)
      case Ok(p) =>
        var record := MedicalRecord(diagnose, medication,
                                    p.record.diagnosesHistory + [diagnose],
                                    p.record.medicationsHistory + [medication]);
        Step(Pass, s[patientID := Marshal(p.(record := record))])
  }

  /** What an update promises of the record it rewrites: the new current values,
      each history grown by exactly that value, everything else kept. */
  ghost predicate Appended(before: PatientData, after: PatientData, diagnose: string, medication: string)
  {
    && after.record.diagnose == diagnose
    && after.record.medications == medication
    && after.record.diagnosesHistory == before.record.diagnosesHistory + [diagnose]
    && after.record.medicationsHistory == before.record.medicationsHistory + [medication]
    && SameDemographics(before, after)
    && after.access == before.access
  }

  /** DeletePatient: removes the key if PatientExists reports it; no permission check. */
  function DeleteStep(s: Store, id: string): (r: Step)
    ensures r.out.Pass? <==> PatientExists(s, id)
    ensures r.out.Fail? ==> r.out == Fail(RecordNotFound(id)) && r.world == s
    ensures r.out.Pass? ==> r.world.Keys == s.Keys - {id} && SameExcept(s, r.world, id)
    ensures Consistent(s) ==> Consistent(r.world)
  {
    if !PatientExists(s, id) then Step(Fail(RecordNotFound(id)), s)
    else Step(Pass, s - {id})
  }

  /** GrantAccess: only the patient may grant. If the grantee is not already
      granted, the access map is REPLACED by the single entry {providerID: true},
      dropping every other grantee. The record is written back either way. */
  function GrantStep(s: Store, callerID: string, patientID: string, providerID: string): (r: Step)
    ensures r.out.Pass? <==> callerID == patientID && Lookup(s, patientID).Ok?
    ensures r.out.Fail? ==> r.world == s
    ensures callerID != patientID ==> r.out == Fail(NotOwner(callerID, patientID))
    ensures callerID == patientID && Lookup(s, patientID).Err? ==> r.out == Fail(Lookup(s, patientID).error)
    ensures r.out.Pass? ==>
              && SameExcept(s, r.world, patientID)
              && Lookup(r.world, patientID).Ok?
              && var before, after := s[patientID].data, r.world[patientID].data;
              && Grants(after, providerID)
              && SameDemographics(before, after)
              && after.record == before.record
              && (Grants(before, providerID) ==> r.world == s)
              && (!Grants(before, providerID) ==> after.access == map[providerID := true])
    ensures Consistent(s) ==> Consistent(r.world)
  {
    if callerID != patientID then Step(Fail(NotOwner(callerID, patientID)), s)
    else match Lookup(s, patientID)
      case Err(e) => Step(Fail(e), s)
      case Ok(p) =>
        var granted := if Grants(p, providerID) then p else p.(access := map[providerID := true]);
        Step(Pass, s[patientID := Marshal(granted)])
  }

  /** RevokeAccess: only the patient may revoke, and only an actor with an entry in
      the access map. The access map is REPLACED by the single entry {doctorID: false}. */
  function RevokeStep(s: Store, callerID: string, patientID: string, doctorID: string): (r: Step)
    ensures r.out.Pass? <==>
              callerID == patientID && Lookup(s, patientID).Ok? && doctorID in Lookup(s, patientID).value.access
    ensures r.out.Fail? ==> r.world == s
    ensures callerID != patientID ==> r.out == Fail(NotOwner(callerID, patientID))
    ensures callerID == patientID && Lookup(s, patientID).Err? ==> r.out == Fail(Lookup(s, patientID).error)
    ensures callerID == patientID && Lookup(s, patientID).Ok? && doctorID !in Lookup(s, patientID).value.access ==>
              r.out == Fail(GranteeNotFound(doctorID, patientID))
    ensures r.out.Pass? ==>
              && SameExcept(s, r.world, patientID)
              && Lookup(r.world, patientID).Ok?
              && var before, after := s[patientID].data, r.world[patientID].data;
              && after.access == map[doctorID := false]
              && SameDemographics(before, after)
              && after.record == before.record
    ensures Consistent(s) ==> Consistent(r.world)
  {
    if callerID != patientID then Step(Fail(NotOwner(callerID, patientID)), s)
    else match Lookup(s, patientID)
      case Err(e) => Step(Fail(e), s)
      case Ok(p) =>
        if doctorID !in p.access then Step(Fail(GranteeNotFound(doctorID, patientID)), s)
        else Step(Pass, s[patientID := Marshal(p.(access := map[doctorID := false]))])
  }

  /** The key ShareData writes under: the two IDs joined by an underscore. */
  function ShareKey(patientID: string, recipientID: string): (k: string)
    ensures |k| == |patientID| + 1 + |recipientID|
    ensures k[..|patientID|] == patientID && k[|patientID|] == '_' && k[|patientID| + 1..] == recipientID
  {
    patientID + "_" + recipientID
  }

  /** ShareData: when both the caller and the recipient pass hasPermission for the
      patient, store the payload verbatim under the composite key. */
  function ShareStep(s: Store, callerID: string, patientID: string, recipientID: string, data: seq<byte>): (r: Step)
    ensures r.out.Pass? <==>
              HasPermission(s, callerID, patientID).granted && HasPermission(s, recipientID, patientID).granted
    ensures r.out.Fail? ==> r.world == s
    ensures !HasPermission(s, callerID, patientID).granted ==> r.out == Fail(CallerDenied(patientID))
    ensures HasPermission(s, callerID, patientID).granted && !HasPermission(s, recipientID, patientID).granted ==>
              r.out == Fail(RecipientDenied(patientID))
    ensures r.out.Pass? ==>
              && SameExcept(s, r.world, ShareKey(patientID, recipientID))
              && ShareKey(patientID, recipientID) in r.world
              && r.world[ShareKey(patientID, recipientID)] == Blob(data)
    ensures Consistent(s) ==> Consistent(r.world)
  {
    if Denies(HasPermission(s, callerID, patientID)) then Step(Fail(CallerDenied(patientID)), s)
    else if Denies(HasPermission(s, recipientID, patientID)) then Step(Fail(RecipientDenied(patientID)), s)
    else Step(Pass, s[ShareKey(patientID, recipientID) := Blob(data)])
  }
}
