/** Properties that relate several calls of the contract: the seeded ledger,
    repeated updates, grant followed by revoke, and delete followed by delete. */
module Properties {
  import opened Records
  import opened WorldState
  import opened Transitions

  // ---------------------------------------------------------------------------
  // The seeded ledger

  /** The seed records have pairwise distinct IDs. */
  lemma SeedIdsDistinct()
    ensures forall i, j :: 0 <= i < j < |SeedPatients()| ==> SeedPatients()[i].id != SeedPatients()[j].id
  {
  }

  /** Every seed record has a single access entry and two entries in each history. */
  lemma SeedRecordsShape()
    ensures forall p :: p in SeedPatients() ==>
              && |p.access| == 1
              && |p.record.diagnosesHistory| == |p.record.medicationsHistory| == 2
  {
  }

  /** The keys InitLedger writes are Patient1 to Patient6. */
  lemma SeedIds()
    ensures Ids(SeedPatients()) == {"Patient1", "Patient2", "Patient3", "Patient4", "Patient5", "Patient6"}
  {
  }

  /** PutAll of records with pairwise distinct IDs stores each of them, decodable,
      under its own ID. */
  lemma {:induction false} PutAllStoresEach(s: Store, ps: seq<PatientData>)
    requires forall i, j :: 0 <= i < j < |ps| ==> ps[i].id != ps[j].id
    ensures forall i :: 0 <= i < |ps| ==> Lookup(PutAll(s, ps), ps[i].id) == Ok(ps[i])
    decreases |ps|
  {
    if ps != [] {
      var n := |ps| - 1;
      var prefix := ps[..n];
      assert forall i, j :: 0 <= i < j < |prefix| ==> prefix[i].id != prefix[j].id;
      PutAllStoresEach(s, prefix);
      var before := PutAll(s, prefix);
      assert PutAll(s, ps) == before[ps[n].id := Marshal(ps[n])];
      forall i | 0 <= i < n ensures Lookup(PutAll(s, ps), ps[i].id) == Ok(ps[i]) {
        assert prefix[i] == ps[i];
        assert ps[i].id != ps[n].id;
      }
    }
  }

  /** After InitLedger every seed record is stored, decodable, under its ID; the
      other keys keep their value; and consistency is preserved. */
  lemma InitLedgerSeeds(s: Store)
    ensures PutAll(s, SeedPatients()).Keys ==
              s.Keys + {"Patient1", "Patient2", "Patient3", "Patient4", "Patient5", "Patient6"}
    ensures forall k :: k in s && k !in Ids(SeedPatients()) ==> PutAll(s, SeedPatients())[k] == s[k]
    ensures forall i :: 0 <= i < |SeedPatients()| ==>
              Lookup(PutAll(s, SeedPatients()), SeedPatients()[i].id) == Ok(SeedPatients()[i])
    ensures Consistent(s) ==> Consistent(PutAll(s, SeedPatients()))
  {
    SeedIds();
    SeedIdsDistinct();
    PutAllFrame(s, SeedPatients());
    PutAllStoresEach(s, SeedPatients());
    if Consistent(s) {
      SeedRecordsShape();
      PutAllConsistent(s, SeedPatients());
    }
  }

  /** What the seeded ledger holds under Patient1. */
  lemma SeededPatient1(s: Store)
    ensures var p := SeedPatients()[0];
            && Lookup(PutAll(s, SeedPatients()), "Patient1") == Ok(p)
            && p.access == map["Doctor1" := true]
            && p.record == MedicalRecord("Diagnose1", "Medications1",
                                         ["diagnose11", "diagnose12"], ["medication11", "medication12"])
  {
    InitLedgerSeeds(s);
  }

  /** On the seeded ledger Doctor1 may read Patient1's medical record and Doctor3,
      who is in no access list of Patient1, may not. */
  lemma SeededAccess(s: Store)
    ensures var t := PutAll(s, SeedPatients());
            && HasPermission(t, "Doctor1", "Patient1") == Permission(true, None)
            && HasPermission(t, "Doctor3", "Patient1") == Permission(false, Some(NotInAccessList("Doctor3", "Patient1")))
            && ReadPatientMedicalInfo(t, "Doctor1", "Patient1") == Ok(SeedPatients()[0].record)
            && ReadPatientMedicalInfo(t, "Doctor3", "Patient1") == Err(PermissionDenied("Patient1"))
  {
    SeededPatient1(s);
  }

  /** Granting on the seeded ledger: after Patient1 grants Doctor5, Doctor5 may read
      Patient1's record, and Doctor1, granted at seeding, no longer may. */
  lemma SeededGrant(s: Store)
    ensures var t := PutAll(s, SeedPatients());
            var g := GrantStep(t, "Patient1", "Patient1", "Doctor5");
            && g.out == Pass
            && ReadPatientMedicalInfo(g.world, "Doctor5", "Patient1") == Ok(SeedPatients()[0].record)
            && ReadPatientMedicalInfo(g.world, "Doctor1", "Patient1") == Err(PermissionDenied("Patient1"))
            && HasPermission(g.world, "Doctor1", "Patient1").err == Some(NotInAccessList("Doctor1", "Patient1"))
  {
    SeededPatient1(s);
    var t := PutAll(s, SeedPatients());
    var p := SeedPatients()[0];
    var g := GrantStep(t, "Patient1", "Patient1", "Doctor5");
    assert !Grants(p, "Doctor5");
    assert Lookup(g.world, "Patient1") == Ok(p.(access := map["Doctor5" := true]));
  }

  /** An update followed by a read by the same provider: the read shows the new
      current values and each history with exactly one new trailing entry. */
  lemma UpdateThenRead(s: Store, providerID: string, patientID: string, diagnose: string, medication: string)
    requires UpdateStep(s, providerID, patientID, diagnose, medication).out.Pass?
    ensures var before := s[patientID].data.record;
            ReadPatientMedicalInfo(UpdateStep(s, providerID, patientID, diagnose, medication).world, providerID, patientID) ==
              Ok(MedicalRecord(diagnose, medication,
                               before.diagnosesHistory + [diagnose], before.medicationsHistory + [medication]))
  {
  }

  /** Updating on the seeded ledger: Doctor1 records "flu" and "aspirin" for
      Patient1; the read shows them as current and as the last history entries. */
  lemma SeededUpdate(s: Store)
    ensures var t := PutAll(s, SeedPatients());
            var u := UpdateStep(t, "Doctor1", "Patient1", "flu", "aspirin");
            && u.out == Pass
            && ReadPatientMedicalInfo(u.world, "Doctor1", "Patient1") ==
                 Ok(MedicalRecord("flu", "aspirin",
                                  ["diagnose11", "diagnose12", "flu"],
                                  ["medication11", "medication12", "aspirin"]))
  {
    SeededPatient1(s);
    var t := PutAll(s, SeedPatients());
    assert HasPermission(t, "Doctor1", "Patient1").granted;
    UpdateThenRead(t, "Doctor1", "Patient1", "flu", "aspirin");
    assert ["diagnose11", "diagnose12"] + ["flu"] == ["diagnose11", "diagnose12", "flu"];
    assert ["medication11", "medication12"] + ["aspirin"] == ["medication11", "medication12", "aspirin"];
  }

  // ---------------------------------------------------------------------------
  // Delete

  /** Deleting the same ID twice: the second call fails and changes nothing. */
  lemma DeleteTwiceFails(s: Store, id: string)
    requires DeleteStep(s, id).out.Pass?
    ensures var t := DeleteStep(s, id).world;
            DeleteStep(t, id) == Step(Fail(RecordNotFound(id)), t)
  {
  }

  // ---------------------------------------------------------------------------
  // Grant and revoke

  /** A grant that changes the access map drops every other grantee: afterwards
      only the patient and the new grantee pass hasPermission. */
  lemma GrantDropsOtherGrantees(s: Store, patientID: string, providerID: string, userID: string)
    requires GrantStep(s, patientID, patientID, providerID).out.Pass?
    requires !Grants(s[patientID].data, providerID)
    requires userID != patientID && userID != providerID
    ensures HasPermission(GrantStep(s, patientID, patientID, providerID).world, userID, patientID) ==
              Permission(false, Some(NotInAccessList(userID, patientID)))
  {
  }

  /** A revoke leaves only the patient with access: the revoked actor is refused
      with AccessRevoked, and every other actor is in no access list. */
  lemma RevokeDropsEveryGrantee(s: Store, patientID: string, doctorID: string, userID: string)
    requires RevokeStep(s, patientID, patientID, doctorID).out.Pass?
    requires userID != patientID
    ensures var t := RevokeStep(s, patientID, patientID, doctorID).world;
            HasPermission(t, userID, patientID) ==
              if userID == doctorID then Permission(false, Some(AccessRevoked(userID, patientID)))
              else Permission(false, Some(NotInAccessList(userID, patientID)))
  {
  }

  /** Grant followed by revoke of the same actor: the grant gives access, the
      revoke succeeds, and afterwards the actor is refused with AccessRevoked. */
  lemma GrantThenRevoke(s: Store, patientID: string, doctorID: string)
    requires Lookup(s, patientID).Ok?
    requires doctorID != patientID
    ensures var g := GrantStep(s, patientID, patientID, doctorID);
            var r := RevokeStep(g.world, patientID, patientID, doctorID);
            && g.out == Pass
            && HasPermission(g.world, doctorID, patientID) == Permission(true, None)
            && r.out == Pass
            && HasPermission(r.world, doctorID, patientID) == Permission(false, Some(AccessRevoked(doctorID, patientID)))
  {
  }

  // ---------------------------------------------------------------------------
  // Repeated updates

  /** The arguments of one UpdateMedicalpatientrecords call. */
  datatype Change = Change(diagnose: string, medication: string)

  function Diagnoses(cs: seq<Change>): (ds: seq<string>)
    ensures |ds| == |cs| && forall i :: 0 <= i < |cs| ==> ds[i] == cs[i].diagnose
  {
    seq(|cs|, i requires 0 <= i < |cs| => cs[i].diagnose)
  }

  function Medications(cs: seq<Change>): (ms: seq<string>)
    ensures |ms| == |cs| && forall i :: 0 <= i < |cs| ==> ms[i] == cs[i].medication
  {
    seq(|cs|, i requires 0 <= i < |cs| => cs[i].medication)
  }

  /** The world state after the given updates by one provider on one patient, in order. */
  function UpdateAll(s: Store, providerID: string, patientID: string, cs: seq<Change>): (t: Store)
    decreases |cs|
  {
    if cs == [] then s
    else
      var n := |cs| - 1;
      UpdateStep(UpdateAll(s, providerID, patientID, cs[..n]), providerID, patientID, cs[n].diagnose, cs[n].medication).world
  }

  /** An update changes no permission decision: it keeps the access map and the
      record stays decodable. */
  lemma UpdateKeepsPermissions(s: Store, providerID: string, patientID: string, diagnose: string, medication: string,
                               userID: string, otherID: string)
    ensures HasPermission(UpdateStep(s, providerID, patientID, diagnose, medication).world, userID, otherID) ==
              HasPermission(s, userID, otherID)
  {
  }

  /** After N updates that the first one permits, every one of them succeeded:
      each history has grown by exactly the N values in call order, the current
      values are the last call's, and the rest of the record is unchanged. */
  lemma {:induction false} RepeatedUpdates(s: Store, providerID: string, patientID: string, cs: seq<Change>)
    requires HasPermission(s, providerID, patientID).granted
    requires Lookup(s, patientID).Ok?
    ensures var t := UpdateAll(s, providerID, patientID, cs);
            && HasPermission(t, providerID, patientID).granted
            && Lookup(t, patientID).Ok?
            && var before, after := s[patientID].data, t[patientID].data;
            && after.record.diagnosesHistory == before.record.diagnosesHistory + Diagnoses(cs)
            && after.record.medicationsHistory == before.record.medicationsHistory + Medications(cs)
            && (cs != [] ==> after.record.diagnose == cs[|cs| - 1].diagnose
                             && after.record.medications == cs[|cs| - 1].medication)
            && SameDemographics(before, after)
            && after.access == before.access
    decreases |cs|
  {
    if cs != [] {
      var n := |cs| - 1;
      RepeatedUpdates(s, providerID, patientID, cs[..n]);
      var mid := UpdateAll(s, providerID, patientID, cs[..n]);
      UpdateKeepsPermissions(mid, providerID, patientID, cs[n].diagnose, cs[n].medication, providerID, patientID);
      assert Diagnoses(cs) == Diagnoses(cs[..n]) + [cs[n].diagnose];
      assert Medications(cs) == Medications(cs[..n]) + [cs[n].medication];
    }
  }

  /** Starting from empty histories, N updates leave N entries in each history. */
  lemma HistoryLengthCountsUpdates(s: Store, providerID: string, patientID: string, cs: seq<Change>)
    requires HasPermission(s, providerID, patientID).granted
    requires Lookup(s, patientID).Ok?
    requires s[patientID].data.record.diagnosesHistory == s[patientID].data.record.medicationsHistory == []
    ensures Lookup(UpdateAll(s, providerID, patientID, cs), patientID).Ok?
    ensures var after := UpdateAll(s, providerID, patientID, cs)[patientID].data;
            |after.record.diagnosesHistory| == |after.record.medicationsHistory| == |cs|
  {
    RepeatedUpdates(s, providerID, patientID, cs);
  }

  // ---------------------------------------------------------------------------
  // Share

  /** The composite key is ambiguous: two different (patient, recipient) pairs
      can name the same key when an ID contains an underscore. */
  lemma ShareKeyAmbiguous()
    ensures ShareKey("a_b", "c") == ShareKey("a", "b_c")
  {
  }
}
