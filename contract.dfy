/** The smart contract as an object over the world state. Each exported function
    that writes is a method that changes `world` in one step; the caller identity
    the platform supplies is an explicit parameter. Each method is proved to
    compute exactly the step function of Transitions; the reads are the functions
    of WorldState applied to `world`. */
module Chaincode {
  import opened Records
  import opened WorldState
  import opened Transitions
  import Properties

  class SmartContract {
    /** The ledger's world state as this contract sees it. */
    var world: Store

    /** A contract deployed on an empty ledger. */
    constructor()
      ensures world == map[]
    {
      world := map[];
    }

    /** InitLedger: PutState of every seed record, in order, under its ID. */
    method InitLedger()
      modifies this
      ensures world == PutAll(old(world), SeedPatients())
    {
      var patients := SeedPatients();
      for i := 0 to |patients|
        invariant world == PutAll(old(world), patients[..i])
      {
        var patient := patients[i];
        var patientJSON := Marshal(patient);
        assert patients[..i + 1][..i] == patients[..i];
        world := world[patient.id := patientJSON];
      }
      assert patients[..|patients|] == patients;
    }

    /** UpdateMedicalpatientrecords: the provider gate, then read, decode, rewrite
        the medical record in place and write it back. */
    method UpdateMedicalPatientRecords(providerID: string, patientID: string, diagnose: string, medication: string)
      returns (r: Outcome)
      modifies this
      ensures r == UpdateStep(old(world), providerID, patientID, diagnose, medication).out
      ensures world == UpdateStep(old(world), providerID, patientID, diagnose, medication).world
    {
      var access := HasPermission(world, providerID, patientID);
      if Denies(access) {
        return Fail(PermissionDenied(patientID));
      }
      if patientID !in world {
        return Fail(RecordNotFound(patientID));
      }
      var decoded := Unmarshal(world[patientID]);
      if decoded.None? {
        return Fail(Corrupt(patientID));
      }
      var patientData := decoded.value;
      var record := patientData.record;
      record := record.(diagnose := diagnose);
      record := record.(medications := medication);
      record := record.(diagnosesHistory := record.diagnosesHistory + [diagnose]);
      record := record.(medicationsHistory := record.medicationsHistory + [medication]);
      patientData := patientData.(record := record);
      world := world[patientID := Marshal(patientData)];
      return Pass;
    }

    /** DeletePatient: DelState of the key once PatientExists has found it. */
    method DeletePatient(id: string) returns (r: Outcome)
      modifies this
      ensures r == DeleteStep(old(world), id).out
      ensures world == DeleteStep(old(world), id).world
    {
      var found := PatientExists(world, id);
      if !found {
        return Fail(RecordNotFound(id));
      }
      world := world - {id};
      return Pass;
    }

    /** GrantAccess, called by `callerID`. */
    method GrantAccess(callerID: string, patientID: string, providerID: string) returns (r: Outcome)
      modifies this
      ensures r == GrantStep(old(world), callerID, patientID, providerID).out
      ensures world == GrantStep(old(world), callerID, patientID, providerID).world
    {
      if callerID != patientID {
        return Fail(NotOwner(callerID, patientID));
      }
      if patientID !in world {
        return Fail(RecordNotFound(patientID));
      }
      var decoded := Unmarshal(world[patientID]);
      if decoded.None? {
        return Fail(Corrupt(patientID));
      }
      var patientData := decoded.value;
      var ok := providerID in patientData.access;
      var access := ok && patientData.access[providerID];
      if !access || !ok {
        patientData := patientData.(access := map[providerID := true]);
      }
      world := world[patientID := Marshal(patientData)];
      return Pass;
    }

    /** RevokeAccess, called by `callerID`. */
    method RevokeAccess(callerID: string, patientID: string, doctorID: string) returns (r: Outcome)
      modifies this
      ensures r == RevokeStep(old(world), callerID, patientID, doctorID).out
      ensures world == RevokeStep(old(world), callerID, patientID, doctorID).world
    {
      if callerID != patientID {
        return Fail(NotOwner(callerID, patientID));
      }
      if patientID !in world {
        return Fail(RecordNotFound(patientID));
      }
      var decoded := Unmarshal(world[patientID]);
      if decoded.None? {
        return Fail(Corrupt(patientID));
      }
      var patientData := decoded.value;
      if doctorID !in patientData.access {
        return Fail(GranteeNotFound(doctorID, patientID));
      }
      patientData := patientData.(access := map[doctorID := false]);
      world := world[patientID := Marshal(patientData)];
      return Pass;
    }

    /** ShareData, called by `callerID`: both gates, then PutState of the payload. */
    method ShareData(callerID: string, patientID: string, recipientID: string, data: seq<byte>) returns (r: Outcome)
      modifies this
      ensures r == ShareStep(old(world), callerID, patientID, recipientID, data).out
      ensures world == ShareStep(old(world), callerID, patientID, recipientID, data).world
    {
      var access := HasPermission(world, callerID, patientID);
      if Denies(access) {
        return Fail(CallerDenied(patientID));
      }
      var permission := HasPermission(world, recipientID, patientID);
      if Denies(permission) {
        return Fail(RecipientDenied(patientID));
      }
      world := world[ShareKey(patientID, recipientID) := Blob(data)];
      return Pass;
    }
  }

  /** A client of the contract: deploy, seed, then delete Patient1 twice. The first
      delete succeeds and the second fails because the record is gone. */
  method DeleteTwiceAfterSeeding() returns (first: Outcome, second: Outcome)
    ensures first == Pass
    ensures second == Fail(RecordNotFound("Patient1"))
  {
    var c := new SmartContract();
    c.InitLedger();
    Properties.InitLedgerSeeds(map[]);
    first := c.DeletePatient("Patient1");
    second := c.DeletePatient("Patient1");
  }
}
