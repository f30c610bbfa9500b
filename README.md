# Patient record chaincode: a Dafny model

This project models the patient-record smart contract of PatientDataManagement,
a Hyperledger Fabric chaincode. The contract keeps one record per patient in
the ledger's world state, a key-value store. Each record holds demographics, a
current diagnosis and medication, a history of each, and an access map from
actor ID to a grant flag. The patient always has access to their own record.
Anyone else has access only while the record's access map holds `true` for
them. The contract's operations are `InitLedger`, `PatientExists`,
`UpdateMedicalpatientrecords`, `ReadPatientMedicalInfo`, `ReadPatientAllInfo`,
`DeletePatient`, `GrantAccess`, `RevokeAccess`, `hasPermission` and `ShareData`.

Every operation follows the same pattern:

1. read the world state;
2. check;
3. compute the new value;
4. write at most once.

The model uses that pattern as follows:

- `Records` (records.dfy) holds the record types, the stored `Value` (a patient
  record, or a byte payload written by `ShareData`), the codec and the error kinds.
- `WorldState` (worldstate.dfy) holds the world state as a `map<string, Value>`
  and the operations that only read it, as pure functions: `Lookup` (GetState
  then decode), `PatientExists`, `HasPermission` and the two reads.
- `Transitions` (transitions.dfy) gives every state-changing operation as a
  function from the state before the call to the error return and the state
  after it. Its contract states what the operation promises:
  - when the call succeeds;
  - which error a failure returns;
  - that a failure writes nothing;
  - the new record, field by field;
  - that every other key is untouched;
  - that the consistency invariant is kept (every stored record sits under its
    own ID and its two histories have equal length). For `ShareData` this rests
    on the model's payload never decoding as a record; see "Left out".
- `Chaincode` (contract.dfy) holds the class `SmartContract`, whose `world`
  field is the world state. Its methods carry out the operations step by step,
  as the Go code does: decode, edit the record's fields, append to the
  histories, write back. Each method is proved to produce exactly the
  corresponding transition.
- `Properties` (properties.dfy) relates several calls:
  - the seeded ledger;
  - grant, then read;
  - grant, then revoke;
  - update, then read;
  - N updates in a row (by induction);
  - delete twice.

The caller identity that Fabric supplies through
`GetClientIdentity().GetID()` is an explicit `callerID` parameter. The
`providerID` arguments of the update and the reads stay plain arguments, as
they are in the Go code. So the permission check of those operations trusts
the ID the caller names: naming the patient's own ID passes the owner rule.

`GrantAccess` and `RevokeAccess` REPLACE the whole access map with a single
entry, exactly as the code does (chaincode/smartcontract.go:261 and :373):

- a grant to an actor who is not already granted drops every other grantee;
- a revoke leaves no grantee at all.

An additive grant, and a revoke that clears only one entry, would keep the
other grantees. This model follows the code, and the lemmas
`GrantDropsOtherGrantees` and `RevokeDropsEveryGrantee` state the consequence.

The callers' gate `access == false && err != nil` might seem to let some
errors through. In the code, `hasPermission` returns an error exactly when it
returns `false`, so the gate refuses exactly the requests that are not
granted. This is proved in the contract of `HasPermission`.

## Model

| member | source | states |
|---|---|---|
| `Records.Unmarshal` | chaincode/smartcontract.go:408-413 | decoding succeeds exactly on a stored patient record and returns that record |
| `Records.Marshal` | chaincode/smartcontract.go:143-146 | round trip: decoding what is written gives the record back |
| `WorldState.Lookup` | chaincode/smartcontract.go:399-413 | a record is found exactly when the key holds a decodable record; otherwise the error is not-found for an absent key and corrupt for an undecodable value |
| `WorldState.PatientExists` | chaincode/smartcontract.go:104-111 | true exactly when the key is present, whether or not its value decodes |
| `WorldState.HasPermission` | chaincode/smartcontract.go:392-440 | the owner always passes with no error and without reading the store; anyone else passes exactly when the record exists, decodes and maps them to true; an error is returned exactly when access is refused (record missing, corrupt, not in the list, or revoked), so the callers' gate refuses exactly the ungranted requests |
| `WorldState.ReadPatientMedicalInfo` | chaincode/smartcontract.go:158-189 | returns the stored medical record exactly when the provider is granted and the record decodes; a refused provider gets PermissionDenied; a granted provider gets the lookup error |
| `WorldState.ReadPatientAllInfo` | chaincode/smartcontract.go:192-215 | the same gate and errors; returns the whole stored record |
| `Transitions.PutAllFrame` | chaincode/smartcontract.go:57-68 | writing records in order adds exactly their IDs as keys and keeps the value of every other key |
| `Transitions.PutAllConsistent` | chaincode/smartcontract.go:57-68 | writing records with aligned histories keeps every stored record under its own ID with aligned histories |
| `Transitions.UpdateStep` | chaincode/smartcontract.go:113-155 | succeeds exactly when the provider is granted and the record decodes; a failure writes nothing and returns PermissionDenied or the lookup error; on success the current diagnosis and medication are the arguments, each history gains exactly that one trailing entry, demographics and access map are kept, no other key changes, and consistency (aligned histories) is preserved |
| `Transitions.DeleteStep` | chaincode/smartcontract.go:218-228 | succeeds exactly when the key exists (no permission check); a failure returns RecordNotFound and writes nothing; success removes exactly that key |
| `Transitions.GrantStep` | chaincode/smartcontract.go:232-272 | succeeds exactly when the caller is the patient and the record decodes; a failure writes nothing; afterwards the grantee is granted, the medical record and demographics are kept, the state is unchanged if the grantee already held true, and otherwise the access map is exactly {grantee: true} |
| `Transitions.RevokeStep` | chaincode/smartcontract.go:340-388 | succeeds exactly when the caller is the patient, the record decodes and the doctor has an entry; otherwise NotOwner, the lookup error or GranteeNotFound with nothing written; afterwards the access map is exactly {doctor: false} and the rest of the record is kept |
| `Transitions.ShareStep` | chaincode/smartcontract.go:442-471 | succeeds exactly when both caller and recipient pass the permission check; otherwise CallerDenied or RecipientDenied with nothing written; on success the payload is stored verbatim under patientID + "_" + recipientID and no other key changes |
| `Chaincode.SmartContract.InitLedger` | chaincode/smartcontract.go:44-71 | the loop writes the six seed records in order: the new state is PutAll of the old state and the seeds |
| `Chaincode.SmartContract.UpdateMedicalPatientRecords` | chaincode/smartcontract.go:113-155 | the in-place edit of the record returns the error and leaves the state that UpdateStep gives |
| `Chaincode.SmartContract.DeletePatient` | chaincode/smartcontract.go:218-228 | returns the error and leaves the state that DeleteStep gives |
| `Chaincode.SmartContract.GrantAccess` | chaincode/smartcontract.go:232-272 | returns the error and leaves the state that GrantStep gives |
| `Chaincode.SmartContract.RevokeAccess` | chaincode/smartcontract.go:340-388 | returns the error and leaves the state that RevokeStep gives |
| `Chaincode.SmartContract.ShareData` | chaincode/smartcontract.go:442-471 | returns the error and leaves the state that ShareStep gives |
| `Chaincode.DeleteTwiceAfterSeeding` | chaincode/smartcontract.go:218-228 | on the seeded ledger the first delete of Patient1 succeeds and the second fails with RecordNotFound |
| `Properties.SeedIdsDistinct` | chaincode/smartcontract.go:46-53 | the six seed records have pairwise distinct IDs |
| `Properties.SeedIds` | chaincode/smartcontract.go:46-53 | the seed IDs are exactly Patient1 to Patient6 |
| `Properties.SeedRecordsShape` | chaincode/smartcontract.go:46-53 | every seed record has a single access entry and two entries in each history |
| `Properties.PutAllStoresEach` | chaincode/smartcontract.go:57-68 | writing records with distinct IDs leaves each one, decodable, under its ID |
| `Properties.InitLedgerSeeds` | chaincode/smartcontract.go:44-71 | after seeding, the keys are the old keys plus Patient1 to Patient6, every other key keeps its value, each seed record is stored under its ID, and consistency is preserved |
| `Properties.SeededPatient1` | chaincode/smartcontract.go:47 | on the seeded ledger Patient1's record grants Doctor1 only and holds the seeded medical record |
| `Properties.SeededAccess` | chaincode/smartcontract.go:46-68 | on the seeded ledger Doctor1 is granted for Patient1 and reads the record; Doctor3 is refused with NotInAccessList and its read fails with PermissionDenied |
| `Properties.SeededGrant` | chaincode/smartcontract.go:259-262 | after Patient1 grants Doctor5 on the seeded ledger, Doctor5 reads the record and Doctor1 is no longer in the access list |
| `Properties.UpdateThenRead` | chaincode/smartcontract.go:135-141 | after a successful update, a read by the same provider returns the new values with one trailing history entry each |
| `Properties.SeededUpdate` | chaincode/smartcontract.go:113-155 | on the seeded ledger Doctor1 records flu and aspirin for Patient1, and the read shows them current and last in the histories |
| `Properties.DeleteTwiceFails` | chaincode/smartcontract.go:218-228 | a second delete of a deleted key fails with RecordNotFound and changes nothing |
| `Properties.GrantDropsOtherGrantees` | chaincode/smartcontract.go:259-262 | a grant that changes the access map leaves every other actor except the patient out of the access list |
| `Properties.RevokeDropsEveryGrantee` | chaincode/smartcontract.go:366-373 | after a revoke, the revoked actor is refused with AccessRevoked and every other non-owner with NotInAccessList |
| `Properties.GrantThenRevoke` | chaincode/smartcontract.go:232-388 | a grant gives the actor access, the following revoke succeeds, and then the actor is refused with AccessRevoked |
| `Properties.UpdateKeepsPermissions` | chaincode/smartcontract.go:129-148 | an update changes no permission decision for any actor and any patient |
| `Properties.RepeatedUpdates` | chaincode/smartcontract.go:135-141 | after N permitted updates each history has grown by exactly the N values in call order, the current values are the last call's, and the permission and the rest of the record are unchanged |
| `Properties.HistoryLengthCountsUpdates` | chaincode/smartcontract.go:139-141 | starting from empty histories, N updates leave exactly N entries in each history |
| `Properties.ShareKeyAmbiguous` | chaincode/smartcontract.go:465 | the composite share key is not injective: ("a_b", "c") and ("a", "b_c") name the same key |

## Left out

- main.go: process bootstrap (`contractapi.NewChaincode(...).Start()`) is platform plumbing with no logic of the contract.
- JSON encoding: a record is stored as itself, so marshalling always succeeds. It cannot fail for this struct in Go either. Decoding fails exactly on a `ShareData` payload. In Go a payload that happens to be valid JSON would decode as a record, and lenient decoding (unknown or missing fields) is not modelled. Go's `json.Marshal` also replaces each invalid UTF-8 byte of a string or map key with U+FFFD; strings here are sequences of characters, so that coercion is not modelled.
- Records.Marshal: the exact round trip holds only for records whose strings and access-map keys are valid UTF-8; in Go a record holding an invalid byte decodes with U+FFFD in its place.
- Transitions.GrantStep: the promise that the grantee is granted afterwards holds only for a grantee ID that is valid UTF-8; in Go `GrantAccess(p, "\xff")` stores the key U+FFFD, and a later `hasPermission` for "\xff" fails with NotInAccessList.
- Transitions.ShareStep: its consistency clause holds only because a payload never decodes as a record here. In Go a payload that is valid JSON decodes as a record when later read under its key, so `ShareData` can leave, under a key such as "X_X", a record whose ID differs from the key or whose histories differ in length.
- Store I/O errors of GetState, PutState and DelState, and the error of `GetClientIdentity().GetID()`: every store call and identity lookup succeeds in the model. The identity is a parameter.
- Error messages: each error return is an `Error` constructor carrying the IDs involved, not the formatted string.
- Logging: the `fmt.Printf` and `fmt.Println` output of `ReadPatientMedicalInfo`, and the discarded `fmt.Errorf` in `InitLedger`, have no effect on state.
- The commented-out code (`AccessControl`, `CreatePatient`, `ProviderExists`, composite-key access control, the old `main`) is not compiled and is not modelled.
- Concurrency and the platform's MVCC conflict detection: each call is one atomic step.
- The platform's handling of an empty payload in `PutState` is not modelled: `ShareData` with an empty payload stores an empty value under the key.
- Go's distinction between a nil map or slice and an empty one is not modelled: both are the empty `map` or `seq`.
