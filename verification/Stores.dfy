/** The gateway's two tables: recorded operations and minted capabilities. */
module Stores {
  import opened Prelude
  import opened Contracts
  import opened Receipts
  import opened Adapters

  datatype OperationState = Succeeded | FailedOperation | UnknownOperation

  /** Why a recorded operation failed. */
  datatype FailureNote =
    | AdapterFailed(error: AdapterError)
    | GatewayRejected(reason: CapabilityRejection)
    | PostconditionNotMet

  datatype OperationRecord = OperationRecord(
    operationId: string,
    idempotencyKey: string,
    capabilityId: string,
    payloadHash: string,
    state: OperationState,
    receipt: Option<Receipt>,
    failure: Option<FailureNote>)

  datatype StoreState = StoreState(byKey: map<string, OperationRecord>, byOp: map<string, OperationRecord>)

  datatype OperationLookup = New | Duplicate(operation: OperationRecord) | ConflictingPayload

  function CheckKey(s: StoreState, key: string, payloadHash: string): OperationLookup {
    if key !in s.byKey then New
    else if s.byKey[key].payloadHash != payloadHash then ConflictingPayload
    else Duplicate(s.byKey[key])
  }

  function AfterRecord(s: StoreState, r: OperationRecord): StoreState {
    StoreState(s.byKey[r.idempotencyKey := r], s.byOp[r.operationId := r])
  }

  class OperationStore {
    var byIdempotencyKey: map<string, OperationRecord>
    var byOperationId: map<string, OperationRecord>

    constructor ()
      ensures State() == StoreState(map[], map[])
    {
      byIdempotencyKey := map[];
      byOperationId := map[];
    }

    function State(): StoreState
      reads this
    {
      StoreState(byIdempotencyKey, byOperationId)
    }

    method Check(key: string, payloadHash: string) returns (r: OperationLookup)
      ensures r == CheckKey(State(), key, payloadHash)
      ensures r.New? <==> key !in byIdempotencyKey
      ensures r.ConflictingPayload? <==> key in byIdempotencyKey && byIdempotencyKey[key].payloadHash != payloadHash
      ensures r.Duplicate? ==> r.operation == byIdempotencyKey[key]
    {
      if key !in byIdempotencyKey {
        return New;
      }
      var existing := byIdempotencyKey[key];
      if existing.payloadHash != payloadHash {
        return ConflictingPayload;
      }
      return Duplicate(existing);
    }

    method Record(operation: OperationRecord)
      modifies this
      ensures State() == AfterRecord(old(State()), operation)
      ensures byIdempotencyKey == old(byIdempotencyKey)[operation.idempotencyKey := operation]
      ensures byOperationId == old(byOperationId)[operation.operationId := operation]
    {
      byIdempotencyKey := byIdempotencyKey[operation.idempotencyKey := operation];
      byOperationId := byOperationId[operation.operationId := operation];
    }

    method Lookup(operationId: string) returns (r: Option<OperationRecord>)
      ensures r == if operationId in State().byOp then Some(State().byOp[operationId]) else None
    {
      if operationId in byOperationId {
        return Some(byOperationId[operationId]);
      }
      return None;
    }
  }

  type RegistryState = map<string, Capability>

  function RefuseConsume(s: RegistryState, id: string, nonce: string): Option<CapabilityRejection> {
    if id !in s then Some(CapabilityUnknown)
    else if s[id].nonce != nonce then Some(CapabilityNonceMismatch)
    else if s[id].status != Active then Some(CapabilityAlreadyConsumed)
    else None
  }

  function AfterConsume(s: RegistryState, id: string): RegistryState
    requires id in s
  {
    s[id := s[id].(status := Consumed)]
  }

  class CapabilityRegistry {
    var byId: map<string, Capability>

    constructor ()
      ensures byId == map[]
    {
      byId := map[];
    }

    method Record(capability: Capability)
      modifies this
      ensures byId == old(byId)[capability.id := capability]
    {
      byId := byId[capability.id := capability];
    }

    method Consume(capabilityId: string, nonce: string) returns (refused: Option<CapabilityRejection>)
      modifies this
      ensures refused == RefuseConsume(old(byId), capabilityId, nonce)
      ensures refused == Some(CapabilityUnknown) <==> capabilityId !in old(byId)
      ensures refused == Some(CapabilityNonceMismatch) <==> capabilityId in old(byId) && old(byId)[capabilityId].nonce != nonce
      ensures refused == Some(CapabilityAlreadyConsumed) <==>
        capabilityId in old(byId) && old(byId)[capabilityId].nonce == nonce && old(byId)[capabilityId].status != Active
      ensures refused.None? <==>
        capabilityId in old(byId) && old(byId)[capabilityId].nonce == nonce && old(byId)[capabilityId].status == Active
      ensures byId == if refused.None? then old(byId)[capabilityId := old(byId)[capabilityId].(status := Consumed)] else old(byId)
    {
      if capabilityId !in byId {
        return Some(CapabilityUnknown);
      }
      var stored := byId[capabilityId];
      if stored.nonce != nonce {
        return Some(CapabilityNonceMismatch);
      }
      if stored.status != Active {
        return Some(CapabilityAlreadyConsumed);
      }
      byId := byId[capabilityId := stored.(status := Consumed)];
      return None;
    }
  }

  /** The three grounds for refusing a consumption, in the order they are told. */
  lemma {:induction false} ConsumeExact(s: RegistryState, id: string, nonce: string)
    ensures RefuseConsume(s, id, nonce) == Some(CapabilityUnknown) <==> id !in s
    ensures RefuseConsume(s, id, nonce) == Some(CapabilityNonceMismatch) <==> id in s && s[id].nonce != nonce
    ensures RefuseConsume(s, id, nonce) == Some(CapabilityAlreadyConsumed) <==>
      id in s && s[id].nonce == nonce && s[id].status != Active
    ensures RefuseConsume(s, id, nonce) == None <==> id in s && s[id].nonce == nonce && s[id].status == Active
    ensures id in s ==> AfterConsume(s, id) == s[id := s[id].(status := Consumed)]
  {
  }

  /** A capability is spent by its first successful consumption, whoever holds a copy of it. */
  lemma {:induction false} ConsumedOnce(s: RegistryState, id: string, nonce: string, again: string)
    requires RefuseConsume(s, id, nonce) == None
    ensures RefuseConsume(AfterConsume(s, id), id, again).Some?
    ensures RefuseConsume(AfterConsume(s, id), id, nonce) == Some(CapabilityAlreadyConsumed)
    ensures forall other | other != id :: RefuseConsume(AfterConsume(s, id), other, again) == RefuseConsume(s, other, again)
  {
  }

  /** After a record, presenting its key again is a duplicate with that hash and a conflict with any other. */
  lemma {:induction false} RecordedIsFound(s: StoreState, r: OperationRecord, payloadHash: string)
    ensures CheckKey(AfterRecord(s, r), r.idempotencyKey, payloadHash)
         == if payloadHash == r.payloadHash then Duplicate(r) else ConflictingPayload
    ensures forall key | key != r.idempotencyKey :: CheckKey(AfterRecord(s, r), key, payloadHash) == CheckKey(s, key, payloadHash)
    ensures AfterRecord(s, r).byOp == s.byOp[r.operationId := r]
  {
  }
}
