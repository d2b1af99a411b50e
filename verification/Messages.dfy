/** Values exchanged between clients, the contract event loop, the executor and delegates.
    Byte strings (states, deltas, summaries, payloads) are opaque values with equality. */
module Messages {

  datatype Option<+T> = None | Some(value: T)
  datatype Result<+T, +E> = Ok(value: T) | Err(error: E)

  type Blob = seq<bv8>
  type ContractInstanceId = nat
  type DelegateKey = nat
  type ClientId = nat
  type EventId = nat

  datatype ContractKey = ContractKey(id: ContractInstanceId, code: nat)
  datatype ContractContainer = ContractContainer(key: ContractKey, data: Blob)

  /** `fatal` is what `ExecutorError::is_fatal` answers. */
  datatype ExecutorError = ExecutorError(fatal: bool, cause: string)

  datatype UpsertResult = NoChange | Updated(state: Blob) | CurrentWon(state: Blob)

  datatype UpdateData =
    | UpdateState(state: Blob)
    | UpdateDelta(delta: Blob)
    | UpdateCompound(rest: Blob)  // StateAndDelta, RelatedState, RelatedDelta, RelatedStateAndDelta

  datatype Upsert = FullState(state: Blob) | Delta(delta: Blob)

  datatype StoreResponse = StoreResponse(state: Option<Blob>, contract: Option<ContractContainer>)

  // Delegates

  datatype OutboundDelegateMsg =
    | GetContractRequest(contractId: ContractInstanceId, context: Blob)
    | PutContractRequest(contract: ContractContainer, state: Blob, related: Blob, context: Blob)
    | UpdateContractRequest(contractId: ContractInstanceId, update: UpdateData, context: Blob)
    | SubscribeContractRequest(contractId: ContractInstanceId, context: Blob)
    | SendDelegateMessage(target: DelegateKey, payload: Blob)
    | ApplicationMessage(payload: Blob)
    | RequestUserInput(payload: Blob)
    | ContextUpdated(payload: Blob)

  datatype InboundDelegateMsg =
    | GetContractResponse(contractId: ContractInstanceId, state: Option<Blob>, context: Blob)
    | PutContractResponse(contractId: ContractInstanceId, result: Result<(), string>, context: Blob)
    | UpdateContractResponse(contractId: ContractInstanceId, result: Result<(), string>, context: Blob)
    | SubscribeContractResponse(contractId: ContractInstanceId, result: Result<(), string>, context: Blob)
    | DelegateMessage(target: DelegateKey, payload: Blob)
    | ContractNotification(contractId: ContractInstanceId, newState: Blob)
    | OtherInbound(payload: Blob)  // application messages and user answers

  datatype DelegateRequest =
    | ApplicationMessages(key: DelegateKey, params: Blob, inbound: seq<InboundDelegateMsg>)
    | RegisterDelegate(key: DelegateKey)
    | UnregisterDelegate(key: DelegateKey)

  // Contract handler events: queries and the responses to them

  datatype Event =
    | GetQuery(instanceId: ContractInstanceId, returnCode: bool)
    | PutQuery(key: ContractKey, state: Blob, related: Blob, contract: Option<ContractContainer>)
    | UpdateQuery(key: ContractKey, data: UpdateData, related: Blob)
    | DelegateQuery(req: DelegateRequest, origin: Option<ContractInstanceId>)
    | RegisterSubscriberListener(instanceId: ContractInstanceId, client: ClientId)
    | NotifySubscriptionError(instanceId: ContractInstanceId, reason: string)
    | QuerySubscriptions
    | GetSummaryQuery(key: ContractKey)
    | GetDeltaQuery(key: ContractKey, theirSummary: Blob)
    | ClientDisconnect(client: ClientId)
    | GetResponse(found: Option<ContractKey>, response: Result<StoreResponse, ExecutorError>)
    | PutResponse(newValue: Result<Blob, ExecutorError>, stateChanged: bool)
    | UpdateResponse(newValue: Result<Blob, ExecutorError>, stateChanged: bool)
    | UpdateNoChange(key: ContractKey)
    | DelegateResponse(messages: seq<OutboundDelegateMsg>)
    | RegisterSubscriberListenerResponse
    | NotifySubscriptionErrorResponse
    | QuerySubscriptionsResponse
    | GetSummaryResponse(key: ContractKey, summary: Result<Blob, ExecutorError>)
    | GetDeltaResponse(key: ContractKey, delta: Result<Blob, ExecutorError>)

  datatype Item = Item(id: EventId, event: Event)

  predicate IsResponse(e: Event) {
    e.GetResponse? || e.PutResponse? || e.UpdateResponse? || e.UpdateNoChange? || e.DelegateResponse? ||
    e.RegisterSubscriberListenerResponse? || e.NotifySubscriptionErrorResponse? ||
    e.QuerySubscriptionsResponse? || e.GetSummaryResponse? || e.GetDeltaResponse?
  }
}
