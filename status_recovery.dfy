/** Turning a failed remote call into a ClientError: recovering the binary
    status the server may attach to the failure's metadata
    (`_parseStatusFromError`) and choosing the error to throw
    (`_executePromise`). */
module StatusRecovery {
  import opened Wrappers
  import opened JsValues
  import opened Errors

  /** The metadata key under which the binary status travels
      (`ClientServiceBase.binaryStatusKey`). */
  const BinaryStatusKey: string := "rpc.status-bin"

  /** The `metadata` property of a transport error: absent (or falsy), a Node
      gRPC `Metadata` collection (its internal key-to-values table, read
      through `get(key)`), or the plain dictionary of the web transport. */
  datatype ErrorMetadata =
    | NoMetadata
    | NodeMetadata(internal: map<string, Value>)
    | WebMetadata(entries: map<string, Value>)

  /** `Metadata.get(key)`: the values stored under the key, or an empty
      array when there are none. */
  function MetadataGet(internal: map<string, Value>, key: string): Value {
    if key in internal then internal[key] else Arr([])
  }

  /** The error a stub hands to its callback. */
  datatype RpcError = RpcError(message: string, metadata: ErrorMetadata)

  /** `Status.deserializeBinary(bytes).toObject()`: a status code and message. */
  datatype Status = Status(code: int, message: string)

  /** What calling `get` on a plain dictionary throws: such an object has no
      `get` method. */
  const GetIsNotAFunction: Exception :=
    Other("TypeError", "error.metadata.get is not a function")

  /** The value `binaryStatus` holds once metadata is known to be present:
      in the Node runtime, the single element of the array stored under the key
      (and `undefined` unless there is exactly one); in the web runtime, the
      dictionary's entry. A Node `Metadata` object read as a dictionary has no
      property by that name. */
  function BinaryStatus(metadata: ErrorMetadata, nodeRuntime: bool): Result<Value, Exception> {
    if nodeRuntime then
      match metadata
      case NodeMetadata(internal) =>
        var found := MetadataGet(internal, BinaryStatusKey);
        if found.Arr? && |found.elems| == 1 then Success(found.elems[0]) else Success(Undefined)
      case WebMetadata(_) => Failure(GetIsNotAFunction)
      case NoMetadata => Success(Undefined)
    else
      match metadata
      case WebMetadata(entries) => Success(Lookup(entries, BinaryStatusKey))
      case _ => Success(Undefined)
  }

  /** `_parseStatusFromError`: `Some(status)` when a truthy binary status was
      found and decoded with `deserialize`, `None` when there is nothing to
      decode, and a thrown TypeError when the Node runtime meets a metadata
      object without a `get` method. */
  function ParseStatusFromError(error: RpcError, nodeRuntime: bool, deserialize: Value -> Status)
    : (r: Result<Option<Status>, Exception>)
    // no metadata: nothing to recover
    ensures error.metadata.NoMetadata? ==> r == Success(None)
    // Node runtime: only a one-element array with a truthy element is decoded
    ensures nodeRuntime && error.metadata.NodeMetadata? ==>
              var found := MetadataGet(error.metadata.internal, BinaryStatusKey);
              if found.Arr? && |found.elems| == 1 && Truthy(found.elems[0])
              then r == Success(Some(deserialize(found.elems[0])))
              else r == Success(None)
    // web runtime: the dictionary entry itself is decoded when it is truthy
    ensures !nodeRuntime && error.metadata.WebMetadata? ==>
              var found := Lookup(error.metadata.entries, BinaryStatusKey);
              r == if Truthy(found) then Success(Some(deserialize(found))) else Success(None)
    ensures !nodeRuntime && error.metadata.NodeMetadata? ==> r == Success(None)
    // the only way it throws
    ensures r.Failure? <==> nodeRuntime && error.metadata.WebMetadata?
    ensures r.Failure? ==> r.error == GetIsNotAFunction
  {
    if error.metadata.NoMetadata? then Success(None)
    else
      var binary :- BinaryStatus(error.metadata, nodeRuntime);
      if Truthy(binary) then Success(Some(deserialize(binary))) else Success(None)
  }

  /** `_executePromise`: a settled call's value is returned unchanged; a
      rejection never returns normally and becomes the server's status when
      one can be recovered, and UNKNOWN_TRANSACTION_STATUS with the transport's
      message otherwise. */
  function ExecutePromise(settled: Result<Value, RpcError>, nodeRuntime: bool, deserialize: Value -> Status)
    : (r: Result<Value, Exception>)
    ensures settled.Success? ==> r == Success(settled.value)
    ensures settled.Failure? ==> r.Failure?
    ensures settled.Failure? ==>
              match ParseStatusFromError(settled.error, nodeRuntime, deserialize)
              case Success(Some(status)) =>
                r.error == Client(ClientError(Reported(status.code), status.message))
              case Success(None) =>
                r.error == Client(ClientError(UnknownTransactionStatus, settled.error.message))
              case Failure(thrown) =>
                r.error == thrown
  {
    match settled
    case Success(v) => Success(v)
    case Failure(e) =>
      match ParseStatusFromError(e, nodeRuntime, deserialize)
      case Failure(thrown) => Failure(thrown)
      case Success(Some(status)) => Failure(Client(ClientError(Reported(status.code), status.message)))
      case Success(None) => Failure(Client(ClientError(UnknownTransactionStatus, e.message)))
  }

  /** A failure without metadata surfaces as UNKNOWN_TRANSACTION_STATUS with
      the transport's message, whatever the runtime. */
  lemma NoMetadataIsUnknownStatus(message: string, nodeRuntime: bool, deserialize: Value -> Status)
    ensures ExecutePromise(Failure(RpcError(message, NoMetadata)), nodeRuntime, deserialize)
         == Failure(Client(ClientError(UnknownTransactionStatus, message)))
  {
  }

  /** A decodable status {code, message} becomes exactly that ClientError, for
      Node-shaped and for web-shaped metadata alike. */
  lemma ReportedStatusSurfaces(transportMessage: string, payload: Value, deserialize: Value -> Status,
                               internal: map<string, Value>, entries: map<string, Value>)
    requires Truthy(payload)
    requires MetadataGet(internal, BinaryStatusKey) == Arr([payload])
    requires BinaryStatusKey in entries && entries[BinaryStatusKey] == payload
    ensures var status := deserialize(payload);
            var expected: Result<Value, Exception> := Failure(Client(ClientError(Reported(status.code), status.message)));
            && ExecutePromise(Failure(RpcError(transportMessage, NodeMetadata(internal))), true, deserialize) == expected
            && ExecutePromise(Failure(RpcError(transportMessage, WebMetadata(entries))), false, deserialize) == expected
  {
  }
}
