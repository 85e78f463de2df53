/** `ClientServiceBase`: a client built once from its properties, whose six
    operations each check their input, hand the request fields to a request
    builder, send the built request through a gRPC stub with the client's
    call metadata, and translate a failure into a thrown error.

    The builder's and the stub's outcomes are inputs of each operation; what
    the operation does with them is recorded as a Run: the steps it took
    (building, sending) and the value it returned or the error it threw. */
module ClientService {
  import opened Wrappers
  import opened JsValues
  import opened Errors
  import opened StatusRecovery
  import opened Configuration

  /** The parts of the injected protobuf module that the client uses. */
  datatype Protobuf = Protobuf(
    deserializeStatus: Value -> Status,       // Status.deserializeBinary(b).toObject()
    toObject: Value -> map<string, Value>)    // response.toObject()

  /** JSON.stringify and JSON.parse. */
  datatype Json = Json(stringify: Value -> Value, parse: Value -> Value)

  /** The fields each operation gives its request builder, in the order the
      builder's `with…` calls receive them; the signer is passed to the four
      builders that sign. */
  datatype BuilderInput =
    | CertificateRegistration(certHolderId: Value, certVersion: Value, certPem: Value)
    | FunctionRegistration(functionId: Value, binaryName: Value, byteCode: seq<bv8>)
    | ContractRegistration(contractId: Value, binaryName: Value, byteCode: seq<bv8>,
                           propertiesJson: Value, certHolderId: Value, certVersion: Value,
                           signer: Signer)
    | ContractsListing(certHolderId: Value, certVersion: Value, contractId: Value, signer: Signer)
    | LedgerValidation(assetId: Value, certHolderId: Value, certVersion: Value, signer: Signer)
    | ContractExecution(contractId: Value, argumentJson: Value, functionArgumentJson: Value,
                        certHolderId: Value, certVersion: Value, signer: Signer)

  /** The two gRPC services (`services['ledgerClient']`, `services['ledgerPrivileged']`). */
  datatype Stub = LedgerClient | LedgerPrivileged

  datatype Step =
    | Build(input: BuilderInput)
    | Send(stub: Stub, call: string, request: Value, metadata: map<string, Value>)

  /** What one operation did and how it ended. */
  datatype Run = Run(steps: seq<Step>, result: Result<Value, Exception>)

  /** The arguments the stub passes its callback: an error, or a response. */
  datatype Reply = Replied(response: Value) | Rejected(error: RpcError)

  /** What a callback resolves with for a response: its plain object, its
      `json` field parsed, or its plain object with `result` parsed. */
  datatype Resolution =
    | PlainObject
    | ParsedJsonField(parse: Value -> Value)
    | ParsedResultField(parse: Value -> Value)

  const FunctionBytesMessage: string := "parameter functionBytes is not a 'Uint8Array'"
  const ContractBytesMessage: string := "parameter contractBytes is not a 'Uint8Array'"

  /** `jsonResponse.result = JSON.parse(jsonResponse.result)`: only the
      `result` entry changes. */
  function WithParsedResult(response: map<string, Value>, parse: Value -> Value): (r: map<string, Value>)
    ensures r.Keys == response.Keys + {"result"}
    ensures r["result"] == parse(Lookup(response, "result"))
    ensures forall k :: k in response && k != "result" ==> r[k] == response[k]
  {
    response["result" := parse(Lookup(response, "result"))]
  }

  /** The promise each operation wraps around its stub call: rejected with the
      transport's error, or resolved with the decoded response. */
  function Settle(reply: Reply, resolution: Resolution, toObject: Value -> map<string, Value>)
    : (r: Result<Value, RpcError>)
    ensures r.Success? <==> reply.Replied?
    ensures reply.Rejected? ==> r == Failure(reply.error)
    ensures reply.Replied? && resolution.PlainObject? ==>
              r.value == Obj(toObject(reply.response))
    ensures reply.Replied? && resolution.ParsedJsonField? ==>
              r.value == resolution.parse(Lookup(toObject(reply.response), "json"))
    ensures reply.Replied? && resolution.ParsedResultField? ==>
              && r.value.Obj?
              && r.value.fields.Keys == toObject(reply.response).Keys + {"result"}
              && r.value.fields["result"] == resolution.parse(Lookup(toObject(reply.response), "result"))
              && forall k :: k in toObject(reply.response) && k != "result" ==>
                   r.value.fields[k] == toObject(reply.response)[k]
  {
    match reply
    case Rejected(e) => Failure(e)
    case Replied(response) =>
      match resolution
      case PlainObject => Success(Obj(toObject(response)))
      case ParsedJsonField(parse) => Success(parse(Lookup(toObject(response), "json")))
      case ParsedResultField(parse) => Success(Obj(WithParsedResult(toObject(response), parse)))
  }

  /** `argument['nonce'] = new Date().getTime().toString()`, with the clock
      reading `now` in milliseconds: every other entry is kept. */
  function WithNonce(argument: map<string, Value>, now: nat): (r: map<string, Value>)
    ensures r.Keys == argument.Keys + {"nonce"}
    ensures r["nonce"] == Str(NatToDecimal(now))
    ensures forall k :: k in argument && k != "nonce" ==> r[k] == argument[k]
  {
    argument["nonce" := Str(NatToDecimal(now))]
  }

  /** Two executions at different clock readings hand different arguments to
      JSON.stringify, whatever the arguments were before: the same map, maps
      that differ only in `nonce`, or the caller's object reused after the
      first call already wrote its nonce. */
  lemma NonceDistinguishesCalls(argument1: map<string, Value>, argument2: map<string, Value>,
                                now1: nat, now2: nat)
    requires now1 != now2
    ensures WithNonce(argument1, now1) != WithNonce(argument2, now2)
  {
    DecimalInjective(now1, now2);
    assert WithNonce(argument1, now1)["nonce"] != WithNonce(argument2, now2)["nonce"];
  }

  /** The repeated call on one caller object: the second call starts from the
      object the first call left behind. */
  lemma ReusedArgumentGetsFreshNonce(argument: map<string, Value>, now1: nat, now2: nat)
    requires now1 != now2
    ensures WithNonce(WithNonce(argument, now1), now2) != WithNonce(argument, now1)
    ensures WithNonce(WithNonce(argument, now1), now2) == WithNonce(argument, now2)
  {
    NonceDistinguishesCalls(WithNonce(argument, now1), argument, now2, now1);
  }

  /** A caller's plain object, which `executeContract` updates in place. */
  class JsObject {
    var entries: map<string, Value>

    constructor (entries: map<string, Value>)
      ensures this.entries == entries
    {
      this.entries := entries;
    }
  }

  class ClientServiceBase {
    const properties: map<string, Value>
    const serverHost: Value
    const serverPort: Value
    const tlsEnabled: Value
    const privateKeyPem: Value
    const certPem: Value
    const certHolderId: Value
    const credential: Value
    const certVersion: Value
    const metadata: map<string, Value>
    const signer: Signer
    /** What `typeof window === 'undefined'` reports in this process. */
    const nodeRuntime: bool
    const protobuf: Protobuf

    /** The client's fields as one value. */
    function State(): Config {
      Config(properties, serverHost, serverPort, tlsEnabled, privateKeyPem, certPem,
             certHolderId, credential, certVersion, metadata, signer)
    }

    /** The field assignments of the constructor once its checks have passed:
        every field is read from `properties` in the source's order, the
        metadata gains `Authorization` for a truthy credential, and the signer
        follows the runtime. */
    constructor (properties: map<string, Value>, nodeRuntime: bool, protobuf: Protobuf)
      requires Configure(properties, nodeRuntime).Success?
      ensures State() == Configure(properties, nodeRuntime).value
      ensures this.properties == properties
      ensures serverHost == Lookup(properties, ServerHostKey)
      ensures serverPort == Lookup(properties, ServerPortKey)
      ensures tlsEnabled == Lookup(properties, TlsEnabledKey)
      ensures privateKeyPem == properties[PrivateKeyPemKey] && Truthy(privateKeyPem)
      ensures certPem == properties[CertPemKey] && Truthy(certPem)
      ensures certHolderId == properties[CertHolderIdKey] && Truthy(certHolderId)
      ensures credential == Lookup(properties, CredentialKey)
      ensures certVersion == Lookup(properties, CertVersionKey)
      ensures metadata == AuthorizationMetadata(credential)
      ensures signer == SelectSigner(nodeRuntime, privateKeyPem)
      ensures this.nodeRuntime == nodeRuntime
      ensures this.protobuf == protobuf
    {
      this.properties := properties;
      serverHost := Lookup(properties, ServerHostKey);
      serverPort := Lookup(properties, ServerPortKey);
      tlsEnabled := Lookup(properties, TlsEnabledKey);
      var key := properties[PrivateKeyPemKey];
      privateKeyPem := key;
      certPem := properties[CertPemKey];
      certHolderId := properties[CertHolderIdKey];
      var cred := Lookup(properties, CredentialKey);
      credential := cred;
      certVersion := Lookup(properties, CertVersionKey);
      var meta: map<string, Value> := map[];
      if Truthy(cred) {
        meta := meta[AuthorizationKey := cred];
      }
      metadata := meta;
      if nodeRuntime {
        signer := EllipticSigner(key);
      } else {
        signer := WebCryptoSigner(key);
      }
      this.nodeRuntime := nodeRuntime;
      this.protobuf := protobuf;
    }

    /** `new ClientServiceBase(services, protobuf, properties)`: throws the
        error Configure reports, or yields a fresh client whose fields are
        Configure's. */
    static method Create(properties: map<string, Value>, nodeRuntime: bool, protobuf: Protobuf)
      returns (r: Result<ClientServiceBase, ClientError>)
      ensures r.Failure? <==> Configure(properties, nodeRuntime).Failure?
      ensures r.Failure? ==> r.error == Configure(properties, nodeRuntime).error
      ensures r.Success? ==> && fresh(r.value)
                             && r.value.State() == Configure(properties, nodeRuntime).value
                             && r.value.nodeRuntime == nodeRuntime
                             && r.value.protobuf == protobuf
    {
      var tls := Lookup(properties, TlsEnabledKey);
      if tls != Undefined && !tls.Bool? {
        return Failure(ClientError(ClientIoError, TlsNotBooleanMessage));
      }
      var _ :- GetRequiredProperty(properties, PrivateKeyPemKey);
      var _ :- GetRequiredProperty(properties, CertPemKey);
      var _ :- GetRequiredProperty(properties, CertHolderIdKey);
      var client := new ClientServiceBase(properties, nodeRuntime, protobuf);
      return Success(client);
    }

    /** `_executePromise` over this client's stub reply: a response always
        resolves, a rejection always throws, and the only thrown error that is
        not a ClientError is the TypeError of a plain dictionary met in the
        Node runtime. */
    function Complete(reply: Reply, resolution: Resolution): (r: Result<Value, Exception>)
      ensures r.Success? <==> reply.Replied?
      ensures reply.Replied? ==> r.value == Settle(reply, resolution, protobuf.toObject).value
      ensures reply.Rejected? ==> r == ExecutePromise(Failure(reply.error), nodeRuntime, protobuf.deserializeStatus)
      ensures r.Failure? && !r.error.Client? ==>
                && nodeRuntime
                && reply.Rejected? && reply.error.metadata.WebMetadata?
                && r.error == GetIsNotAFunction
    {
      ExecutePromise(Settle(reply, resolution, protobuf.toObject), nodeRuntime, protobuf.deserializeStatus)
    }

    /** A `listContracts` whose stub rejects with a decodable status in the
        metadata shape of this runtime throws exactly that status, not the
        generic UNKNOWN_TRANSACTION_STATUS. */
    lemma ListingRejectionSurfacesStatus(parse: Value -> Value, transportMessage: string, payload: Value)
      requires Truthy(payload)
      ensures var metadata := if nodeRuntime then NodeMetadata(map[BinaryStatusKey := Arr([payload])])
                              else WebMetadata(map[BinaryStatusKey := payload]);
              var status := protobuf.deserializeStatus(payload);
              Complete(Rejected(RpcError(transportMessage, metadata)), ParsedJsonField(parse))
                == Failure(Client(ClientError(Reported(status.code), status.message)))
    {
    }

    /** `registerCertificate()`: the builder's own error propagates unchanged. */
    method RegisterCertificate(built: Result<Value, Exception>, reply: Reply) returns (run: Run)
      ensures |run.steps| >= 1
      ensures run.steps[0] == Build(CertificateRegistration(certHolderId, certVersion, certPem))
      ensures built.Failure? ==> run.steps[1..] == [] && run.result == Failure(built.error)
      ensures built.Success? ==>
                && run.steps[1..] == [Send(LedgerPrivileged, "registerCert", built.value, metadata)]
                && run.result == Complete(reply, PlainObject)
    {
      var input := CertificateRegistration(certHolderId, certVersion, certPem);
      if built.Failure? {
        return Run([Build(input)], Failure(built.error));
      }
      var send := Send(LedgerPrivileged, "registerCert", built.value, metadata);
      run := Run([Build(input), send], Complete(reply, PlainObject));
    }

    /** `registerFunction(id, name, functionBytes)`: a non-Uint8Array byte
        code is refused before anything is built; the builder's own error
        propagates unchanged. */
    method RegisterFunction(id: Value, name: Value, functionBytes: Value,
                            built: Result<Value, Exception>, reply: Reply) returns (run: Run)
      ensures !functionBytes.Bytes? ==>
                run == Run([], Failure(Client(ClientError(ClientIoError, FunctionBytesMessage))))
      ensures functionBytes.Bytes? ==>
                |run.steps| >= 1 && run.steps[0] == Build(FunctionRegistration(id, name, functionBytes.bytes))
      ensures functionBytes.Bytes? && built.Failure? ==>
                run.steps[1..] == [] && run.result == Failure(built.error)
      ensures functionBytes.Bytes? && built.Success? ==>
                && run.steps[1..] == [Send(LedgerPrivileged, "registerFunction", built.value, metadata)]
                && run.result == Complete(reply, PlainObject)
    {
      if !functionBytes.Bytes? {
        return Run([], Failure(Client(ClientError(ClientIoError, FunctionBytesMessage))));
      }
      var input := FunctionRegistration(id, name, functionBytes.bytes);
      if built.Failure? {
        return Run([Build(input)], Failure(built.error));
      }
      var send := Send(LedgerPrivileged, "registerFunction", built.value, metadata);
      run := Run([Build(input), send], Complete(reply, PlainObject));
    }

    /** `registerContract(id, name, contractBytes, properties)`: a
        non-Uint8Array byte code is refused before anything is built; a
        builder failure becomes RUNTIME_ERROR with its message. */
    method RegisterContract(id: Value, name: Value, contractBytes: Value, contractProperties: Value,
                            json: Json, built: Result<Value, Exception>, reply: Reply) returns (run: Run)
      ensures !contractBytes.Bytes? ==>
                run == Run([], Failure(Client(ClientError(ClientIoError, ContractBytesMessage))))
      ensures contractBytes.Bytes? ==>
                && |run.steps| >= 1
                && run.steps[0] == Build(ContractRegistration(id, name, contractBytes.bytes,
                                                              json.stringify(contractProperties),
                                                              certHolderId, certVersion, signer))
      ensures contractBytes.Bytes? && built.Failure? ==>
                && run.steps[1..] == []
                && run.result == Failure(Client(ClientError(RuntimeError, MessageOf(built.error))))
      ensures contractBytes.Bytes? && built.Success? ==>
                && run.steps[1..] == [Send(LedgerClient, "registerContract", built.value, metadata)]
                && run.result == Complete(reply, PlainObject)
    {
      if !contractBytes.Bytes? {
        return Run([], Failure(Client(ClientError(ClientIoError, ContractBytesMessage))));
      }
      var propertiesJson := json.stringify(contractProperties);
      var input := ContractRegistration(id, name, contractBytes.bytes, propertiesJson,
                                        certHolderId, certVersion, signer);
      if built.Failure? {
        return Run([Build(input)], Failure(Client(ClientError(RuntimeError, MessageOf(built.error)))));
      }
      var send := Send(LedgerClient, "registerContract", built.value, metadata);
      run := Run([Build(input), send], Complete(reply, PlainObject));
    }

    /** `listContracts(contractId)`: a builder failure becomes RUNTIME_ERROR;
        a response resolves with its `json` field parsed. */
    method ListContracts(contractId: Value, json: Json, built: Result<Value, Exception>, reply: Reply)
      returns (run: Run)
      ensures |run.steps| >= 1
      ensures run.steps[0] == Build(ContractsListing(certHolderId, certVersion, contractId, signer))
      ensures built.Failure? ==>
                && run.steps[1..] == []
                && run.result == Failure(Client(ClientError(RuntimeError, MessageOf(built.error))))
      ensures built.Success? ==>
                && run.steps[1..] == [Send(LedgerClient, "listContracts", built.value, metadata)]
                && run.result == Complete(reply, ParsedJsonField(json.parse))
    {
      var input := ContractsListing(certHolderId, certVersion, contractId, signer);
      if built.Failure? {
        return Run([Build(input)], Failure(Client(ClientError(RuntimeError, MessageOf(built.error)))));
      }
      var send := Send(LedgerClient, "listContracts", built.value, metadata);
      run := Run([Build(input), send], Complete(reply, ParsedJsonField(json.parse)));
    }

    /** `validateLedger(assetId)`: a builder failure becomes RUNTIME_ERROR. */
    method ValidateLedger(assetId: Value, built: Result<Value, Exception>, reply: Reply) returns (run: Run)
      ensures |run.steps| >= 1
      ensures run.steps[0] == Build(LedgerValidation(assetId, certHolderId, certVersion, signer))
      ensures built.Failure? ==>
                && run.steps[1..] == []
                && run.result == Failure(Client(ClientError(RuntimeError, MessageOf(built.error))))
      ensures built.Success? ==>
                && run.steps[1..] == [Send(LedgerClient, "validateLedger", built.value, metadata)]
                && run.result == Complete(reply, PlainObject)
    {
      var input := LedgerValidation(assetId, certHolderId, certVersion, signer);
      if built.Failure? {
        return Run([Build(input)], Failure(Client(ClientError(RuntimeError, MessageOf(built.error)))));
      }
      var send := Send(LedgerClient, "validateLedger", built.value, metadata);
      run := Run([Build(input), send], Complete(reply, PlainObject));
    }

    /** `executeContract(contractId, argument, functionArgument)`, with the
        clock reading `now`: the nonce is written into the caller's argument
        before it is serialised, whatever happens next; a builder failure
        becomes RUNTIME_ERROR; a response resolves with `result` parsed. */
    method ExecuteContract(contractId: Value, argument: JsObject, functionArgument: Value, now: nat,
                           json: Json, built: Result<Value, Exception>, reply: Reply) returns (run: Run)
      modifies argument
      ensures argument.entries == WithNonce(old(argument.entries), now)
      ensures |run.steps| >= 1
      ensures run.steps[0] == Build(ContractExecution(contractId,
                                                      json.stringify(Obj(argument.entries)),
                                                      json.stringify(functionArgument),
                                                      certHolderId, certVersion, signer))
      ensures built.Failure? ==>
                && run.steps[1..] == []
                && run.result == Failure(Client(ClientError(RuntimeError, MessageOf(built.error))))
      ensures built.Success? ==>
                && run.steps[1..] == [Send(LedgerClient, "executeContract", built.value, metadata)]
                && run.result == Complete(reply, ParsedResultField(json.parse))
    {
      argument.entries := argument.entries["nonce" := Str(NatToDecimal(now))];
      var argumentJson := json.stringify(Obj(argument.entries));
      var functionArgumentJson := json.stringify(functionArgument);
      var input := ContractExecution(contractId, argumentJson, functionArgumentJson,
                                     certHolderId, certVersion, signer);
      if built.Failure? {
        return Run([Build(input)], Failure(Client(ClientError(RuntimeError, MessageOf(built.error)))));
      }
      var send := Send(LedgerClient, "executeContract", built.value, metadata);
      run := Run([Build(input), send], Complete(reply, ParsedResultField(json.parse)));
    }
  }
}
