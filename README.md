# ClientServiceBase decision logic, modelled in Dafny

This project models the decision logic of `ClientServiceBase`, the base class of
the ScalarDL JavaScript client SDK. The client talks to a certificate-authenticated
ledger over gRPC. The model covers:

- **Construction** (`Configuration`, `ClientService.ClientServiceBase.Create` and
  its constructor). First, a TLS flag that is present must be a boolean. Then the
  private key PEM, the certificate PEM and the certificate holder id must be
  truthy, checked in that order. The certificate version and the credential are
  read without checks. A truthy credential goes into the call metadata under
  `Authorization`. The signer backend is chosen once, from the runtime.
- **Status recovery** (`StatusRecovery`). A failed call may carry a binary status
  under the metadata key `rpc.status-bin`. It is read one way in the Node runtime
  (`Metadata.get`, which returns an array) and another in the web runtime (a plain
  dictionary). It is then decoded into `{code, message}`.
- **Error translation** (`StatusRecovery.ExecutePromise`). A rejected call becomes
  the server's status, or UNKNOWN_TRANSACTION_STATUS with the transport's message.
- **The six operations** (`ClientService.ClientServiceBase`): `registerCertificate`,
  `registerFunction`, `registerContract`, `listContracts`, `validateLedger` and
  `executeContract`. Each operation's byte-code check, builder-failure handling,
  stub and metadata, and response decoding are modelled. `executeContract` also
  writes the nonce into the caller's argument object in place.

The operations take the request builder's outcome and the stub's reply as inputs.
Each returns a `Run`: the steps it took (`Build` with the fields handed to the
builder, then `Send` with the stub, call name, request and metadata) and its
value or thrown error. This makes "the transport is never invoked" a statement
about `Run.steps`.

Collaborators the model cannot see are parameters:

- `Status.deserializeBinary(..).toObject()` and `response.toObject()` (the injected
  `Protobuf`)
- `JSON.stringify` and `JSON.parse` (`Json`)
- the clock reading `now` in milliseconds
- whether the process is Node (`nodeRuntime`, i.e. `typeof window === 'undefined'`)

The status codes in `status_code.js` are not part of this model. The three codes
the client raises by name (CLIENT_IO_ERROR, RUNTIME_ERROR and
UNKNOWN_TRANSACTION_STATUS) are constructors of `Errors.Code`. A code decoded
from the server's status is kept as `Reported(n)`, even when `n` is the value of
one of the three named codes (see "## Left out").

The model follows the code, including where it is less uniform than one might expect:

- Builder failures are re-wrapped as RUNTIME_ERROR only in `registerContract`,
  `listContracts`, `validateLedger` and `executeContract`. In `registerCertificate`
  and `registerFunction` the builder's error propagates unchanged.
- In the Node runtime, metadata that is a plain dictionary has no `get` method.
  There `_parseStatusFromError` throws a TypeError instead of reporting "no
  status". The TypeError escapes `_executePromise` untranslated.
- The function registration builder receives neither the signer nor the
  certificate holder id.
- A falsy binary status (for example an empty string) is never decoded.

## Model

| member | source | states |
|---|---|---|
| `Configuration.GetRequiredProperty` | index.js:102-111 | succeeds exactly when the property is truthy and then returns its value unchanged; otherwise fails with CLIENT_IO_ERROR and `property '<name>' is required` |
| `Configuration.AuthorizationMetadata` | index.js:57-61 | metadata has no key but `Authorization`, has it exactly when the credential is truthy, and then holds the credential |
| `Configuration.SelectSigner` | index.js:63-68 | the elliptic signer exactly in the Node runtime, the WebCrypto signer otherwise, both over the private key PEM |
| `Configuration.Configure` | index.js:27-68 | a non-boolean, present TLS flag fails first with its CLIENT_IO_ERROR message; then the first falsy one of private key, cert PEM, holder id fails with its required message; construction succeeds exactly when none of these holds, and the fields are the properties read as they are, with metadata and signer as above |
| `Configuration.MissingRequiredPropertyFails` | index.js:43-50 | any falsy required property makes construction fail with CLIENT_IO_ERROR |
| `StatusRecovery.ParseStatusFromError` | index.js:398-415 | nothing without metadata; in Node only the single element of a one-element array under `rpc.status-bin` is decoded, and only when truthy; in the web runtime the dictionary entry is decoded when truthy; a Node `Metadata` object read as a dictionary yields nothing; it throws only for a plain dictionary in Node |
| `StatusRecovery.ExecutePromise` | index.js:375-389 | a success value is returned unchanged; a failure never returns normally: a recovered status becomes `ClientError(status.code, status.message)`, no status gives UNKNOWN_TRANSACTION_STATUS with the transport message, and an error raised while parsing propagates |
| `StatusRecovery.NoMetadataIsUnknownStatus` | index.js:375-401 | a failure without metadata becomes UNKNOWN_TRANSACTION_STATUS with the transport's message in either runtime |
| `StatusRecovery.ReportedStatusSurfaces` | index.js:402-413 | a truthy payload decoding to {code, message} surfaces as exactly that ClientError, for Node-shaped and web-shaped metadata |
| `JsValues.NatToDecimal` | index.js:328 | the nonce's text is a non-empty run of decimal digits without a leading zero, and `"0"` exactly for zero |
| `JsValues.DecimalRoundTrip` | index.js:328 | reading the nonce's digits back gives the clock reading |
| `JsValues.DecimalInjective` | index.js:328 | two clock readings print the same exactly when they are equal |
| `ClientService.WithNonce` | index.js:328 | the argument gains or replaces `nonce` with the clock's decimal text, and every other entry is kept |
| `ClientService.NonceDistinguishesCalls` | index.js:328-329 | two executions at different clock readings serialise different argument objects, whatever the arguments were before, including maps that differ only in `nonce` |
| `ClientService.ReusedArgumentGetsFreshNonce` | index.js:328-329 | reusing the caller's object, which already carries the first call's nonce, still yields an argument different from the first call's; the second write simply overrides the first |
| `ClientService.Settle` | index.js:125-365 | the callback of each of the six stub calls: a response resolves and an error rejects with the whole transport error, metadata included; the resolved value is the response's plain object, its `json` field parsed, or the object with only `result` parsed |
| `ClientService.WithParsedResult` | index.js:359-361 | only the `result` field of the decoded response changes, to its parsed form |
| `ClientService.ClientServiceBase.Complete` | index.js:125-139 | a stub response always resolves, with the value `Settle` decodes, and a stub error throws exactly what `_executePromise` makes of the whole transport error; every thrown error is a ClientError except the TypeError a plain-dictionary metadata causes in the Node runtime |
| `ClientService.ClientServiceBase.ListingRejectionSurfacesStatus` | index.js:262-276 | a `listContracts` rejected with a decodable status in this runtime's metadata shape throws exactly that code and message |
| `ClientService.ClientServiceBase.constructor` | index.js:29-68 | called only on properties that pass the checks; every field holds its property as read (the three required ones truthy), the metadata is `AuthorizationMetadata(credential)`, the signer is `SelectSigner(runtime, key)`, so its state is `Configure`'s |
| `ClientService.ClientServiceBase.Create` | index.js:27-68 | the constructor throws exactly the error `Configure` reports, and otherwise yields a fresh client whose fields are `Configure`'s |
| `ClientService.ClientServiceBase.RegisterCertificate` | index.js:117-140 | the builder gets holder id, version and cert PEM; a builder error propagates unchanged with no send; otherwise one `registerCert` send on the privileged stub with the client metadata, translated by `_executePromise` |
| `ClientService.ClientServiceBase.RegisterFunction` | index.js:149-179 | a non-Uint8Array byte code fails with CLIENT_IO_ERROR before any build or send; a builder error propagates unchanged with no send; otherwise one `registerFunction` send on the privileged stub |
| `ClientService.ClientServiceBase.RegisterContract` | index.js:191-235 | a non-Uint8Array byte code fails with CLIENT_IO_ERROR before any build or send; the builder gets the stringified properties, identity and signer; a builder failure becomes RUNTIME_ERROR with its message and nothing is sent |
| `ClientService.ClientServiceBase.ListContracts` | index.js:244-277 | a builder failure becomes RUNTIME_ERROR with its message and nothing is sent; a response resolves with its `json` field parsed |
| `ClientService.ClientServiceBase.ValidateLedger` | index.js:285-318 | a builder failure becomes RUNTIME_ERROR with its message and nothing is sent; otherwise one `validateLedger` send with the client metadata |
| `ClientService.ClientServiceBase.ExecuteContract` | index.js:327-368 | the caller's argument gets the nonce in place, whatever happens next, and is serialised after that; a builder failure becomes RUNTIME_ERROR and nothing is sent; a response resolves with only `result` parsed |

## Left out

- The signers (`EllipticSigner`, `WebCryptoSigner`): signer.js is not part of this model. A signer is an opaque value over the private key PEM.
- The request builders: request/builder is not part of this model. The model records which fields each builder receives. It does not model their serialised byte order or signing. Builder failures are an input.
- gRPC stubs, Promise/callback adaptation and `async`/`await`: a stub call is a `Send` step, and its reply (error or response) is an input. The `services` object is not stored.
- Protobuf decoding, `JSON.stringify`, `JSON.parse` and `new Date().getTime()` are parameters. `deserialize` and `parse` are total, so a malformed status payload or unparsable JSON, both of which throw in JavaScript, is not modelled.
- JavaScript numbers are modelled as integers: NaN, fractions and sign of zero are not modelled.
- `JsValues.NatToDecimal`: the clock reading is assumed non-negative. A clock set before 1970 gives a negative `getTime()`, whose text starts with `-`; that case is not modelled. A `Date`'s time value stays within ±8.64e15 ms, so exponent notation and precision loss never arise.
- Property insertion order, which `JSON.stringify` follows, is not modelled: objects are maps.
- `ClientService.ClientServiceBase.ExecuteContract`: `functionArgument` is a value, fixed before the nonce is written. When the caller passes the same object as both arguments, or a function argument that contains the argument object, the source also serialises the new nonce inside `functionArgumentJson`. That aliasing is not modelled.
- `ClientService.ClientServiceBase.ExecuteContract`: the argument is always an object. A `null`, `undefined` or primitive argument, on which the nonce assignment throws a TypeError, is not modelled.
- `StatusRecovery.ExecutePromise`: a status code the server reports is kept as `Errors.Code.Reported(n)` and differs from `ClientIoError`, `RuntimeError` and `UnknownTransactionStatus` for every `n`. In the source both are numbers in the same `code` field of one StatusCode enumeration, so a reported number equal to a named code's value (which status_code.js defines, outside this model) is the same code. Statements that follow from the constructor, such as "a failure with `RuntimeError` sent nothing", hold of the model, but in the source a server reporting that number gives an equal code after a send.
- `ClientService.ClientServiceBase.Create`: `properties` and `services` are always objects. A `null` or `undefined` `properties` (read at index.js:31) or `services` (read at index.js:74), on which the property access throws a TypeError, is not modelled; `Create` fails exactly when `Configure` does only for object arguments.
- The client keeps a reference to the caller's `properties` object; the model keeps its value, so later changes through that reference are not modelled.
- The runtime check `_isNodeJsRuntime` (index.js:422-424) is a boolean fixed for the process and held by the client. The source re-evaluates `typeof window` on each parse (index.js:403); the model assumes it gives the same answer, so a global `window` that appears or disappears after construction is not modelled.
- The TypeError that a plain dictionary in the Node runtime causes carries V8's wording of the message as a constant.
- ledger_validation_result.js (a two-field value object over asset proofs defined elsewhere) and test/signature_signer.test.js (tests of signer classes outside this model) are not modelled.
