/** What the `ClientServiceBase` constructor does with its `properties`
    argument: the TLS-flag check, the three required properties checked in a
    fixed order, the optional ones read without checks, the call metadata,
    and the choice of signer. */
module Configuration {
  import opened Wrappers
  import opened JsValues
  import opened Errors

  const ServerHostKey: string := "scalar.ledger.client.server_host"
  const ServerPortKey: string := "scalar.ledger.client.server_port"
  const TlsEnabledKey: string := "scalar.ledger.client.tls.enabled"
  const PrivateKeyPemKey: string := "scalar.ledger.client.private_key_pem"
  const CertPemKey: string := "scalar.ledger.client.cert_pem"
  const CertHolderIdKey: string := "scalar.ledger.client.cert_holder_id"
  const CredentialKey: string := "scalar.ledger.client.authorization.credential"
  const CertVersionKey: string := "scalar.ledger.client.cert_version"

  /** The entry of the call metadata that carries the credential. */
  const AuthorizationKey: string := "Authorization"

  const TlsNotBooleanMessage: string :=
    "property 'scalar.ledger.client.tls.enabled' is not a boolean"

  function RequiredMessage(name: string): string {
    "property '" + name + "' is required"
  }

  /** The signer, an opaque object over the private key PEM: the elliptic
      curve backend of the Node runtime or the browser's WebCrypto backend. */
  datatype Signer =
    | EllipticSigner(privateKeyPem: Value)
    | WebCryptoSigner(privateKeyPem: Value)

  /** The fields a constructed client holds. */
  datatype Config = Config(
    properties: map<string, Value>,
    serverHost: Value,
    serverPort: Value,
    tlsEnabled: Value,
    privateKeyPem: Value,
    certPem: Value,
    certHolderId: Value,
    credential: Value,
    certVersion: Value,
    metadata: map<string, Value>,
    signer: Signer)

  /** The TLS flag may be left out or be a boolean (`typeof … === 'boolean'`). */
  predicate TlsFlagAccepted(v: Value) {
    v == Undefined || v.Bool?
  }

  /** `_getRequiredProperty`: the property's value when it is truthy,
      CLIENT_IO_ERROR naming the property otherwise. */
  function GetRequiredProperty(properties: map<string, Value>, name: string): (r: Result<Value, ClientError>)
    ensures r.Success? <==> Truthy(Lookup(properties, name))
    ensures r.Success? ==> r.value == properties[name]
    ensures r.Failure? ==> r.error == ClientError(ClientIoError, RequiredMessage(name))
  {
    var value := Lookup(properties, name);
    if !Truthy(value) then Failure(ClientError(ClientIoError, RequiredMessage(name)))
    else Success(value)
  }

  /** The call metadata: the credential under Authorization when it is truthy,
      and nothing else. */
  function AuthorizationMetadata(credential: Value): (m: map<string, Value>)
    ensures m.Keys <= {AuthorizationKey}
    ensures AuthorizationKey in m <==> Truthy(credential)
    ensures AuthorizationKey in m ==> m[AuthorizationKey] == credential
  {
    if Truthy(credential) then map[AuthorizationKey := credential] else map[]
  }

  /** The signer is the elliptic-curve one exactly in the Node runtime; both
      are built over the private key PEM. */
  function SelectSigner(nodeRuntime: bool, privateKeyPem: Value): (s: Signer)
    ensures s.EllipticSigner? <==> nodeRuntime
    ensures s.WebCryptoSigner? <==> !nodeRuntime
    ensures s.privateKeyPem == privateKeyPem
  {
    if nodeRuntime then EllipticSigner(privateKeyPem) else WebCryptoSigner(privateKeyPem)
  }

  /** The constructor, as a function of the properties and of the runtime
      (`nodeRuntime` is what `typeof window === 'undefined'` reports). */
  function Configure(properties: map<string, Value>, nodeRuntime: bool): (r: Result<Config, ClientError>)
    // the TLS check comes first and wins over any missing required property
    ensures !TlsFlagAccepted(Lookup(properties, TlsEnabledKey)) ==>
              r == Failure(ClientError(ClientIoError, TlsNotBooleanMessage))
    // then the required properties, in order; the first falsy one is reported
    ensures TlsFlagAccepted(Lookup(properties, TlsEnabledKey))
            && !Truthy(Lookup(properties, PrivateKeyPemKey)) ==>
              r == Failure(ClientError(ClientIoError, RequiredMessage(PrivateKeyPemKey)))
    ensures TlsFlagAccepted(Lookup(properties, TlsEnabledKey))
            && Truthy(Lookup(properties, PrivateKeyPemKey))
            && !Truthy(Lookup(properties, CertPemKey)) ==>
              r == Failure(ClientError(ClientIoError, RequiredMessage(CertPemKey)))
    ensures TlsFlagAccepted(Lookup(properties, TlsEnabledKey))
            && Truthy(Lookup(properties, PrivateKeyPemKey))
            && Truthy(Lookup(properties, CertPemKey))
            && !Truthy(Lookup(properties, CertHolderIdKey)) ==>
              r == Failure(ClientError(ClientIoError, RequiredMessage(CertHolderIdKey)))
    // nothing else can fail: optional properties are never validated
    ensures r.Success? <==>
              && TlsFlagAccepted(Lookup(properties, TlsEnabledKey))
              && Truthy(Lookup(properties, PrivateKeyPemKey))
              && Truthy(Lookup(properties, CertPemKey))
              && Truthy(Lookup(properties, CertHolderIdKey))
    ensures r.Success? ==>
              var c := r.value;
              && c.properties == properties
              && c.serverHost == Lookup(properties, ServerHostKey)
              && c.serverPort == Lookup(properties, ServerPortKey)
              && c.tlsEnabled == Lookup(properties, TlsEnabledKey)
              && c.privateKeyPem == properties[PrivateKeyPemKey]
              && c.certPem == properties[CertPemKey]
              && c.certHolderId == properties[CertHolderIdKey]
              && c.credential == Lookup(properties, CredentialKey)
              && c.certVersion == Lookup(properties, CertVersionKey)
              && c.metadata == AuthorizationMetadata(c.credential)
              && c.signer == SelectSigner(nodeRuntime, c.privateKeyPem)
  {
    var tlsEnabled := Lookup(properties, TlsEnabledKey);
    if !TlsFlagAccepted(tlsEnabled) then Failure(ClientError(ClientIoError, TlsNotBooleanMessage))
    else
      var privateKeyPem :- GetRequiredProperty(properties, PrivateKeyPemKey);
      var certPem :- GetRequiredProperty(properties, CertPemKey);
      var certHolderId :- GetRequiredProperty(properties, CertHolderIdKey);
      var credential := Lookup(properties, CredentialKey);
      Success(Config(
        properties,
        Lookup(properties, ServerHostKey),
        Lookup(properties, ServerPortKey),
        tlsEnabled,
        privateKeyPem,
        certPem,
        certHolderId,
        credential,
        Lookup(properties, CertVersionKey),
        AuthorizationMetadata(credential),
        SelectSigner(nodeRuntime, privateKeyPem)))
  }

  /** Any missing required property makes construction fail with
      CLIENT_IO_ERROR, whichever property it is and whatever else is set. */
  lemma MissingRequiredPropertyFails(properties: map<string, Value>, nodeRuntime: bool, name: string)
    requires name in {PrivateKeyPemKey, CertPemKey, CertHolderIdKey}
    requires !Truthy(Lookup(properties, name))
    ensures Configure(properties, nodeRuntime).Failure?
    ensures Configure(properties, nodeRuntime).error.code == ClientIoError
  {
  }
}
