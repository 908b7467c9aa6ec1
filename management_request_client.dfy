/** The TLS policy objects of the client that sends management requests: the
    trust manager that pins the central server's certificate, and the
    trust and key managers used towards the security server's proxy.
    Each anonymous Java object is stateless, so each of its methods is a
    function here; the values it reads from global configuration or from the
    internal TLS key store are parameters. */
module ManagementRequestClient {
  import opened Wrappers

  /** An X.509 certificate, identified by its DER encoding: Java's
      Certificate.equals compares exactly these bytes. */
  datatype Cert = Cert(encoded: seq<bv8>)

  /** A private key, identified by its encoding. */
  datatype PrivateKey = PrivateKey(encoded: seq<bv8>)

  /** The security server's internal TLS key: its certificate and private key. */
  datatype InternalSslKey = InternalSslKey(cert: Cert, key: PrivateKey)

  /** A java.lang.Exception thrown by a collaborator (global configuration,
      the key store); Errors are not modelled. */
  type Exception

  /** Arguments that the key manager receives and never looks at. */
  type Principal
  type Socket
  type SslEngine

  /** The result of asking global configuration for the central server's TLS
      certificate: it may throw, and it may return null. */
  type ConfLookup = Result<Option<Cert>, Exception>

  /** Why the central server's certificate chain is refused; each reason is a
      CertificateException with its own message. */
  datatype TrustError =
    | NoCertificateSent
    | ConfLookupFailed(cause: Exception)
    | NotInGlobalConf
    | Mismatch

  /** The message of the CertificateException thrown for each reason. */
  function Message(e: TrustError): (m: string)
  {
    match e
    case NoCertificateSent => "Central server did not send SSL certificate"
    case ConfLookupFailed(_) => "Could not get central server SSL certificate from global conf"
    case NotInGlobalConf => "Central server SSL certificate is not in global conf"
    case Mismatch => "Central server SSL certificate does not match in global conf"
  }

  /** The four reasons are told apart by their messages; only the wrapped
      cause distinguishes two lookup failures. */
  lemma MessageIdentifiesReason(e1: TrustError, e2: TrustError)
    ensures Message(e1) == Message(e2) <==>
            (e1.NoCertificateSent? && e2.NoCertificateSent?) ||
            (e1.ConfLookupFailed? && e2.ConfLookupFailed?) ||
            (e1.NotInGlobalConf? && e2.NotInGlobalConf?) ||
            (e1.Mismatch? && e2.Mismatch?)
  {
  }

  /** The pinning rule: the server's leaf certificate is the one global
      configuration names for the central server. */
  predicate Pinned(chain: seq<Cert>, conf: ConfLookup)
  {
    |chain| > 0 && conf.Success? && conf.value.Some? && conf.value.value == chain[0]
  }

  // -- Trust manager towards the central server ------------------------------

  /** Clients are never checked by this trust manager. */
  function CentralCheckClientTrusted(chain: seq<Cert>, authType: string): (r: Outcome<TrustError>)
    ensures r.Pass?
  {
    Pass
  }

  /** The guards of the central server check, in the order the Java method runs
      them; `conf` is only looked at once the chain is known to be non-empty. */
  function CentralCheckServerTrusted(chain: seq<Cert>, authType: string, conf: ConfLookup): (r: Outcome<TrustError>)
    ensures r.Pass? <==> Pinned(chain, conf)
  {
    if |chain| == 0 then Fail(NoCertificateSent)
    else match conf
      case Failure(cause) => Fail(ConfLookupFailed(cause))
      case Success(None) => Fail(NotInGlobalConf)
      case Success(Some(pinned)) =>
        if pinned != chain[0] then Fail(Mismatch) else Pass
  }

  /** The central trust manager advertises no accepted issuers (null). */
  function CentralGetAcceptedIssuers(): (issuers: Option<seq<Cert>>)
    ensures issuers.None?
  {
    None
  }

  /** An empty chain is refused for not sending a certificate, whatever
      global configuration would have answered. */
  lemma EmptyChainRejected(authType: string, conf1: ConfLookup, conf2: ConfLookup)
    ensures CentralCheckServerTrusted([], authType, conf1) == Fail(NoCertificateSent)
    ensures CentralCheckServerTrusted([], authType, conf1) == CentralCheckServerTrusted([], authType, conf2)
  {
  }

  /** A failing lookup refuses a non-empty chain, carrying the cause. */
  lemma LookupFailureRejected(chain: seq<Cert>, authType: string, cause: Exception)
    requires |chain| > 0
    ensures CentralCheckServerTrusted(chain, authType, Failure(cause)) == Fail(ConfLookupFailed(cause))
  {
  }

  /** A lookup that returns null refuses a non-empty chain. */
  lemma MissingCertRejected(chain: seq<Cert>, authType: string)
    requires |chain| > 0
    ensures CentralCheckServerTrusted(chain, authType, Success(None)) == Fail(NotInGlobalConf)
  {
  }

  /** A configured certificate other than the leaf refuses the chain. */
  lemma MismatchRejected(chain: seq<Cert>, authType: string, pinned: Cert)
    requires |chain| > 0 && pinned != chain[0]
    ensures CentralCheckServerTrusted(chain, authType, Success(Some(pinned))) == Fail(Mismatch)
  {
  }

  /** Only the leaf certificate matters: chains that agree on their first
      element get the same answer, and so do authentication types. */
  lemma OnlyLeafInspected(chain1: seq<Cert>, chain2: seq<Cert>, authType1: string, authType2: string, conf: ConfLookup)
    requires |chain1| > 0 && |chain2| > 0 && chain1[0] == chain2[0]
    ensures CentralCheckServerTrusted(chain1, authType1, conf) == CentralCheckServerTrusted(chain2, authType2, conf)
  {
  }

  /** Every refusal has exactly the reason of the first guard that fails. */
  lemma RejectionReason(chain: seq<Cert>, authType: string, conf: ConfLookup)
    ensures var r := CentralCheckServerTrusted(chain, authType, conf);
      r.Fail? ==>
        (r.error.NoCertificateSent? <==> |chain| == 0) &&
        (r.error.ConfLookupFailed? <==> |chain| > 0 && conf.Failure?) &&
        (r.error.NotInGlobalConf? <==> |chain| > 0 && conf == Success(None)) &&
        (r.error.Mismatch? <==> |chain| > 0 && conf.Success? && conf.value.Some? && conf.value.value != chain[0])
  {
  }

  // -- Trust manager towards the proxy ---------------------------------------

  /** Clients are never checked by the proxy trust manager. */
  function ProxyCheckClientTrusted(chain: seq<Cert>, authType: string): (r: Outcome<TrustError>)
    ensures r.Pass?
  {
    Pass
  }

  /** The proxy trust manager accepts every server chain, even an empty one. */
  function ProxyCheckServerTrusted(chain: seq<Cert>, authType: string): (r: Outcome<TrustError>)
    ensures r.Pass?
  {
    Pass
  }

  /** The proxy trust manager advertises no accepted issuers (null). */
  function ProxyGetAcceptedIssuers(): (issuers: Option<seq<Cert>>)
    ensures issuers.None?
  {
    None
  }

  /** The proxy side is strictly more permissive than the central side:
      whatever the central check accepts, the proxy check accepts, and there
      is a chain (the empty one) that only the proxy accepts. */
  lemma ProxyTrustsWhatCentralTrusts(chain: seq<Cert>, authType: string, conf: ConfLookup)
    ensures CentralCheckServerTrusted(chain, authType, conf).Pass? ==> ProxyCheckServerTrusted(chain, authType).Pass?
    ensures CentralCheckServerTrusted([], authType, conf).Fail? && ProxyCheckServerTrusted([], authType).Pass?
  {
  }

  // -- Key manager towards the proxy -----------------------------------------

  /** The one alias the key manager ever chooses. */
  const ALIAS: string := "MgmtAuthKeyManager"

  function ChooseClientAlias(keyType: seq<string>, issuers: seq<Principal>, socket: Socket): (alias: string)
    ensures alias == ALIAS
  {
    ALIAS
  }

  function ChooseServerAlias(keyType: string, issuers: seq<Principal>, socket: Socket): (alias: string)
    ensures alias == ALIAS
  {
    ALIAS
  }

  function ChooseEngineClientAlias(keyType: seq<string>, issuers: seq<Principal>, engine: SslEngine): (alias: string)
    ensures alias == ALIAS
  {
    ALIAS
  }

  function ChooseEngineServerAlias(keyType: string, issuers: seq<Principal>, engine: SslEngine): (alias: string)
    ensures alias == ALIAS
  {
    ALIAS
  }

  /** No aliases are listed for clients (null). */
  function GetClientAliases(keyType: string, issuers: seq<Principal>): (aliases: Option<seq<string>>)
    ensures aliases.None?
  {
    None
  }

  /** No aliases are listed for servers (null). */
  function GetServerAliases(keyType: string, issuers: seq<Principal>): (aliases: Option<seq<string>>)
    ensures aliases.None?
  {
    None
  }

  /** The chain for any alias is the internal key's certificate alone, or
      empty when loading the internal key throws. */
  function GetCertificateChain(alias: string, keyLoad: Result<InternalSslKey, Exception>): (chain: seq<Cert>)
    ensures |chain| <= 1
    ensures chain == [] <==> keyLoad.Failure?
    ensures keyLoad.Success? ==> chain[0] == keyLoad.value.cert
  {
    match keyLoad
    case Success(k) => [k.cert]
    case Failure(_) => []
  }

  /** The private key for any alias is the internal key's, or null when
      loading the internal key throws. */
  function GetPrivateKey(alias: string, keyLoad: Result<InternalSslKey, Exception>): (key: Option<PrivateKey>)
    ensures key.None? <==> keyLoad.Failure?
    ensures keyLoad.Success? ==> key == Some(keyLoad.value.key)
  {
    match keyLoad
    case Success(k) => Some(k.key)
    case Failure(_) => None
  }

  /** Whatever the arguments, every choose method names the same alias, and
      the chain and key looked up under any alias do not depend on it. */
  lemma AliasIgnoresArguments(
    keyTypes: seq<string>, keyType: string, issuers1: seq<Principal>, issuers2: seq<Principal>,
    socket: Socket, engine: SslEngine, other: string, keyLoad: Result<InternalSslKey, Exception>)
    ensures ChooseClientAlias(keyTypes, issuers1, socket) == ChooseServerAlias(keyType, issuers2, socket)
            == ChooseEngineClientAlias(keyTypes, issuers2, engine) == ChooseEngineServerAlias(keyType, issuers1, engine)
            == "MgmtAuthKeyManager"
    ensures GetCertificateChain(ALIAS, keyLoad) == GetCertificateChain(other, keyLoad)
    ensures GetPrivateKey(ALIAS, keyLoad) == GetPrivateKey(other, keyLoad)
  {
  }

  /** For one outcome of loading the internal key, the chain and the private
      key are both present or both missing, and when present they are the two
      halves of that one key. */
  lemma KeyAndChainAgree(alias: string, keyLoad: Result<InternalSslKey, Exception>)
    ensures var chain := GetCertificateChain(alias, keyLoad);
            var key := GetPrivateKey(alias, keyLoad);
            (chain == [] <==> key.None?) &&
            (key.Some? ==> InternalSslKey(chain[0], key.value) == keyLoad.value)
  {
  }
}
