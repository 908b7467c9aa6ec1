# X-Road: central-server certificate pinning and WSDL merge dispatch

This project models two small pieces of X-Road logic and proves properties of them.

- **Management request client TLS policy** (`management_request_client.dfy`, module
  `ManagementRequestClient`). The security server sends management requests to the central server.
  The central trust manager accepts the server only when its leaf certificate equals the central-server
  TLS certificate held in global configuration. It has four distinct refusal reasons. The trust manager
  used towards the proxy accepts everything. The proxy key manager always chooses the alias
  `MgmtAuthKeyManager` and serves the internal TLS key. Each anonymous Java object is stateless, so each
  of its methods is a function. The global-configuration lookup is an input of type
  `Result<Option<Cert>, Exception>`, so that "throws" and "returns null" are both explicit. The
  internal-key load is an input of type `Result<InternalSslKey, Exception>`: it either throws or yields
  a key whose certificate and private key are both present. Certificates are values identified by
  their DER encoding, which is what Java's `Certificate.equals` compares.
- **WSDL merger** (`wsdls_merger.dfy`, module `WsdlMerge`). The service mediator turns a client's
  adapter WSDL URLs into one WSDL stream. No URLs (or a null list) gives the coded error
  `X_ADAPTER_WSDL_NOT_FOUND`. One URL gives that WSDL back unchanged. Several URLs are fetched in order,
  and the streams plus the client's short name go to the stream merger. The merger is a class. Its
  `mergedWsdlAsStream` field is assigned by the imperative methods `SendWsdlBackUnchanged` and
  `MergeMultipleWsdls`, to which `MergeWsdls` dispatches. `MergeWsdls` is proved against the
  specification functions `MergedWsdl` and `RequestedUrls`. `MergeMultipleWsdls` is proved against
  `MergedMultiple` and `Requested`, and its loop invariant ties the streams it has fetched to `FetchAll`.
  `SendWsdlBackUnchanged` is stated directly: the field gets the provider's answer for the first URL,
  or that answer's exception propagates, and the log grows by that one URL. The WSDL provider is an object with
  a ghost log of the URLs it is asked for. That log is how the call count and call order are stated.
  The provider's answers, the identifier mapping and the stream merger are arbitrary functions.

`wrappers.dfy` holds `Option` (a Java reference that may be null), `Result` (a call that returns or
throws) and `Outcome` (a void call that returns or throws).

## Model

| member | source | states |
|---|---|---|
| ManagementRequestClient.CentralCheckServerTrusted | xtee6/common-ui/src/main/java/ee/cyber/sdsb/common/request/ManagementRequestClient.java:108-135 | the central server is accepted exactly when the chain is non-empty, the global-conf lookup succeeds, a certificate is configured, and it equals `chain[0]` |
| ManagementRequestClient.EmptyChainRejected | xtee6/common-ui/src/main/java/ee/cyber/sdsb/common/request/ManagementRequestClient.java:110-113 | an empty chain is refused as "did not send SSL certificate", and the answer is the same whatever global configuration would return (it is not consulted) |
| ManagementRequestClient.LookupFailureRejected | xtee6/common-ui/src/main/java/ee/cyber/sdsb/common/request/ManagementRequestClient.java:115-122 | a non-empty chain with a throwing global-conf lookup is refused as "could not get", wrapping the lookup's cause |
| ManagementRequestClient.MissingCertRejected | xtee6/common-ui/src/main/java/ee/cyber/sdsb/common/request/ManagementRequestClient.java:124-128 | a non-empty chain with no configured certificate (null) is refused as "not in global conf" |
| ManagementRequestClient.MismatchRejected | xtee6/common-ui/src/main/java/ee/cyber/sdsb/common/request/ManagementRequestClient.java:130-134 | a non-empty chain whose first certificate differs from the configured one is refused as "does not match" |
| ManagementRequestClient.OnlyLeafInspected | xtee6/common-ui/src/main/java/ee/cyber/sdsb/common/request/ManagementRequestClient.java:130-134 | chains with the same first certificate get the same answer: later certificates and the auth type are never inspected |
| ManagementRequestClient.RejectionReason | xtee6/common-ui/src/main/java/ee/cyber/sdsb/common/request/ManagementRequestClient.java:108-135 | each refusal carries the reason of the first guard that fails, and each reason holds exactly when its guard is the first to fail |
| ManagementRequestClient.MessageIdentifiesReason | xtee6/common-ui/src/main/java/ee/cyber/sdsb/common/request/ManagementRequestClient.java:110-134 | the four CertificateException messages are pairwise distinct, so the message tells the reason |
| ManagementRequestClient.CentralCheckClientTrusted | xtee6/common-ui/src/main/java/ee/cyber/sdsb/common/request/ManagementRequestClient.java:102-105 | the central trust manager accepts every client chain |
| ManagementRequestClient.CentralGetAcceptedIssuers | xtee6/common-ui/src/main/java/ee/cyber/sdsb/common/request/ManagementRequestClient.java:137-140 | the central trust manager advertises no accepted issuers (null) |
| ManagementRequestClient.ProxyCheckClientTrusted | xtee6/common-ui/src/main/java/ee/cyber/sdsb/common/request/ManagementRequestClient.java:150-153 | the proxy trust manager accepts every client chain |
| ManagementRequestClient.ProxyCheckServerTrusted | xtee6/common-ui/src/main/java/ee/cyber/sdsb/common/request/ManagementRequestClient.java:154-158 | the proxy trust manager accepts every server chain, the empty one included |
| ManagementRequestClient.ProxyGetAcceptedIssuers | xtee6/common-ui/src/main/java/ee/cyber/sdsb/common/request/ManagementRequestClient.java:159-162 | the proxy trust manager advertises no accepted issuers (null) |
| ManagementRequestClient.ProxyTrustsWhatCentralTrusts | xtee6/common-ui/src/main/java/ee/cyber/sdsb/common/request/ManagementRequestClient.java:101-163 | every server chain the central check accepts is accepted by the proxy check, and the empty chain is accepted only by the proxy |
| ManagementRequestClient.ChooseClientAlias | xtee6/common-ui/src/main/java/ee/cyber/sdsb/common/request/ManagementRequestClient.java:167-173 | the chosen client alias is always `MgmtAuthKeyManager` |
| ManagementRequestClient.ChooseServerAlias | xtee6/common-ui/src/main/java/ee/cyber/sdsb/common/request/ManagementRequestClient.java:175-179 | the chosen server alias is always `MgmtAuthKeyManager` |
| ManagementRequestClient.ChooseEngineClientAlias | xtee6/common-ui/src/main/java/ee/cyber/sdsb/common/request/ManagementRequestClient.java:214-218 | the chosen engine client alias is always `MgmtAuthKeyManager` |
| ManagementRequestClient.ChooseEngineServerAlias | xtee6/common-ui/src/main/java/ee/cyber/sdsb/common/request/ManagementRequestClient.java:220-224 | the chosen engine server alias is always `MgmtAuthKeyManager` |
| ManagementRequestClient.AliasIgnoresArguments | xtee6/common-ui/src/main/java/ee/cyber/sdsb/common/request/ManagementRequestClient.java:167-224 | all four choose methods return the same constant alias for any arguments; the chain and the key looked up do not depend on the alias |
| ManagementRequestClient.GetClientAliases | xtee6/common-ui/src/main/java/ee/cyber/sdsb/common/request/ManagementRequestClient.java:192-196 | no client aliases are listed (null) |
| ManagementRequestClient.GetServerAliases | xtee6/common-ui/src/main/java/ee/cyber/sdsb/common/request/ManagementRequestClient.java:208-212 | no server aliases are listed (null) |
| ManagementRequestClient.GetCertificateChain | xtee6/common-ui/src/main/java/ee/cyber/sdsb/common/request/ManagementRequestClient.java:181-190 | the chain has at most one element; it is empty exactly when loading the internal key throws, and otherwise holds the internal key's certificate |
| ManagementRequestClient.GetPrivateKey | xtee6/common-ui/src/main/java/ee/cyber/sdsb/common/request/ManagementRequestClient.java:198-206 | the key is null exactly when loading the internal key throws, and otherwise is the internal key's private key |
| ManagementRequestClient.KeyAndChainAgree | xtee6/common-ui/src/main/java/ee/cyber/sdsb/common/request/ManagementRequestClient.java:181-206 | for one load outcome, the chain and the key are both present or both missing; when present they are the certificate and key of the same internal key |
| WsdlMerge.FetchAllPointwise | xtee55/servicemediator/src/main/java/ee/cyber/xroad/mediator/service/wsdlmerge/merger/WSDLsMerger.java:67-71 | fetching succeeds exactly when every URL can be fetched; then the stream list has one entry per URL in URL order, and every URL is requested once, in order |
| WsdlMerge.FetchAllFirstFailure | xtee55/servicemediator/src/main/java/ee/cyber/xroad/mediator/service/wsdlmerge/merger/WSDLsMerger.java:69-71 | a failed fetch passes on the exception of the first URL that throws; the provider was asked for exactly the URLs up to and including that one |
| WsdlMerge.FailedPrefixDecides | xtee55/servicemediator/src/main/java/ee/cyber/xroad/mediator/service/wsdlmerge/merger/WSDLsMerger.java:69-71 | once a prefix of the URLs fails, the rest of the list changes neither the exception nor the URLs requested |
| WsdlMerge.NoUrlsRejected | xtee55/servicemediator/src/main/java/ee/cyber/xroad/mediator/service/wsdlmerge/merger/WSDLsMerger.java:46-50 | a null or empty URL list gives the coded error `X_ADAPTER_WSDL_NOT_FOUND` for the client, and no WSDL is fetched |
| WsdlMerge.SingleUrlPassedThrough | xtee55/servicemediator/src/main/java/ee/cyber/xroad/mediator/service/wsdlmerge/merger/WSDLsMerger.java:52-63 | with one URL the result is the provider's answer for it, unchanged; the provider is asked once; the identifier mapping and stream merger have no influence |
| WsdlMerge.SeveralUrlsMerged | xtee55/servicemediator/src/main/java/ee/cyber/xroad/mediator/service/wsdlmerge/merger/WSDLsMerger.java:65-77 | with two or more fetchable URLs, each is requested once in list order, and the result is the stream merger applied to the streams in URL order and the client's short name |
| WsdlMerge.SeveralUrlsFirstFailure | xtee55/servicemediator/src/main/java/ee/cyber/xroad/mediator/service/wsdlmerge/merger/WSDLsMerger.java:65-71 | with two or more URLs, the first provider exception propagates unchanged, the merger is not consulted, and no later URL is requested |
| WsdlMerge.WsdlsMerger.Init | xtee55/servicemediator/src/main/java/ee/cyber/xroad/mediator/service/wsdlmerge/merger/WSDLsMerger.java:34-41 | the constructor stores the URL list, the provider and the client; no stream is set yet |
| WsdlMerge.WsdlsMerger.Create | xtee55/servicemediator/src/main/java/ee/cyber/xroad/mediator/service/wsdlmerge/merger/WSDLsMerger.java:34-43 | construction succeeds exactly when the merge does; the new object then has `mergedWsdlAsStream` set to the merged WSDL, and otherwise the merge's exception comes out of construction |
| WsdlMerge.WsdlsMerger.MergeWsdls | xtee55/servicemediator/src/main/java/ee/cyber/xroad/mediator/service/wsdlmerge/merger/WSDLsMerger.java:45-58 | the three-way split delivers `MergedWsdl` through `mergedWsdlAsStream` (left unchanged on failure) and asks the provider for exactly `RequestedUrls` |
| WsdlMerge.WsdlsMerger.SendWsdlBackUnchanged | xtee55/servicemediator/src/main/java/ee/cyber/xroad/mediator/service/wsdlmerge/merger/WSDLsMerger.java:60-63 | the field is set to the provider's answer for the first URL, or the provider's exception propagates; the provider is asked once |
| WsdlMerge.WsdlsMerger.MergeMultipleWsdls | xtee55/servicemediator/src/main/java/ee/cyber/xroad/mediator/service/wsdlmerge/merger/WSDLsMerger.java:65-77 | the loop fetches in list order and stops at the first exception; the field is set to the merger's result on the fetched streams and the client's short name |

## Left out

- The TLS listener's anti-DoS admission control (`AntiDosSslConnector`) is not modelled. Its connection bookkeeping and eviction live in `AntiDosConnectorDelegate`, which is not part of this model. The connector only forwards Jetty callbacks and closes the server channel on error, which is I/O and concurrency.
- `createHttpClient`, the `SSLContext` setup, connection pooling, timeouts, the singleton, `start`/`stop`/`join`: library configuration and I/O. The trust and key managers are modelled on their own.
- `GlobalConf.getCentralServerSslCertificate` and `InternalSSLKey.load` are inputs, not modelled code. The Java key manager loads the internal key separately in `getCertificateChain` and in `getPrivateKey`. `ManagementRequestClient.KeyAndChainAgree` is stated for a single load outcome, so it does not cover the key store changing between the two loads.
- ManagementRequestClient.GetCertificateChain: a null `InternalSSLKey.load()` (a NullPointerException that the catch turns into the empty chain) is encoded as a `Failure` of the load, which gives the same answer. A loaded key whose certificate is null cannot be expressed. In Java it yields a one-element chain holding null.
- ManagementRequestClient.GetPrivateKey: a null load is encoded as a `Failure`, as for the chain. A loaded key whose private key is null cannot be expressed. In Java it yields a null key without any exception. For such a key, "null exactly when loading throws" and `ManagementRequestClient.KeyAndChainAgree`'s "both present or both missing" would not hold.
- ManagementRequestClient.LookupFailureRejected: `Exception` means `java.lang.Exception`, which is what the catches of `checkServerTrusted`, `getCertificateChain` and `getPrivateKey` handle. A `java.lang.Error` thrown by global configuration or by the key store escapes those catches unwrapped. Errors are not modelled.
- Null arguments: a null chain passed to `checkServerTrusted` (a NullPointerException in Java) and null array arguments of the key manager are not modelled. The key manager ignores its array arguments anyway.
- ManagementRequestClient.CentralCheckServerTrusted: a chain is a sequence of certificate values, so a null `chain[0]` cannot be expressed. In Java that case is refused as "does not match", because `equals(null)` is false. The model does not cover it.
- The text of the coded exception (which names the client) and the string value of `X_ADAPTER_WSDL_NOT_FOUND` are not modelled. `ErrorCodes` is not part of this model, so the error carries only the code and the client.
- WsdlMerge.WsdlsMerger.Create: the provider's answer and the stream merger's result are `Result<Stream, Exception>`, so neither can be null. In Java a null from `getWsdl` or `getMergedWsdlAsStream` is stored and construction still succeeds with a null field. The promise that a constructed merger has `mergedWsdlAsStream` set therefore holds only for non-null answers.
- WsdlMerge.WsdlsMerger.MergeMultipleWsdls: the provider answers as a fixed function of the URL. A URL listed twice therefore gets the same answer both times: it cannot succeed on its first request and fail on its second, and the two streams are equal values. Transient network failures and a fresh stream per call are not modelled.
- `WSDLProvider`, `WSDLStreamsMerger` and `IdentifierMapping` are not part of this model. The provider's answers and the stream merger are arbitrary functions that may throw. The identifier mapping is an arbitrary total function, so the model does not cover it throwing or returning null.
- Logging throughout.
