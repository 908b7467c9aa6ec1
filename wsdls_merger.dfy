/** The service mediator's WSDL merger: given the adapter WSDL URLs of a
    client, it yields one WSDL stream, either the only WSDL unchanged or the
    merge of all of them. The WSDL provider, the stream merger and the
    identifier mapping are collaborators whose behaviour is left open: the
    provider is an object whose answers are an arbitrary function of the URL,
    and the other two are arbitrary functions. */
module WsdlMerge {
  import opened Wrappers

  type Url = string

  /** An input stream holding a WSDL document. */
  type Stream

  /** The identifier of the client whose WSDLs are merged. */
  type ClientId

  /** Whatever a collaborator throws. */
  type Exception

  /** Error codes of the coded exceptions this component raises. */
  datatype ErrorCode = X_ADAPTER_WSDL_NOT_FOUND

  /** What the merge throws: its own coded exception, or a collaborator's
      exception passed on unchanged. */
  datatype MergeError =
    | Coded(code: ErrorCode, client: ClientId)
    | Propagated(cause: Exception)

  /** The collaborators read while merging several WSDLs: the identifier
      mapping's short (v5 database) name of a client, and the stream merger,
      which may throw. */
  datatype Collaborators = Collaborators(
    shortName: ClientId -> string,
    mergeStreams: (seq<Stream>, string) -> Result<Stream, Exception>)

  /** The WSDL provider. `requested` logs every URL it is asked for, in order. */
  class WsdlProvider {
    const fetch: Url -> Result<Stream, Exception>
    ghost var requested: seq<Url>

    constructor (fetch: Url -> Result<Stream, Exception>)
      ensures this.fetch == fetch && requested == []
    {
      this.fetch := fetch;
      requested := [];
    }

    method GetWsdl(url: Url) returns (r: Result<Stream, Exception>)
      modifies this
      ensures r == fetch(url)
      ensures requested == old(requested) + [url]
    {
      r := fetch(url);
      requested := requested + [url];
    }
  }

  // -- Specification ---------------------------------------------------------

  /** Fetching every URL in list order, stopping at the first that throws. */
  function FetchAll(urls: seq<Url>, fetch: Url -> Result<Stream, Exception>): (r: Result<seq<Stream>, Exception>)
  {
    if urls == [] then Success([])
    else
      match FetchAll(urls[..|urls| - 1], fetch)
      case Failure(e) => Failure(e)
      case Success(streams) =>
        match fetch(urls[|urls| - 1])
        case Failure(e) => Failure(e)
        case Success(s) => Success(streams + [s])
  }

  /** The URLs the provider is asked for while fetching `urls`: all of them,
      or those up to and including the first that throws. */
  function Requested(urls: seq<Url>, fetch: Url -> Result<Stream, Exception>): (r: seq<Url>)
  {
    if urls == [] then []
    else if FetchAll(urls[..|urls| - 1], fetch).Failure? then Requested(urls[..|urls| - 1], fetch)
    else urls
  }

  /** The result of merging several WSDLs. */
  function MergedMultiple(urls: seq<Url>, client: ClientId, fetch: Url -> Result<Stream, Exception>, env: Collaborators): (r: Result<Stream, MergeError>)
  {
    match FetchAll(urls, fetch)
    case Failure(e) => Failure(Propagated(e))
    case Success(streams) =>
      match env.mergeStreams(streams, env.shortName(client))
      case Failure(e) => Failure(Propagated(e))
      case Success(merged) => Success(merged)
  }

  /** The merged WSDL for a (possibly null) list of URLs, or what is thrown. */
  function MergedWsdl(urls: Option<seq<Url>>, client: ClientId, fetch: Url -> Result<Stream, Exception>, env: Collaborators): (r: Result<Stream, MergeError>)
  {
    if urls.None? || urls.value == [] then Failure(Coded(X_ADAPTER_WSDL_NOT_FOUND, client))
    else if |urls.value| == 1 then
      match fetch(urls.value[0])
      case Failure(e) => Failure(Propagated(e))
      case Success(s) => Success(s)
    else MergedMultiple(urls.value, client, fetch, env)
  }

  /** The URLs the provider is asked for while merging. */
  function RequestedUrls(urls: Option<seq<Url>>, fetch: Url -> Result<Stream, Exception>): (r: seq<Url>)
  {
    if urls.None? then [] else Requested(urls.value, fetch)
  }

  /** A void step that delivers `spec` through the field it assigns: on
      success the field holds the stream, on failure the step throws the
      error and the field keeps its value. */
  ghost predicate Delivers(outcome: Outcome<MergeError>, field: Option<Stream>, before: Option<Stream>, spec: Result<Stream, MergeError>)
  {
    match spec
    case Success(s) => outcome == Pass && field == Some(s)
    case Failure(e) => outcome == Fail(e) && field == before
  }

  // -- Properties of the specification ---------------------------------------

  /** Fetching succeeds exactly when every URL can be fetched, and then yields
      one stream per URL, in the order of the URLs; every URL is requested. */
  lemma {:induction false} FetchAllPointwise(urls: seq<Url>, fetch: Url -> Result<Stream, Exception>)
    ensures FetchAll(urls, fetch).Success? <==> forall k :: 0 <= k < |urls| ==> fetch(urls[k]).Success?
    ensures FetchAll(urls, fetch).Success? ==>
      var streams := FetchAll(urls, fetch).value;
      |streams| == |urls| &&
      (forall k :: 0 <= k < |urls| ==> fetch(urls[k]) == Success(streams[k])) &&
      Requested(urls, fetch) == urls
  {
    if urls != [] {
      var init := urls[..|urls| - 1];
      FetchAllPointwise(init, fetch);
      assert forall k :: 0 <= k < |init| ==> init[k] == urls[k];
    }
  }

  /** When fetching fails, the provider was asked for the URLs up to and
      including the first that throws, and that URL's exception is the one
      passed on. */
  lemma {:induction false} FetchAllFirstFailure(urls: seq<Url>, fetch: Url -> Result<Stream, Exception>)
    requires FetchAll(urls, fetch).Failure?
    ensures var k := |Requested(urls, fetch)| - 1;
      0 <= k < |urls| &&
      Requested(urls, fetch) == urls[..k + 1] &&
      (forall j :: 0 <= j < k ==> fetch(urls[j]).Success?) &&
      fetch(urls[k]) == Failure(FetchAll(urls, fetch).error)
  {
    var init := urls[..|urls| - 1];
    if FetchAll(init, fetch).Failure? {
      FetchAllFirstFailure(init, fetch);
      var k := |Requested(init, fetch)| - 1;
      assert urls[..k + 1] == init[..k + 1];
    } else {
      FetchAllPointwise(init, fetch);
      assert urls[..|urls|] == urls;
    }
  }

  /** A prefix that already fails decides the whole list: the same
      exception, and no URL after it is requested. */
  lemma {:induction false} FailedPrefixDecides(urls: seq<Url>, n: nat, fetch: Url -> Result<Stream, Exception>)
    requires n <= |urls| && FetchAll(urls[..n], fetch).Failure?
    ensures FetchAll(urls, fetch) == FetchAll(urls[..n], fetch)
    ensures Requested(urls, fetch) == Requested(urls[..n], fetch)
    decreases |urls| - n
  {
    if n < |urls| {
      var init := urls[..|urls| - 1];
      assert init[..n] == urls[..n];
      FailedPrefixDecides(init, n, fetch);
    } else {
      assert urls[..n] == urls;
    }
  }

  /** With no URLs, or a null list, the coded error is thrown and nothing is
      fetched. */
  lemma NoUrlsRejected(urls: Option<seq<Url>>, client: ClientId, fetch: Url -> Result<Stream, Exception>, env: Collaborators)
    requires urls.None? || urls.value == []
    ensures MergedWsdl(urls, client, fetch, env) == Failure(Coded(X_ADAPTER_WSDL_NOT_FOUND, client))
    ensures RequestedUrls(urls, fetch) == []
  {
  }

  /** With one URL, its WSDL is passed back as the provider returned it, the
      provider is asked once, and neither the identifier mapping nor the
      stream merger has any say. */
  lemma SingleUrlPassedThrough(url: Url, client: ClientId, fetch: Url -> Result<Stream, Exception>, env1: Collaborators, env2: Collaborators)
    ensures MergedWsdl(Some([url]), client, fetch, env1) ==
      match fetch(url)
      case Success(s) => Success(s)
      case Failure(e) => Failure(Propagated(e))
    ensures MergedWsdl(Some([url]), client, fetch, env1) == MergedWsdl(Some([url]), client, fetch, env2)
    ensures RequestedUrls(Some([url]), fetch) == [url]
  {
  }

  /** With several URLs that can all be fetched, each is requested once in
      list order, and the result is what the stream merger makes of the
      streams, in URL order, and the client's short name. */
  lemma SeveralUrlsMerged(urls: seq<Url>, client: ClientId, fetch: Url -> Result<Stream, Exception>, env: Collaborators)
    requires |urls| >= 2
    requires forall k :: 0 <= k < |urls| ==> fetch(urls[k]).Success?
    ensures RequestedUrls(Some(urls), fetch) == urls
    ensures
      var streams := seq(|urls|, k requires 0 <= k < |urls| && fetch(urls[k]).Success? => fetch(urls[k]).value);
      MergedWsdl(Some(urls), client, fetch, env) ==
        match env.mergeStreams(streams, env.shortName(client))
        case Success(m) => Success(m)
        case Failure(e) => Failure(Propagated(e))
  {
    FetchAllPointwise(urls, fetch);
    var streams := seq(|urls|, k requires 0 <= k < |urls| && fetch(urls[k]).Success? => fetch(urls[k]).value);
    assert FetchAll(urls, fetch).value == streams;
  }

  /** With several URLs of which one throws, the first such exception is
      passed on, the merger is not consulted, and no later URL is requested. */
  lemma SeveralUrlsFirstFailure(urls: seq<Url>, k: nat, client: ClientId, fetch: Url -> Result<Stream, Exception>, env: Collaborators)
    requires |urls| >= 2 && k < |urls|
    requires forall j :: 0 <= j < k ==> fetch(urls[j]).Success?
    requires fetch(urls[k]).Failure?
    ensures MergedWsdl(Some(urls), client, fetch, env) == Failure(Propagated(fetch(urls[k]).error))
    ensures RequestedUrls(Some(urls), fetch) == urls[..k + 1]
  {
    var prefix := urls[..k + 1];
    assert prefix[..k] == urls[..k];
    assert forall j :: 0 <= j < k ==> prefix[..k][j] == urls[j];
    FetchAllPointwise(prefix[..k], fetch);
    FailedPrefixDecides(urls, k + 1, fetch);
    assert Requested(prefix, fetch) == prefix;
  }

  // -- The merger object -----------------------------------------------------

  class WsdlsMerger {
    const wsdlUrls: Option<seq<Url>>
    const wsdlProvider: WsdlProvider
    const client: ClientId
    var mergedWsdlAsStream: Option<Stream>

    /** Stores the arguments; the merge itself is run by Create. */
    constructor Init(wsdlUrls: Option<seq<Url>>, wsdlProvider: WsdlProvider, client: ClientId)
      ensures this.wsdlUrls == wsdlUrls && this.wsdlProvider == wsdlProvider && this.client == client
      ensures mergedWsdlAsStream == None
    {
      this.wsdlUrls := wsdlUrls;
      this.wsdlProvider := wsdlProvider;
      this.client := client;
      mergedWsdlAsStream := None;
    }

    /** Constructing a merger: store the arguments, then merge. A merger is
        returned only when the merge succeeds, and then its stream is set;
        otherwise what the merge throws comes out of construction. */
    static method Create(wsdlUrls: Option<seq<Url>>, wsdlProvider: WsdlProvider, client: ClientId, env: Collaborators)
      returns (r: Result<WsdlsMerger, MergeError>)
      modifies wsdlProvider
      ensures var spec := MergedWsdl(wsdlUrls, client, wsdlProvider.fetch, env);
        (r.Success? <==> spec.Success?) &&
        (r.Success? ==>
          fresh(r.value) &&
          r.value.wsdlUrls == wsdlUrls && r.value.wsdlProvider == wsdlProvider && r.value.client == client &&
          r.value.mergedWsdlAsStream == Some(spec.value)) &&
        (r.Failure? ==> r.error == spec.error)
      ensures wsdlProvider.requested == old(wsdlProvider.requested) + RequestedUrls(wsdlUrls, wsdlProvider.fetch)
    {
      var merger := new WsdlsMerger.Init(wsdlUrls, wsdlProvider, client);
      var outcome := merger.MergeWsdls(env);
      match outcome
      case Pass => r := Success(merger);
      case Fail(e) => r := Failure(e);
    }

    /** The three-way split on the number of URLs. */
    method MergeWsdls(env: Collaborators) returns (outcome: Outcome<MergeError>)
      modifies this`mergedWsdlAsStream, wsdlProvider
      ensures Delivers(outcome, mergedWsdlAsStream, old(mergedWsdlAsStream), MergedWsdl(wsdlUrls, client, wsdlProvider.fetch, env))
      ensures wsdlProvider.requested == old(wsdlProvider.requested) + RequestedUrls(wsdlUrls, wsdlProvider.fetch)
    {
      if wsdlUrls.None? || |wsdlUrls.value| == 0 {
        return Fail(Coded(X_ADAPTER_WSDL_NOT_FOUND, client));
      }
      if |wsdlUrls.value| == 1 {
        outcome := SendWsdlBackUnchanged();
        return;
      }
      outcome := MergeMultipleWsdls(env);
    }

    /** The first WSDL, as the provider returns it. */
    method SendWsdlBackUnchanged() returns (outcome: Outcome<MergeError>)
      requires wsdlUrls.Some? && |wsdlUrls.value| > 0
      modifies this`mergedWsdlAsStream, wsdlProvider
      ensures Delivers(outcome, mergedWsdlAsStream, old(mergedWsdlAsStream),
        match wsdlProvider.fetch(wsdlUrls.value[0])
        case Success(s) => Success(s)
        case Failure(e) => Failure(Propagated(e)))
      ensures wsdlProvider.requested == old(wsdlProvider.requested) + [wsdlUrls.value[0]]
    {
      var wsdl := wsdlProvider.GetWsdl(wsdlUrls.value[0]);
      match wsdl
      case Failure(e) => outcome := Fail(Propagated(e));
      case Success(s) =>
        mergedWsdlAsStream := Some(s);
        outcome := Pass;
    }

    /** Fetches every WSDL in list order, then hands the streams and the
        client's short name to the stream merger. */
    method MergeMultipleWsdls(env: Collaborators) returns (outcome: Outcome<MergeError>)
      requires wsdlUrls.Some?
      modifies this`mergedWsdlAsStream, wsdlProvider
      ensures Delivers(outcome, mergedWsdlAsStream, old(mergedWsdlAsStream), MergedMultiple(wsdlUrls.value, client, wsdlProvider.fetch, env))
      ensures wsdlProvider.requested == old(wsdlProvider.requested) + Requested(wsdlUrls.value, wsdlProvider.fetch)
    {
      var urls := wsdlUrls.value;
      var wsdlInputStreams: seq<Stream> := [];
      var i := 0;
      while i < |urls|
        modifies wsdlProvider
        invariant 0 <= i <= |urls|
        invariant FetchAll(urls[..i], wsdlProvider.fetch) == Success(wsdlInputStreams)
        invariant wsdlProvider.requested == old(wsdlProvider.requested) + urls[..i]
      {
        var wsdl := wsdlProvider.GetWsdl(urls[i]);
        assert urls[..i + 1][..i] == urls[..i];
        if wsdl.Failure? {
          FailedPrefixDecides(urls, i + 1, wsdlProvider.fetch);
          return Fail(Propagated(wsdl.error));
        }
        wsdlInputStreams := wsdlInputStreams + [wsdl.value];
        i := i + 1;
      }
      assert urls[..i] == urls;
      var v5DbName := env.shortName(client);
      var merged := env.mergeStreams(wsdlInputStreams, v5DbName);
      match merged
      case Failure(e) => outcome := Fail(Propagated(e));
      case Success(m) =>
        mergedWsdlAsStream := Some(m);
        outcome := Pass;
    }
  }
}
