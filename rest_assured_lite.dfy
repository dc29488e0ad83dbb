/** The fluent request builder (`RestAssuredLite`). Its setters stage
    configuration in the owned `RequestModel`; only basic authentication goes
    straight to the client. `BuildRequest` copies the staged URL, headers and
    content type to the client in that order, defaulting the content type to
    JSON. */
module Lite {
  import opened Wrappers
  import opened Http
  import opened Headers
  import opened Request
  import opened Transport

  /** The exception a Java call can end in here. */
  datatype Fault = NullPointerException

  /** The response record: rendered body, transport error text and status code.
      The raw client response it also carries is not modelled. */
  datatype ResponseModel = ResponseModel(body: string, error: Option<string>, statusCode: int)

  /** The content type `BuildRequest` applies: the stored one, or JSON when none is set. */
  function Resolve(contentType: Option<ContentType>): ContentType {
    contentType.GetOr(JSON)
  }

  /** The staged configuration after `BuildRequest`: the content type is filled in. */
  function AfterBuild(s: Staged): Staged {
    s.(contentType := Some(Resolve(s.contentType)))
  }

  /** The header calls `BuildRequest` makes, in the map's iteration order. */
  function HeaderCalls(h: seq<Header>): seq<Call> {
    if h == [] then [] else HeaderCalls(h[..|h| - 1]) + [HeaderAdded(h[|h| - 1].0, h[|h| - 1].1)]
  }

  /** Everything `BuildRequest` applies to the client, in order. */
  function BuildCalls(s: Staged): seq<Call> {
    [BaseUriSet(s.baseUri), BasePathSet(s.basePath)]
    + HeaderCalls(s.headers)
    + [ContentTypeSet(Resolve(s.contentType))]
  }

  /** One header call per map entry, in the map's order. */
  lemma {:induction false} HeaderCallsOnePerEntry(h: seq<Header>)
    ensures |HeaderCalls(h)| == |h|
    ensures forall i :: 0 <= i < |h| ==> HeaderCalls(h)[i] == HeaderAdded(h[i].0, h[i].1)
  {
    if h != [] {
      var init := h[..|h| - 1];
      HeaderCallsOnePerEntry(init);
      forall i | 0 <= i < |h| - 1
        ensures HeaderCalls(h)[i] == HeaderAdded(h[i].0, h[i].1)
      {
        assert HeaderCalls(h)[i] == HeaderCalls(init)[i];
        assert init[i] == h[i];
      }
    }
  }

  /** The shape of a build: URL first (base URI then base path, exactly as
      stored), then one call per header entry, then the resolved content type;
      never credentials or a request. */
  lemma BuildCallsShape(s: Staged)
    ensures |BuildCalls(s)| == |s.headers| + 3
    ensures BuildCalls(s)[0] == BaseUriSet(s.baseUri)
    ensures BuildCalls(s)[1] == BasePathSet(s.basePath)
    ensures forall i :: 0 <= i < |s.headers| ==>
      BuildCalls(s)[i + 2] == HeaderAdded(s.headers[i].0, s.headers[i].1)
    ensures BuildCalls(s)[|s.headers| + 2] ==
      ContentTypeSet(if s.contentType.None? then JSON else s.contentType.value)
    ensures forall c :: c in BuildCalls(s) ==> !c.BasicAuthSet? && !c.RequestSent?
  {
    HeaderCallsOnePerEntry(s.headers);
    var calls := BuildCalls(s);
    forall c | c in calls ensures !c.BasicAuthSet? && !c.RequestSent? {
      var k :| 0 <= k < |calls| && calls[k] == c;
      if 2 <= k < |s.headers| + 2 {
        assert calls[k] == HeaderCalls(s.headers)[k - 2];
      }
    }
  }

  /** Because the map's names are unique, the header calls of a build name
      pairwise different headers, so the order they are applied in cannot make
      one overwrite another. */
  lemma BuildHeaderNamesDistinct(s: Staged)
    requires UniqueNames(s.headers)
    ensures forall i, j :: 0 <= i < j < |BuildCalls(s)| && BuildCalls(s)[i].HeaderAdded? && BuildCalls(s)[j].HeaderAdded? ==>
                           BuildCalls(s)[i].name != BuildCalls(s)[j].name
  {
    BuildCallsShape(s);
    var calls := BuildCalls(s);
    forall i, j | 0 <= i < j < |calls| && calls[i].HeaderAdded? && calls[j].HeaderAdded?
      ensures calls[i].name != calls[j].name
    {
      assert 2 <= i && j < |s.headers| + 2;
      assert calls[i].name == s.headers[i - 2].0;
      assert calls[j].name == s.headers[j - 2].0;
    }
  }

  /** A second build changes nothing in the model and re-applies the same calls. */
  lemma BuildIdempotent(s: Staged)
    ensures AfterBuild(AfterBuild(s)) == AfterBuild(s)
    ensures BuildCalls(AfterBuild(s)) == BuildCalls(s)
  {
  }

  /** The builder always uses one default: with no content type staged, JSON is
      both written back and applied; a staged one is applied unchanged. */
  lemma DefaultContentType(s: Staged)
    ensures s.contentType.None? ==>
      AfterBuild(s).contentType == Some(JSON) && BuildCalls(s)[|BuildCalls(s)| - 1] == ContentTypeSet(JSON)
    ensures s.contentType.Some? ==>
      AfterBuild(s) == s && BuildCalls(s)[|BuildCalls(s)| - 1] == ContentTypeSet(s.contentType.value)
  {
    BuildCallsShape(s);
  }

  /** A later `addHeaders` wins over an earlier `addHeader` on the same name. */
  lemma AddHeadersOverridesAddHeader(h: seq<Header>, name: string, value: string, m: seq<Header>)
    requires UniqueNames(m) && HasName(m, name)
    ensures Get(PutAll(Put(h, name, value), m), name) == Get(m, name)
  {
  }

  class RestAssuredLite {
    const requestModel: RequestModel
    const client: Client
    var responseModel: Option<ResponseModel>

    ghost predicate Valid()
      reads this, requestModel
    {
      requestModel.Valid()
    }

    /** `new RestAssuredLite(log)`: a fresh client (logging everything when
        `log`), a fresh request model, and no response model. */
    constructor (log: bool)
      ensures Valid()
      ensures fresh(requestModel) && fresh(client)
      ensures client.logAll == log && client.trace == []
      ensures requestModel.State() == Fresh
      ensures responseModel == None
    {
      client := new Client(log);
      requestModel := new RequestModel();
      responseModel := None;
    }

    // ---- staged setters: each changes one field of the request model and returns this

    method SetBaseUri(baseUri: Option<string>) returns (self: RestAssuredLite)
      requires Valid()
      modifies requestModel
      ensures Valid() && self == this
      ensures requestModel.State() == old(requestModel.State()).(baseUri := baseUri)
    {
      requestModel.SetBaseUri(baseUri);
      self := this;
    }

    method AppendToBaseUri(uri: Option<string>) returns (self: RestAssuredLite)
      requires Valid()
      modifies requestModel
      ensures Valid() && self == this
      ensures old(requestModel.baseUri).Some? && uri.Some? ==>
        requestModel.baseUri == Some(old(requestModel.baseUri).value + uri.value)
      ensures requestModel.State() == old(requestModel.State()).(baseUri := Some(Concat(old(requestModel.baseUri), uri)))
    {
      requestModel.AppendBaseUri(uri);
      self := this;
    }

    method SetBasePath(basePath: Option<string>) returns (self: RestAssuredLite)
      requires Valid()
      modifies requestModel
      ensures Valid() && self == this
      ensures requestModel.State() == old(requestModel.State()).(basePath := basePath)
    {
      requestModel.SetBasePath(basePath);
      self := this;
    }

    method AppendToBasePath(path: Option<string>) returns (self: RestAssuredLite)
      requires Valid()
      modifies requestModel
      ensures Valid() && self == this
      ensures old(requestModel.basePath).Some? && path.Some? ==>
        requestModel.basePath == Some(old(requestModel.basePath).value + path.value)
      ensures requestModel.State() == old(requestModel.State()).(basePath := Some(Concat(old(requestModel.basePath), path)))
    {
      requestModel.AppendBasePath(path);
      self := this;
    }

    /** `headers.put(name, value)`: `name` now maps to `value` and every other
        name keeps its value (entry order: see `Put`). */
    method AddHeader(name: string, value: string) returns (self: RestAssuredLite)
      requires Valid()
      modifies requestModel
      ensures Valid() && self == this
      ensures Get(requestModel.headers, name) == Some(value)
      ensures forall other :: other != name ==> Get(requestModel.headers, other) == Get(old(requestModel.headers), other)
      ensures requestModel.State() == old(requestModel.State()).(headers := Put(old(requestModel.headers), name, value))
    {
      PutGet(requestModel.headers, name, value);
      PutUnique(requestModel.headers, name, value);
      requestModel.headers := Put(requestModel.headers, name, value);
      self := this;
    }

    /** `headers.putAll(headers)`: the old map overridden by the argument. */
    method AddHeaders(headers: seq<Header>) returns (self: RestAssuredLite)
      requires Valid()
      requires UniqueNames(headers)
      modifies requestModel
      ensures Valid() && self == this
      ensures forall name :: Get(requestModel.headers, name) ==
                            if HasName(headers, name) then Get(headers, name) else Get(old(requestModel.headers), name)
      ensures requestModel.State() == old(requestModel.State()).(headers := PutAll(old(requestModel.headers), headers))
    {
      requestModel.headers := PutAll(requestModel.headers, headers);
      self := this;
    }

    method SetContentType(contentType: Option<ContentType>) returns (self: RestAssuredLite)
      requires Valid()
      modifies requestModel
      ensures Valid() && self == this
      ensures requestModel.State() == old(requestModel.State()).(contentType := contentType)
    {
      requestModel.SetContentType(contentType);
      self := this;
    }

    method SetBody(body: Option<Body>) returns (self: RestAssuredLite)
      requires Valid()
      modifies requestModel
      ensures Valid() && self == this
      ensures requestModel.State() == old(requestModel.State()).(body := body)
    {
      requestModel.SetBody(body);
      self := this;
    }

    /** The one immediate setter: credentials go to the client at once; the
        request model is not touched. */
    method SetBasicAuth(username: Option<string>, password: Option<string>) returns (self: RestAssuredLite)
      modifies client
      ensures self == this
      ensures client.trace == old(client.trace) + [BasicAuthSet(username, password)]
    {
      client.PreemptiveBasic(username, password);
      self := this;
    }

    // ---- build

    /** Applies the staged configuration: URL, then headers, then content type. */
    method BuildRequest() returns (self: RestAssuredLite)
      requires Valid()
      modifies requestModel, client
      ensures Valid() && self == this
      ensures requestModel.State() == AfterBuild(old(requestModel.State()))
      ensures client.trace == old(client.trace) + BuildCalls(old(requestModel.State()))
    {
      SetTargetUrl();
      SetHeaders();
      SetDefaultedContentType();
      self := this;
    }

    method SetTargetUrl()
      modifies client
      ensures client.trace == old(client.trace) + [BaseUriSet(requestModel.baseUri), BasePathSet(requestModel.basePath)]
    {
      client.BaseUri(requestModel.baseUri);
      client.BasePath(requestModel.basePath);
    }

    /** Pushes every header entry to the client, one call per entry, in the
        map's iteration order. */
    method SetHeaders()
      modifies client
      ensures client.trace == old(client.trace) + HeaderCalls(requestModel.headers)
    {
      var entries := requestModel.headers;
      var i := 0;
      while i < |entries|
        invariant 0 <= i <= |entries|
        invariant client.trace == old(client.trace) + HeaderCalls(entries[..i])
      {
        assert entries[..i + 1][..i] == entries[..i];
        client.Header(entries[i].0, entries[i].1);
        i := i + 1;
      }
      assert entries[..i] == entries;
    }

    /** Defaults a missing content type to JSON in the model, then applies it. */
    method SetDefaultedContentType()
      modifies requestModel, client
      ensures requestModel.State() == AfterBuild(old(requestModel.State()))
      ensures client.trace == old(client.trace) + [ContentTypeSet(Resolve(old(requestModel.contentType)))]
    {
      if requestModel.contentType.None? {
        requestModel.SetContentType(Some(JSON));
      }
      client.ContentType(requestModel.contentType.value);
    }

    // ---- send and read

    /** The Lombok-generated `setResponseModel`: the only code that can give
        the builder a response model. */
    method SetResponseModel(responseModel: Option<ResponseModel>)
      modifies this
      ensures this.responseModel == responseModel
    {
      this.responseModel := responseModel;
    }

    /** `sendRequest` as written: the exchange happens, then the result is
        written into `responseModel`, which the class's own code never
        assigns. Unless a caller has installed one with `SetResponseModel`,
        the call ends in a null dereference after the request went out. */
    method SendRequestAsWritten(requestType: Method, endpoint: Option<string>, params: seq<Option<string>>, reply: Reply)
      returns (r: Result<RestAssuredLite, Fault>)
      modifies this, client
      ensures client.trace == old(client.trace) + [RequestSent(requestType, endpoint, if endpoint.Some? then params else [])]
      ensures old(responseModel).None? ==> r == Failure(NullPointerException) && responseModel == None
      ensures old(responseModel).Some? ==>
                r == Success(this) &&
                responseModel == Some(old(responseModel).value.(body := reply.prettyBody, statusCode := reply.status))
    {
      var response;
      if endpoint.Some? {
        response := client.Request(requestType, endpoint, params, reply);
      } else {
        response := client.Request(requestType, None, [], reply);
      }
      if responseModel.None? {
        return Failure(NullPointerException);
      }
      responseModel := Some(responseModel.value.(body := response.prettyBody, statusCode := response.status));
      r := Success(this);
    }

    /** `sendRequest` with the response captured into a response model of its
        own: the previous response is discarded. */
    method SendRequest(requestType: Method, endpoint: Option<string>, params: seq<Option<string>>, reply: Reply)
      returns (self: RestAssuredLite)
      modifies this, client
      ensures self == this
      ensures client.trace == old(client.trace) + [RequestSent(requestType, endpoint, if endpoint.Some? then params else [])]
      ensures responseModel == Some(ResponseModel(reply.prettyBody, None, reply.status))
    {
      var response;
      if endpoint.Some? {
        response := client.Request(requestType, endpoint, params, reply);
      } else {
        response := client.Request(requestType, None, [], reply);
      }
      responseModel := Some(ResponseModel(response.prettyBody, None, response.status));
      self := this;
    }

    /** `sendRequest(requestType)`: no endpoint, so the configured base URL is targeted. */
    method SendRequestToBase(requestType: Method, reply: Reply) returns (self: RestAssuredLite)
      modifies this, client
      ensures self == this
      ensures client.trace == old(client.trace) + [RequestSent(requestType, None, [])]
      ensures responseModel == Some(ResponseModel(reply.prettyBody, None, reply.status))
    {
      self := SendRequest(requestType, None, [None], reply);
    }

    /** The status of the last response; a null dereference before any send. */
    method GetStatusCode() returns (r: Result<int, Fault>)
      ensures responseModel.None? ==> r == Failure(NullPointerException)
      ensures responseModel.Some? ==> r == Success(responseModel.value.statusCode)
    {
      if responseModel.None? {
        return Failure(NullPointerException);
      }
      r := Success(responseModel.value.statusCode);
    }
  }

  // ---- scenarios over a fresh builder

  /** As written, a send right after construction, before any caller has
      installed a response model, goes out and then dereferences null. */
  method FreshBuilderSendFails(log: bool, requestType: Method, endpoint: Option<string>, reply: Reply)
    returns (r: Result<RestAssuredLite, Fault>)
    ensures r == Failure(NullPointerException)
  {
    var lite := new RestAssuredLite(log);
    r := lite.SendRequestAsWritten(requestType, endpoint, [], reply);
  }

  /** As written, a caller that first installs a response model through the
      Lombok setter avoids the null dereference: the send stores the reply's
      body and status into that model, keeping its error text. */
  method InstalledResponseSendSucceeds(log: bool, installed: ResponseModel, requestType: Method, endpoint: Option<string>, reply: Reply)
    returns (sent: Result<RestAssuredLite, Fault>, status: Result<int, Fault>)
    ensures sent.Success?
    ensures status == Success(reply.status)
  {
    var lite := new RestAssuredLite(log);
    lite.SetResponseModel(Some(installed));
    sent := lite.SendRequestAsWritten(requestType, endpoint, [], reply);
    status := lite.GetStatusCode();
  }

  /** With the response captured by the send itself, the status is readable
      right after the first send, and not before. */
  method FreshBuilderSendThenStatus(log: bool, requestType: Method, reply: Reply)
    returns (before: Result<int, Fault>, after: Result<int, Fault>)
    ensures before == Failure(NullPointerException)
    ensures after == Success(reply.status)
  {
    var lite := new RestAssuredLite(log);
    before := lite.GetStatusCode();
    var _ := lite.SendRequestToBase(requestType, reply);
    after := lite.GetStatusCode();
  }

  /** The round trip: base URI, base path and one header staged, built, and a
      GET sent to a templated endpoint; the client receives the URL parts as
      staged, the header, the default JSON content type and the request. */
  method RoundTrip(reply: Reply) returns (received: seq<Call>, status: Result<int, Fault>)
    ensures received == [
      BaseUriSet(Some("https://api.example.com")),
      BasePathSet(Some("/v1")),
      HeaderAdded("Accept", "application/json"),
      ContentTypeSet(JSON),
      RequestSent(GET, Some("/users/{id}"), [Some("42")])]
    ensures status == Success(reply.status)
  {
    var lite := new RestAssuredLite(false);
    var self := lite.SetBaseUri(Some("https://api.example"));
    self := lite.AppendToBaseUri(Some(".com"));
    self := lite.SetBasePath(Some("/v1"));
    self := lite.AddHeader("Accept", "application/json");
    assert lite.requestModel.headers == [("Accept", "application/json")];
    ghost var staged := lite.requestModel.State();
    assert Concat(Some("https://api.example"), Some(".com")) == "https://api.example" + ".com" == "https://api.example.com";
    assert staged.baseUri == Some("https://api.example.com");
    assert HeaderCalls(staged.headers) == [HeaderAdded("Accept", "application/json")];
    self := lite.BuildRequest();
    assert lite.requestModel.contentType == Some(JSON);
    self := lite.SendRequest(GET, Some("/users/{id}"), [Some("42")], reply);
    received := lite.client.trace;
    status := lite.GetStatusCode();
  }

  /** The per-thread instance slot, as a map from an execution-context id to
      that context's builder. */
  type ContextId = nat

  class Registry {
    var slots: map<ContextId, RestAssuredLite>

    /** Every cached builder is usable (its header map has no name twice), and
        different contexts never share a builder, its request model or its client. */
    ghost predicate Isolated()
      reads this, set c | c in slots :: slots[c], set c | c in slots :: slots[c].requestModel
    {
      && (forall c :: c in slots ==> slots[c].Valid())
      && (forall c, d :: c in slots && d in slots && c != d ==>
            slots[c] != slots[d] && slots[c].requestModel != slots[d].requestModel && slots[c].client != slots[d].client)
    }

    constructor ()
      ensures slots == map[] && Isolated()
    {
      slots := map[];
    }

    /** `getInstance(log)`: the context's cached builder when there is one
        (whatever `log` is); otherwise a new builder, cached for the context. */
    method GetInstance(context: ContextId, log: bool) returns (instance: RestAssuredLite)
      requires Isolated()
      modifies this
      ensures Isolated() && instance.Valid()
      ensures context in old(slots) ==> instance == old(slots)[context] && slots == old(slots)
      ensures context !in old(slots) ==>
        && fresh(instance) && fresh(instance.requestModel) && fresh(instance.client)
        && instance.Valid() && instance.client.logAll == log && instance.client.trace == []
        && instance.requestModel.State() == Fresh && instance.responseModel == None
        && slots == old(slots)[context := instance]
    {
      if context !in slots {
        var created := new RestAssuredLite(log);
        slots := slots[context := created];
      }
      instance := slots[context];
    }
  }

  /** `getInstance(log).setBaseUri(uri)` on a context that already has a
      builder: the cached builder comes back (whatever `log` is this time) and
      can be configured, and the change is seen through the first reference. */
  method CachedBuilderConfigurable(context: ContextId, log: bool, uri: Option<string>)
    returns (same: bool, staged: Option<string>)
    ensures same
    ensures staged == uri
  {
    var registry := new Registry();
    var first := registry.GetInstance(context, log);
    var again := registry.GetInstance(context, !log);
    same := first == again;
    var self := again.SetBaseUri(uri);
    staged := first.requestModel.baseUri;
  }
}
