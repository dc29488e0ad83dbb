# RestAssuredLite request builder — a Dafny model

This project models the request-configuration core of `client-lite`, a fluent
wrapper around the RestAssured HTTP testing client:

- `RequestModel` is a mutable record. It holds the body, base URI, base path and
  content type, plus a header map. The map the constructor creates is a
  `LinkedHashMap`, which keeps insertion order.
  It has two in-place append operations, built on Java string concatenation.
- `RestAssuredLite` is the fluent builder. Its chained setters stage
  configuration in the `RequestModel` it owns and return `this`. The one
  exception is `setBasicAuth`, which writes credentials straight to the client.
- `buildRequest` copies the staged configuration to the client in a fixed
  order: base URI and base path, then every header entry, then the content type.
  If no content type is set, it first writes JSON back into the model.
- `getInstance` is a per-thread create-if-absent cache.
- `sendRequest` performs the exchange and then writes its status and body into
  an existing response model. The class's own code never creates one (see
  "Findings"). `getStatusCode` reads the stored status.

The RestAssured client is modelled as a `Client` object. It keeps a trace of
every call made on it: base URI, base path, each header, content type,
credentials and each request. Contracts therefore say what the transport
received, and in which order. The network exchange is a parameter: a `Reply`
with a status code and a pretty-printed body.

Modules, one per file:

- `Wrappers` (`wrappers.dfy`): `Option` for Java references that may be null,
  and `Result` for calls that can end in an exception.
- `Http` (`http.dfy`): the library's `ContentType` and `Method` enumerations,
  and `Reply`.
- `Headers` (`headers.dfy`): the header map, as a sequence of `(name, value)`
  entries in iteration order, with no name twice. It provides `get`, `put` and
  `putAll` with `LinkedHashMap` semantics.
- `Request` (`request_model.dfy`): the `RequestModel` class, its value
  `Staged`, and Java's null-tolerant string `+`.
- `Transport` (`transport.dfy`): the abstract client.
- `Lite` (`rest_assured_lite.dfy`): the `RestAssuredLite` class. It also holds
  what `buildRequest` sends, as functions with lemmas about them, the
  `Registry` that stands for the `ThreadLocal` slot, and scenarios run on fresh
  builders.

Three behaviours of the code differ from what a reader of such a builder might
expect; the model follows the code:

- Appending to an unset base URI or base path is not a usage error.
  Java renders the null field as the text `"null"`, so
  `appendToBaseUri("/x")` on a fresh builder gives `"null/x"`. The model
  reproduces this (`Request.Render`, `Request.Concat`).
- An unset base path is not defaulted to the empty string. It is passed to the
  client as null.
- The staged body is never passed to the client. Neither `buildRequest` nor
  `sendRequest` uses it. So the client model has no body call at all.

Java getters generated by Lombok are plain field reads in the model. Setters
take `Option` arguments, because Java callers may pass null.

## Model

| member | source | states |
|---|---|---|
| `Headers.Get` | src/main/java/dev/skuggi/models/RequestModel.java:18-21 | a lookup finds a value exactly when the name occurs in the map; the value it returns is the one stored with that name, and in a map with unique names it is that entry's value |
| `Headers.Put` | src/main/java/dev/skuggi/core/RestAssuredLite.java:84 | `LinkedHashMap.put` order: an existing name keeps its position and only its value changes; a new name is appended at the end; every other entry is untouched |
| `Headers.PutGet` | src/main/java/dev/skuggi/core/RestAssuredLite.java:83-86 | after `put(name, value)`, `get(name)` is `value` and every other name reads as before |
| `Headers.PutUnique` | src/main/java/dev/skuggi/models/RequestModel.java:18-21 | `put` keeps the map invariant that no name appears twice |
| `Headers.PutAllNames` | src/main/java/dev/skuggi/core/RestAssuredLite.java:92-95 | the key set after `putAll(m)` is the union of the old key set and `m`'s |
| `Headers.PutAllSize` | src/main/java/dev/skuggi/core/RestAssuredLite.java:92-95 | a map with unique names grows under `putAll(m)` by exactly the number of `m`'s names it did not have; when it already had all of them, its size is unchanged |
| `Headers.UniqueNamesCount` | src/main/java/dev/skuggi/models/RequestModel.java:18-21 | a map whose names are unique has as many entries as names |
| `Headers.PutNames` | src/main/java/dev/skuggi/core/RestAssuredLite.java:84 | `put(name, value)` adds exactly `name` to the key set |
| `Headers.PutAll` | src/main/java/dev/skuggi/core/RestAssuredLite.java:92-95 | `putAll(m)` is the old map overridden by `m`: names in `m` read `m`'s value, other names keep their old value; existing entries keep their positions; uniqueness is kept |
| `Request.Concat` | src/main/java/dev/skuggi/models/RequestModel.java:24-30 | Java string `+`: the result is the left operand's text followed directly by the right operand's, with no separator; a null operand renders as "null" |
| `Request.AppendTwice` | src/main/java/dev/skuggi/models/RequestModel.java:24-30 | appending `a` then `b` gives the same field as appending `a + b` |
| `Request.AppendEmpty` | src/main/java/dev/skuggi/models/RequestModel.java:24-30 | appending "" to a set field leaves it unchanged; appending "" to a null field gives "null" |
| `Request.RequestModel.constructor` | src/main/java/dev/skuggi/models/RequestModel.java:20-22 | a fresh model has an empty header map and every other field null |
| `Request.RequestModel.SetBody` | src/main/java/dev/skuggi/models/RequestModel.java:10-14 | the Lombok setter changes `body` and no other field |
| `Request.RequestModel.SetBaseUri` | src/main/java/dev/skuggi/models/RequestModel.java:10-15 | the Lombok setter changes `baseUri` and no other field |
| `Request.RequestModel.SetBasePath` | src/main/java/dev/skuggi/models/RequestModel.java:10-16 | the Lombok setter changes `basePath` and no other field |
| `Request.RequestModel.SetContentType` | src/main/java/dev/skuggi/models/RequestModel.java:10-17 | the Lombok setter changes `contentType` and no other field |
| `Request.RequestModel.SetHeaders` | src/main/java/dev/skuggi/models/RequestModel.java:10-18 | the Lombok setter replaces the header map, keeps the map invariant, and changes no other field |
| `Request.RequestModel.AppendBaseUri` | src/main/java/dev/skuggi/models/RequestModel.java:24-26 | `baseUri` becomes the old `baseUri` followed by the fragment; it is never null afterwards; a null `baseUri` contributes "null"; no other field changes |
| `Request.RequestModel.AppendBasePath` | src/main/java/dev/skuggi/models/RequestModel.java:28-30 | `basePath` becomes the old `basePath` followed by the fragment; a null `basePath` contributes "null"; no other field changes |
| `Transport.Client.constructor` | src/main/java/dev/skuggi/core/RestAssuredLite.java:26 | `given()` or `given().log().all()` gives a client that has received no calls; its logging flag is the `log` argument |
| `Transport.Client.BaseUri` | src/main/java/dev/skuggi/core/RestAssuredLite.java:172 | the client records a base-URI call carrying exactly the value passed |
| `Transport.Client.BasePath` | src/main/java/dev/skuggi/core/RestAssuredLite.java:173 | the client records a base-path call carrying exactly the value passed |
| `Transport.Client.Header` | src/main/java/dev/skuggi/core/RestAssuredLite.java:181 | the client records one header call for the name and value passed |
| `Transport.Client.ContentType` | src/main/java/dev/skuggi/core/RestAssuredLite.java:190 | the client records a content-type call for the value passed |
| `Transport.Client.PreemptiveBasic` | src/main/java/dev/skuggi/core/RestAssuredLite.java:116 | the client records the credentials passed |
| `Transport.Client.Request` | src/main/java/dev/skuggi/core/RestAssuredLite.java:130-131 | the client records the request (method, endpoint, path parameters) and returns the transport's reply |
| `Lite.HeaderCallsOnePerEntry` | src/main/java/dev/skuggi/core/RestAssuredLite.java:179-183 | the header calls of a build are one per map entry, in the map's iteration order, carrying each entry's name and value |
| `Lite.BuildCallsShape` | src/main/java/dev/skuggi/core/RestAssuredLite.java:161-191 | a build sends the base URI and then the base path, exactly as stored; then one call per header entry in order; then the content type, which is JSON when none is stored and the stored one otherwise; it never sends credentials or a request |
| `Lite.BuildHeaderNamesDistinct` | src/main/java/dev/skuggi/core/RestAssuredLite.java:179-183 | with the map's names unique, the header calls of a build carry pairwise different names, so the order of application cannot let one header overwrite another |
| `Lite.BuildIdempotent` | src/main/java/dev/skuggi/core/RestAssuredLite.java:188-191 | a second build leaves the model as the first left it, and it sends the same calls again |
| `Lite.DefaultContentType` | src/main/java/dev/skuggi/core/RestAssuredLite.java:188-191 | with no content type stored, JSON is written back into the model and applied to the client; a stored content type is applied unchanged and the model is not changed |
| `Lite.AddHeadersOverridesAddHeader` | src/main/java/dev/skuggi/core/RestAssuredLite.java:83-95 | when `addHeaders(m)` follows `addHeader(k, v)` and `m` has `k`, the value from `m` wins |
| `Lite.RestAssuredLite.constructor` | src/main/java/dev/skuggi/core/RestAssuredLite.java:25-28 | a new builder owns a fresh client (logging when `log` is set) with no calls, and a fresh, empty request model; its response model is null |
| `Lite.RestAssuredLite.SetBaseUri` | src/main/java/dev/skuggi/core/RestAssuredLite.java:46-49 | changes only the model's `baseUri`; the client is not touched; returns `this` |
| `Lite.RestAssuredLite.AppendToBaseUri` | src/main/java/dev/skuggi/core/RestAssuredLite.java:55-58 | after `setBaseUri(u)`, the model's `baseUri` is `u + s` with no separator; only `baseUri` changes; the client is not touched; returns `this` |
| `Lite.RestAssuredLite.SetBasePath` | src/main/java/dev/skuggi/core/RestAssuredLite.java:64-67 | changes only the model's `basePath`; the client is not touched; returns `this` |
| `Lite.RestAssuredLite.AppendToBasePath` | src/main/java/dev/skuggi/core/RestAssuredLite.java:73-76 | the model's `basePath` is the old path followed by the fragment; only `basePath` changes; the client is not touched; returns `this` |
| `Lite.RestAssuredLite.AddHeader` | src/main/java/dev/skuggi/core/RestAssuredLite.java:83-86 | afterwards `headers[name]` is `value` and every other header reads as before; no other model field changes; the client is not touched; returns `this` |
| `Lite.RestAssuredLite.AddHeaders` | src/main/java/dev/skuggi/core/RestAssuredLite.java:92-95 | the headers become the old map overridden by the argument: on a name collision the argument wins, and other names keep their values; the client is not touched; returns `this` |
| `Lite.RestAssuredLite.SetContentType` | src/main/java/dev/skuggi/core/RestAssuredLite.java:101-104 | changes only the model's `contentType`; the client is not touched; returns `this` |
| `Lite.RestAssuredLite.SetBody` | src/main/java/dev/skuggi/core/RestAssuredLite.java:110-113 | changes only the model's `body`; the client is not touched; returns `this` |
| `Lite.RestAssuredLite.SetBasicAuth` | src/main/java/dev/skuggi/core/RestAssuredLite.java:115-118 | the client receives the credentials at once; the request model is not touched; returns `this` |
| `Lite.RestAssuredLite.BuildRequest` | src/main/java/dev/skuggi/core/RestAssuredLite.java:161-166 | the client receives exactly the build calls of the staged configuration, in order; the model changes only in that a missing content type becomes JSON; returns `this` |
| `Lite.RestAssuredLite.SetTargetUrl` | src/main/java/dev/skuggi/core/RestAssuredLite.java:171-174 | the client receives the stored base URI and then the stored base path |
| `Lite.RestAssuredLite.SetHeaders` | src/main/java/dev/skuggi/core/RestAssuredLite.java:179-183 | the loop pushes every header entry to the client, one call per entry, in iteration order |
| `Lite.RestAssuredLite.SetDefaultedContentType` | src/main/java/dev/skuggi/core/RestAssuredLite.java:188-191 | a null content type is set to JSON in the model; then the model's content type is applied to the client |
| `Lite.RestAssuredLite.SetResponseModel` | src/main/java/dev/skuggi/core/RestAssuredLite.java:14-20 | the Lombok setter installs the given response model and changes nothing else |
| `Lite.RestAssuredLite.SendRequestAsWritten` | src/main/java/dev/skuggi/core/RestAssuredLite.java:128-136 | as written: the request goes to the client with the endpoint and parameters, or bare when there is no endpoint; with no response model the call then ends in a null dereference; otherwise the body and status are written into the existing response model |
| `Lite.RestAssuredLite.SendRequest` | src/main/java/dev/skuggi/core/RestAssuredLite.java:128-136 | corrected: the request goes to the client as above, and the reply's body and status replace any earlier response |
| `Lite.RestAssuredLite.SendRequestToBase` | src/main/java/dev/skuggi/core/RestAssuredLite.java:143-145 | corrected half of the finding (it delegates to the corrected `SendRequest`): a send with no endpoint targets the configured base URL with no path and no parameters, and the reply replaces any earlier response |
| `Lite.RestAssuredLite.GetStatusCode` | src/main/java/dev/skuggi/core/RestAssuredLite.java:151-153 | returns the status of the stored response; with no response stored, the call ends in a null dereference |
| `Lite.FreshBuilderSendFails` | src/main/java/dev/skuggi/core/RestAssuredLite.java:128-134 | as written, a send right after construction (lines 25-28, which leave the response model null), before any caller installs a response model through the Lombok setter, goes out and then ends in a null dereference |
| `Lite.InstalledResponseSendSucceeds` | src/main/java/dev/skuggi/core/RestAssuredLite.java:128-153 | as written, a caller that first installs a response model through the Lombok setter avoids the null dereference, and the status of the reply reads back |
| `Lite.FreshBuilderSendThenStatus` | src/main/java/dev/skuggi/core/RestAssuredLite.java:143-153 | corrected half of the finding: reading the status before any send is a null dereference; right after a send it returns the reply's status |
| `Lite.RoundTrip` | src/main/java/dev/skuggi/core/RestAssuredLite.java:46-191 | staging base URI `https://api.example` + `.com`, base path `/v1` and `Accept: application/json`, then building and sending `GET /users/{id}` with `42`: the client receives exactly the URL parts, the header, the default JSON content type and the request, in that order, and the status reads back |
| `Lite.Registry.constructor` | src/main/java/dev/skuggi/core/RestAssuredLite.java:17 | no context has an instance at first |
| `Lite.Registry.GetInstance` | src/main/java/dev/skuggi/core/RestAssuredLite.java:36-39 | if the context has a cached instance, it is returned whatever `log` is, and the cache is unchanged; otherwise a new builder with a fresh, empty request model is created, cached for that context only, and returned; either way the builder returned is usable (its header map has no name twice), so it can be configured and built; different contexts never share a builder, request model or client |
| `Lite.CachedBuilderConfigurable` | src/main/java/dev/skuggi/core/RestAssuredLite.java:36-49 | a second `getInstance` on the same context, with either `log`, returns the builder cached by the first, and `setBaseUri` on it is seen through the first reference |

## Findings

| source | as written | input that shows it | evidently intended | confidence | as-written member | corrected member |
|---|---|---|---|---|---|---|
| src/main/java/dev/skuggi/core/RestAssuredLite.java:133-134 | the reply is written into `responseModel`, which the class's own code never assigns; unless a caller installs a `ResponseModel` through the Lombok `setResponseModel`, the send at line 131 is followed by a null dereference at line 133 | `new RestAssuredLite(false).sendRequest(Method.GET)`: the request goes out, then line 133 dereferences null; `getStatusCode()` at line 152 fails the same way | each send stores its reply in a response model of its own, and `getStatusCode()` then returns that reply's status | high; not executed | `Lite.RestAssuredLite.SendRequestAsWritten`, shown by `Lite.FreshBuilderSendFails` | `Lite.RestAssuredLite.SendRequest`, proved by `Lite.FreshBuilderSendThenStatus` and `Lite.RoundTrip` |

## Left out

- The HTTP exchange itself (`client.request(...)`, `asPrettyString()`, `getStatusCode()` on the library response) is network I/O inside a foreign library. The model takes its outcome as a `Reply` parameter. Transport failures and their exceptions are not modelled.
- RestAssured internals are not modelled. `given()` and `log().all()` become a fresh `Client` with a logging flag. `auth().preemptive().basic(...)` and the other client calls are only recorded. What the library then does is not modelled: for example, it rejects a null base URI, it has its own handling of the null base path that `setTargetUrl` passes whenever no base path was staged (RestAssuredLite.java:173), and it has its own policy for repeated header calls. The model's `BuildRequest` records these calls and never fails.
- The `ThreadLocal` slot is modelled as a map from a context id to a builder (`Lite.Registry`). Thread scheduling and isolation between real threads are not modelled.
- Lombok-generated members are left out: `equals`, `hashCode`, `toString`, the getters (plain field reads in the model), `RequestModel`'s all-arguments constructor, and `RestAssuredLite`'s `setRequestModel`. Because `setRequestModel` is left out, `requestModel` is a constant field. (`setResponseModel` is modelled.)
- `ResponseModel` is modelled as a value (body, error, status). Its raw library `Response` field is left out, and so is sharing of one response object between holders. The corrected send leaves `error` empty, because no code writes it.
- The body is modelled by its serialised text, header values by their text, and the path parameters of `sendRequest` (`Object... params`) as a sequence of possibly-null texts. The source accepts any `Object` for all three.
- The header map is modelled as a value held in `RequestModel.headers`. The live `LinkedHashMap` that `getHeaders()` hands out, and any mutation made through that alias outside the builder, are not modelled.
- Null keys and null values in the header map are not modelled. `addHeader(attr, null)` is accepted by the source (`Object value`), but a model header is a pair of texts. A null map passed to `addHeaders` and `setHeaders(null)` are not modelled either. The model does not represent a null header map.
- Request.RequestModel.SetHeaders: assumes the installed map iterates in insertion order and is not shared with the caller. The field is declared as a plain `HashMap`, so the Lombok setter (and the all-arguments constructor) accepts any `HashMap`. Such a map iterates in hash order, and a resize can reorder it. After `setHeaders(m)` the builder also holds the caller's own `m`, so later changes the caller makes to `m` reach the builder. For a map installed that way, the entry-order claims of `Headers.Put`, `Lite.HeaderCallsOnePerEntry`, `Lite.BuildCallsShape`, `Lite.RestAssuredLite.SetHeaders` and `Lite.RestAssuredLite.BuildRequest` do not describe the source. Their lookup and key-set claims still hold.
- Headers.PutAll: states the lookups of the result and that existing entries keep their positions, but not the order in which new names are appended (which is the argument map's iteration order).
