/** The HTTP client library's request specification, abstracted to what was
    applied to it. Each call the core makes on the client is appended to a
    trace, so contracts can say what the transport received and in which
    order. The network exchange itself is a parameter (`Reply`). */
module Transport {
  import opened Wrappers
  import opened Http

  /** One call on the client. The library's body operation is not among them:
      no code of the builder ever passes the staged body to the client. */
  datatype Call =
    | BaseUriSet(uri: Option<string>)
    | BasePathSet(path: Option<string>)
    | HeaderAdded(name: string, value: string)
    | ContentTypeSet(contentType: ContentType)
    | BasicAuthSet(username: Option<string>, password: Option<string>)
    | RequestSent(requestType: Method, endpoint: Option<string>, pathParams: seq<Option<string>>)

  class Client {
    /** Whether the specification was created with `log().all()`. */
    const logAll: bool
    /** Every call applied to the client, oldest first. */
    var trace: seq<Call>

    constructor (logAll: bool)
      ensures this.logAll == logAll && trace == []
    {
      this.logAll := logAll;
      trace := [];
    }

    method BaseUri(uri: Option<string>)
      modifies this
      ensures trace == old(trace) + [BaseUriSet(uri)]
    {
      trace := trace + [BaseUriSet(uri)];
    }

    method BasePath(path: Option<string>)
      modifies this
      ensures trace == old(trace) + [BasePathSet(path)]
    {
      trace := trace + [BasePathSet(path)];
    }

    method Header(name: string, value: string)
      modifies this
      ensures trace == old(trace) + [HeaderAdded(name, value)]
    {
      trace := trace + [HeaderAdded(name, value)];
    }

    method ContentType(contentType: ContentType)
      modifies this
      ensures trace == old(trace) + [ContentTypeSet(contentType)]
    {
      trace := trace + [ContentTypeSet(contentType)];
    }

    /** `auth().preemptive().basic(username, password)`. */
    method PreemptiveBasic(username: Option<string>, password: Option<string>)
      modifies this
      ensures trace == old(trace) + [BasicAuthSet(username, password)]
    {
      trace := trace + [BasicAuthSet(username, password)];
    }

    /** One exchange; its outcome comes from outside as `reply`. */
    method Request(requestType: Method, endpoint: Option<string>, pathParams: seq<Option<string>>, reply: Reply)
      returns (response: Reply)
      modifies this
      ensures trace == old(trace) + [RequestSent(requestType, endpoint, pathParams)]
      ensures response == reply
    {
      trace := trace + [RequestSent(requestType, endpoint, pathParams)];
      response := reply;
    }
  }
}
