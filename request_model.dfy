/** The staged request configuration (`RequestModel`): a mutable record of the
    body, base URI, base path, content type and the insertion-ordered header
    map. Java `String` fields may be null; the model writes them as
    `Option<string>`. */
module Request {
  import opened Wrappers
  import opened Http
  import opened Headers

  /** How Java's string `+` renders a reference: a null operand prints as "null". */
  function Render(s: Option<string>): string {
    s.GetOr("null")
  }

  /** Java's `a + b` on two possibly-null strings: never null, no separator. */
  function Concat(a: Option<string>, b: Option<string>): (r: string)
    ensures |r| == |Render(a)| + |Render(b)|
    ensures r[..|Render(a)|] == Render(a) && r[|Render(a)|..] == Render(b)
  {
    Render(a) + Render(b)
  }

  /** The value of a `RequestModel`, field by field. */
  datatype Staged = Staged(
    body: Option<Body>,
    baseUri: Option<string>,
    basePath: Option<string>,
    contentType: Option<ContentType>,
    headers: seq<Header>)

  /** The value of a freshly constructed model: an empty header map, every other field null. */
  const Fresh := Staged(None, None, None, None, [])

  class RequestModel {
    var body: Option<Body>
    var baseUri: Option<string>
    var basePath: Option<string>
    var contentType: Option<ContentType>
    var headers: seq<Header>

    /** The header map is a map: no name twice. */
    ghost predicate Valid()
      reads this
    {
      UniqueNames(headers)
    }

    function State(): Staged
      reads this
    {
      Staged(body, baseUri, basePath, contentType, headers)
    }

    /** `new RequestModel()`: only the header map is initialised. */
    constructor ()
      ensures Valid()
      ensures State() == Fresh
    {
      body := None;
      baseUri := None;
      basePath := None;
      contentType := None;
      headers := [];
    }

    method SetBody(body: Option<Body>)
      modifies this
      ensures State() == old(State()).(body := body)
    {
      this.body := body;
    }

    method SetBaseUri(baseUri: Option<string>)
      modifies this
      ensures State() == old(State()).(baseUri := baseUri)
    {
      this.baseUri := baseUri;
    }

    method SetBasePath(basePath: Option<string>)
      modifies this
      ensures State() == old(State()).(basePath := basePath)
    {
      this.basePath := basePath;
    }

    method SetContentType(contentType: Option<ContentType>)
      modifies this
      ensures State() == old(State()).(contentType := contentType)
    {
      this.contentType := contentType;
    }

    /** Replaces the header map. The argument is a map, so its names are unique. */
    method SetHeaders(headers: seq<Header>)
      requires UniqueNames(headers)
      modifies this
      ensures Valid()
      ensures State() == old(State()).(headers := headers)
    {
      this.headers := headers;
    }

    /** `baseUri = baseUri + uri`: the fragment is appended verbatim; a null
        `baseUri` contributes the text "null". */
    method AppendBaseUri(uri: Option<string>)
      modifies this
      ensures baseUri.Some?
      ensures old(baseUri).Some? && uri.Some? ==> baseUri.value == old(baseUri).value + uri.value
      ensures old(baseUri).None? ==> baseUri.value == "null" + Render(uri)
      ensures State() == old(State()).(baseUri := Some(Concat(old(baseUri), uri)))
    {
      baseUri := Some(Concat(baseUri, uri));
    }

    /** `basePath = basePath + path`, with the same null rendering. */
    method AppendBasePath(path: Option<string>)
      modifies this
      ensures basePath.Some?
      ensures old(basePath).Some? && path.Some? ==> basePath.value == old(basePath).value + path.value
      ensures old(basePath).None? ==> basePath.value == "null" + Render(path)
      ensures State() == old(State()).(basePath := Some(Concat(old(basePath), path)))
    {
      basePath := Some(Concat(basePath, path));
    }
  }

  /** Appending `a` and then `b` is appending `a + b`. */
  lemma AppendTwice(start: Option<string>, a: string, b: string)
    ensures Concat(Some(Concat(start, Some(a))), Some(b)) == Concat(start, Some(a + b))
  {
    assert Render(start) + a + b == Render(start) + (a + b);
  }

  /** Appending the empty string to a set field changes nothing; to a null
      field it leaves the text "null". */
  lemma AppendEmpty(start: Option<string>)
    ensures start.Some? ==> Concat(start, Some("")) == start.value
    ensures start.None? ==> Concat(start, Some("")) == "null"
  {
    assert Render(start) + "" == Render(start);
  }
}
