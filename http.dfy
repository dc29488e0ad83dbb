/** The vocabulary shared by the request model and the HTTP client: the client
    library's content-type and method enumerations, and what one exchange returns. */
module Http {

  /** The client library's `ContentType` enumeration. */
  datatype ContentType = ANY | TEXT | JSON | XML | HTML | URLENC | BINARY | MULTIPART

  /** The client library's `Method` enumeration. */
  datatype Method = GET | PUT | POST | DELETE | HEAD | TRACE | OPTIONS | PATCH

  /** A request body. The source accepts any object; the model keeps its
      serialised text. */
  type Body = string

  /** What the transport returns for one exchange: the status code and the
      response body rendered as pretty-printed text. */
  datatype Reply = Reply(status: int, prettyBody: string)
}
