/** What the model sees of the HTTP client: status codes, the outcome of one
    request, and a client whose default headers a provider extends in place.
    Sending, cookies, TLS impersonation and JSON decoding are not modelled: a
    reply arrives already read as text and already decoded. */
module Http {
  import opened Wrappers

  /** A response status and the HTTP library's display of it. */
  datatype StatusCode = StatusCode(code: int, display: string) {
    /** `StatusCode::is_success`: 200 to 299. */
    predicate IsSuccess() {
      200 <= code <= 299
    }
  }

  /** The outcome of one request: sending failed (`send().await?`), or a
      response arrived, whose body reads as `text` (`text().await`) and decodes as
      `json` (`json().await`); each read may fail with the library's error. */
  datatype Reply<T> =
    | Unsent(cause: string)
    | Received(status: StatusCode, text: Result<string, string>, json: Result<T, string>)
  {
    /** `send().await?.text().await?` */
    function Text(): Result<string, string> {
      match this
      case Unsent(cause) => Err(cause)
      case Received(_, text, _) => text
    }

    /** `send().await?.json().await?` */
    function Json(): Result<T, string> {
      match this
      case Unsent(cause) => Err(cause)
      case Received(_, _, json) => json
    }
  }

  /** A request header. */
  datatype Header = Header(name: string, value: string)

  /** An HTTP client; the only state of it that the model follows is the list
      of default headers sent with every request. */
  class Client {
    var headers: seq<Header>

    constructor ()
      ensures headers == []
    {
      headers := [];
    }

    /** `client.as_mut().headers().append(name, value)` */
    method AppendHeader(name: string, value: string)
      modifies this
      ensures headers == old(headers) + [Header(name, value)]
    {
      headers := headers + [Header(name, value)];
    }
  }
}
