/** The fakemail.net provider (src/provider/fakemail_net.rs): CSRF token
    extraction, the `"ok"` answers the inbox setup expects, and the message
    loop that walks the inbox list backwards. */
module FakeMailNet {
  import opened Wrappers
  import Text
  import Http
  import Emails
  import Errors

  const Marker := "CSRF=\""
  const Quote := "\""
  const NotFoundText := "Failed to find CSRF token"
  const NotExtractedText := "Failed to extract CSRF token"
  const OkReply := "\"ok\""
  const JsonPrefix := "Failed to parse JSON: "

  /** `get_csrf_token` on the page text: split at the first `CSRF="`, then
      split what follows at its first `"`. */
  function GetCsrfToken(page: string): (r: Result<string, Errors.InboxCreationError>)
    ensures r == Err(Errors.CreationError(NotFoundText)) <==> forall k :: !Text.OccursAt(page, Marker, k)
    ensures r == Err(Errors.CreationError(NotExtractedText)) <==>
      Text.Find(page, Marker).Some? && Quote[0] !in page[Text.Find(page, Marker).value + |Marker|..]
    ensures r.Ok? ==>
      Quote[0] !in r.value &&
      Text.OccursAt(page, r.value + Quote, Text.Find(page, Marker).value + |Marker|)
  {
    match Text.Find(page, Marker)
    case None => Err(Errors.CreationError(NotFoundText))
    case Some(k) =>
      var after := page[k + |Marker|..];
      QuoteOccurrences(after);
      match Text.Find(after, Quote)
      case None => Err(Errors.CreationError(NotExtractedText))
      case Some(j) =>
        assert after[..j + 1] == after[..j] + Quote;
        Ok(after[..j])
  }

  /** `"` occurs exactly where the character is a quote. */
  lemma QuoteOccurrences(s: string)
    ensures forall k: nat :: Text.OccursAt(s, Quote, k) <==> k < |s| && s[k] == Quote[0]
  {
    forall k: nat | k < |s|
      ensures Text.OccursAt(s, Quote, k) <==> s[k] == Quote[0]
    {
      assert s[k..k + 1] == [s[k]];
    }
  }

  /** No proper suffix of `CSRF="` is a prefix of it, so an occurrence cannot
      start inside the characters just before one. */
  lemma MarkerDoesNotOverlap(prefix: string, tail: string)
    requires forall k :: !Text.OccursAt(prefix, Marker, k)
    ensures Text.Find(prefix + Marker + tail, Marker) == Some(|prefix|)
  {
    var page := prefix + Marker + tail;
    assert page[|prefix|..|prefix| + |Marker|] == Marker;
    assert Text.OccursAt(page, Marker, |prefix|);
    forall k | 0 <= k < |prefix|
      ensures !Text.OccursAt(page, Marker, k)
    {
      if k + |Marker| <= |prefix| {
        assert page[k..k + |Marker|] == prefix[k..k + |Marker|];
        assert !Text.OccursAt(prefix, Marker, k);
      } else {
        var d := |prefix| - k;
        assert page[k..k + |Marker|][d] == page[|prefix|] == 'C';
        assert Marker[d] != 'C';
      }
    }
  }

  /** The inverse direction: on a page made of text without a marker, the
      marker, a token without quotes, a quote and any rest, the token is
      recovered exactly. */
  lemma {:induction false} CsrfTokenOfPage(prefix: string, token: string, rest: string)
    requires forall k :: !Text.OccursAt(prefix, Marker, k)
    requires Quote[0] !in token
    ensures GetCsrfToken(prefix + Marker + token + Quote + rest) == Ok(token)
  {
    var page := prefix + Marker + token + Quote + rest;
    assert page == prefix + Marker + (token + Quote + rest);
    MarkerDoesNotOverlap(prefix, token + Quote + rest);
    var after := page[|prefix| + |Marker|..];
    assert after == token + Quote + rest;
    assert after[|token|] == Quote[0];
    QuoteOccurrences(after);
    assert Text.OccursAt(after, Quote, |token|);
    forall k: nat | k < |token|
      ensures !Text.OccursAt(after, Quote, k)
    {
      assert after[k] == token[k];
    }
    Text.FindIsFirst(after, Quote, |token|);
    assert after[..|token|] == token;
  }

  /** The page's CSRF token, or the error that stops the setup: a page that
      cannot be read is a request error, a readable one yields what
      `GetCsrfToken` extracts from it. */
  function CsrfFrom(page: Http.Reply<string>): (r: Result<string, Errors.InboxCreationError>)
    ensures page.Text().Err? ==> r == Err(Errors.InboxCreationError.RquestError(page.Text().error))
    ensures page.Text().Ok? ==> r == GetCsrfToken(page.Text().value)
    ensures r.Ok? ==> page.Text().Ok? && Quote[0] !in r.value
  {
    match page.Text()
    case Err(cause) => Err(Errors.InboxCreationError.RquestError(cause))
    case Ok(text) => GetCsrfToken(text)
  }

  /** The first index request: a failed send is a request error; a
      non-success status is a creation error carrying the body, or "" when the
      body cannot be read. */
  function IndexFailure(reply: Http.Reply<string>): (e: Option<Errors.InboxCreationError>)
    ensures reply.Received? && !reply.status.IsSuccess() ==>
      e == Some(Errors.CreationError(if reply.text.Ok? then reply.text.value else ""))
    ensures reply.Received? && reply.status.IsSuccess() ==> e.None?
  {
    match reply
    case Unsent(cause) => Some(Errors.InboxCreationError.RquestError(cause))
    case Received(status, text, _) =>
      if status.IsSuccess() then None
      else Some(Errors.CreationError(match text case Ok(t) => t case Err(_) => ""))
  }

  /** The endpoints `new_inbox` talks to, each answering the request it is
      given: the home page, the index keyed by the CSRF token, the name check
      and the creation keyed by the name. */
  datatype Server = Server(
    firstPage: Http.Reply<string>,
    firstIndex: string -> Http.Reply<string>,
    check: string -> Http.Reply<string>,
    create: string -> Http.Reply<string>,
    secondPage: Http.Reply<string>,
    secondIndex: string -> Http.Reply<string>)

  /** The setup has got past the first index request. */
  predicate IndexPassed(server: Server) {
    CsrfFrom(server.firstPage).Ok? && IndexFailure(server.firstIndex(CsrfFrom(server.firstPage).value)).None?
  }

  /** `new_inbox(name, domain)`: the index, name check and creation requests,
      then the second index request whose JSON names the address. `readIndex`
      is the JSON reading of the trimmed body (its `email` field) and `parse`
      the address parser, neither of which is modelled. */
  function NewInbox<A>(name: string, server: Server, readIndex: string -> Result<string, string>,
                       parse: string -> Result<A, Errors.EmailAddressError>): (r: Result<A, Errors.InboxCreationError>)
    ensures CsrfFrom(server.firstPage).Err? ==> r == Err(CsrfFrom(server.firstPage).error)
    ensures IndexPassed(server) && server.check(name).Text().Ok? && server.check(name).Text().value != OkReply ==>
      r == Err(Errors.NameTaken(name))
    ensures IndexPassed(server) && server.check(name).Text() == Ok(OkReply) &&
            server.create(name).Text().Ok? && server.create(name).Text().value != OkReply ==>
      r == Err(Errors.CreationError(server.create(name).Text().value))
    ensures r.Ok? ==>
      IndexPassed(server) && server.check(name).Text() == Ok(OkReply) && server.create(name).Text() == Ok(OkReply)
  {
    match CsrfFrom(server.firstPage)
    case Err(e) => Err(e)
    case Ok(token) =>
      match IndexFailure(server.firstIndex(token))
      case Some(e) => Err(e)
      case None =>
        match server.check(name).Text()
        case Err(cause) => Err(Errors.InboxCreationError.RquestError(cause))
        case Ok(checked) =>
          if checked != OkReply then Err(Errors.NameTaken(name))
          else
            match server.create(name).Text()
            case Err(cause) => Err(Errors.InboxCreationError.RquestError(cause))
            case Ok(created) =>
              if created != OkReply then Err(Errors.CreationError(created))
              else
                match CsrfFrom(server.secondPage)
                case Err(e) => Err(e)
                case Ok(token2) =>
                  match server.secondIndex(token2).Text()
                  case Err(cause) => Err(Errors.InboxCreationError.RquestError(cause))
                  case Ok(body) =>
                    match readIndex(body)
                    case Err(e) => Err(Errors.CreationError(JsonPrefix + e))
                    case Ok(address) =>
                      match parse(address)
                      case Err(e) => Err(Errors.FromAddressError(e))
                      case Ok(a) => Ok(a)
  }

  /** The content fetched for the `k`-th message, which is message id
      `k + 2`. */
  function ContentOf(content: nat -> Http.Reply<string>, k: nat): Result<string, string>
  {
    content(k + 2).Text()
  }

  /** An entry of the inbox list. */
  datatype ListEntry = ListEntry(subject: string, from: string)

  /** `fetch_messages`: read the inbox list, then walk it from the back,
      skipping the first entry of that walk; the entry `i` places from the
      back is paired with the content of message id `i + 1`. `readList` is the
      JSON reading of the trimmed list body, and `content` answers the request
      for a message id. */
  method FetchMessages(list: Http.Reply<string>, readList: string -> Result<seq<ListEntry>, string>,
                       content: nat -> Http.Reply<string>)
    returns (r: Result<seq<Emails.PlainMessage>, Errors.MessageFetcherError>)
    ensures list.Text().Err? ==> r == Err(Errors.MessageFetcherError.RquestError(list.Text().error))
    ensures list.Text().Ok? && readList(list.Text().value).Err? ==>
      r == Err(Errors.FetchError(JsonPrefix + readList(list.Text().value).error))
    ensures list.Text().Ok? && readList(list.Text().value).Ok? ==>
      var entries := readList(list.Text().value).value;
      var n := |entries|;
      (r.Ok? <==> forall k: nat :: k < n - 1 ==> ContentOf(content, k).Ok?) &&
      (r.Ok? ==>
         |r.value| == (if n == 0 then 0 else n - 1) &&
         forall k: nat :: k < |r.value| ==>
           r.value[k] == Emails.PlainMessage(entries[n - 2 - k].from, entries[n - 2 - k].subject,
                                             ContentOf(content, k).value)) &&
      (r.Err? ==>
         exists k: nat :: k < n - 1 && ContentOf(content, k).Err? &&
           r.error == Errors.MessageFetcherError.RquestError(ContentOf(content, k).error) &&
           forall j: nat :: j < k ==> ContentOf(content, j).Ok?)
  {
    var entries: seq<ListEntry>;
    match list.Text() {
      case Err(cause) =>
        return Err(Errors.MessageFetcherError.RquestError(cause));
      case Ok(body) =>
        match readList(body) {
          case Err(e) =>
            return Err(Errors.FetchError(JsonPrefix + e));
          case Ok(es) =>
            entries := es;
        }
    }
    var n := |entries|;
    var messages: seq<Emails.PlainMessage> := [];
    var i := 1;
    while i < n
      invariant 1 <= i <= (if n == 0 then 1 else n)
      invariant |messages| == i - 1
      invariant forall k: nat :: k < i - 1 ==> ContentOf(content, k).Ok?
      invariant forall k: nat :: k < i - 1 ==>
        messages[k] == Emails.PlainMessage(entries[n - 2 - k].from, entries[n - 2 - k].subject,
                                           ContentOf(content, k).value)
    {
      var email := entries[n - 1 - i];
      assert content(i + 1).Text() == ContentOf(content, i - 1);
      match content(i + 1).Text() {
        case Err(cause) =>
          return Err(Errors.MessageFetcherError.RquestError(cause));
        case Ok(body) =>
          messages := messages + [Emails.PlainMessage(email.from, email.subject, body)];
      }
      i := i + 1;
    }
    return Ok(messages);
  }
}
