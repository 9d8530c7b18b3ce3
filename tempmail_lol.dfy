/** The tempmail.lol provider (src/provider/tempmail_lol.rs): its records, its
    domain list and fixed answers, the two inbox-creation paths and the
    message fetch. */
module TempMailLol {
  import opened Wrappers
  import Http
  import Emails
  import Errors

  /** The domains this revision's `Domain` enum offers for tempmail.lol. */
  datatype Domain =
    | TerribleCoffeeOrg | UnderseaGolfCom | JailBreakEverythingCom
    | Awesome47 | ExpiredToasterOrg | UndeadBankCom

  /** An email as the inbox endpoint returns it. */
  datatype Email = Email(from: string, to: string, subject: string, body: string, date: nat)

  /** `From<Email> for Message`. */
  function ToMessage(e: Email): (m: Emails.PlainMessage)
  {
    Emails.PlainMessage(e.from, e.subject, e.body)
  }

  /** The conversion keeps sender, subject and body, and drops the recipient
      and the date. */
  lemma ToMessageKeeps(a: Email, b: Email)
    ensures ToMessage(a) == ToMessage(b) <==> a.from == b.from && a.subject == b.subject && a.body == b.body
  {
  }

  /** `get_domains`. */
  function GetDomains(): (ds: seq<Domain>)
  {
    [TerribleCoffeeOrg, UnderseaGolfCom, JailBreakEverythingCom, Awesome47, ExpiredToasterOrg, UndeadBankCom]
  }

  /** `get_random_domain`: the provider draws no domain itself. */
  function GetRandomDomain(): (r: Result<Domain, Errors.InboxCreationError>)
    ensures r.Err? && Errors.CreationMessage(r.error) == Errors.DomainNotSupportedText
  {
    Err(Errors.DomainNotSupported)
  }

  /** `support_custom_domains`: the caller may name the domain. */
  function SupportCustomDomains(): (b: bool)
    ensures b
  {
    true
  }

  /** The JSON body of the creation request: the prefix, and the domain when
      one is given, sent as its display name. */
  datatype CreateRequest = CreateRequest(prefix: string, domain: Option<Domain>)

  /** The creation response. */
  datatype InboxResponse = InboxResponse(address: string, token: string)

  /** What a created inbox holds: its address and the token its fetcher
      presents. */
  datatype Session<A> = Session(address: A, token: string)

  /** The response handling both creation paths share: a non-success status
      is a creation error carrying the body, or "" when it cannot be read;
      otherwise the JSON gives the token and the address, which `parse` reads. */
  function Created<A>(reply: Http.Reply<InboxResponse>, parse: string -> Result<A, Errors.EmailAddressError>)
    : (r: Result<Session<A>, Errors.InboxCreationError>)
    ensures reply.Unsent? ==> r == Err(Errors.InboxCreationError.RquestError(reply.cause))
    ensures reply.Received? && !reply.status.IsSuccess() ==>
      r == Err(Errors.CreationError(if reply.text.Ok? then reply.text.value else ""))
    ensures r.Ok? <==>
      reply.Received? && reply.status.IsSuccess() && reply.json.Ok? && parse(reply.json.value.address).Ok?
    ensures r.Ok? ==>
      r.value == Session(parse(reply.json.value.address).value, reply.json.value.token)
  {
    match reply
    case Unsent(cause) => Err(Errors.InboxCreationError.RquestError(cause))
    case Received(status, text, json) =>
      if !status.IsSuccess() then
        Err(Errors.CreationError(match text case Ok(t) => t case Err(_) => ""))
      else
        match json
        case Err(cause) => Err(Errors.InboxCreationError.RquestError(cause))
        case Ok(inbox) =>
          match parse(inbox.address)
          case Err(e) => Err(Errors.FromAddressError(e))
          case Ok(a) => Ok(Session(a, inbox.token))
  }

  /** `new_random_inbox_from_name`: the request names only the prefix. */
  function NewRandomInboxFromName<A>(name: string, send: CreateRequest -> Http.Reply<InboxResponse>,
                                     parse: string -> Result<A, Errors.EmailAddressError>)
    : (r: Result<Session<A>, Errors.InboxCreationError>)
    ensures var reply := send(CreateRequest(name, None));
      (r.Ok? <==> reply.Received? && reply.status.IsSuccess() && reply.json.Ok? && parse(reply.json.value.address).Ok?) &&
      (r.Ok? ==> r.value.token == reply.json.value.token && Ok(r.value.address) == parse(reply.json.value.address))
  {
    Created(send(CreateRequest(name, None)), parse)
  }

  /** `new_inbox`: the request names the prefix and the domain. */
  function NewInbox<A>(name: string, domain: Domain, send: CreateRequest -> Http.Reply<InboxResponse>,
                       parse: string -> Result<A, Errors.EmailAddressError>)
    : (r: Result<Session<A>, Errors.InboxCreationError>)
    ensures var reply := send(CreateRequest(name, Some(domain)));
      (r.Ok? <==> reply.Received? && reply.status.IsSuccess() && reply.json.Ok? && parse(reply.json.value.address).Ok?) &&
      (r.Ok? ==> r.value.token == reply.json.value.token && Ok(r.value.address) == parse(reply.json.value.address))
  {
    Created(send(CreateRequest(name, Some(domain))), parse)
  }

  /** The two paths differ only in the request: the name-only path sends no
      domain, the other sends the one given, and both send the name as the
      prefix. Answered alike, they end alike. */
  lemma CreationPaths<A>(name: string, domain: Domain, send: CreateRequest -> Http.Reply<InboxResponse>,
                         parse: string -> Result<A, Errors.EmailAddressError>)
    ensures send(CreateRequest(name, None)) == send(CreateRequest(name, Some(domain))) ==>
      NewRandomInboxFromName(name, send, parse) == NewInbox(name, domain, send, parse)
  {
  }

  /** `fetch_messages`: a non-success status is reported with the status;
      otherwise each email becomes a message, in response order. */
  function FetchMessages(reply: Http.Reply<seq<Email>>): (r: Result<seq<Emails.PlainMessage>, Errors.MessageFetcherError>)
    ensures reply.Unsent? ==> r == Err(Errors.MessageFetcherError.RquestError(reply.cause))
    ensures reply.Received? && !reply.status.IsSuccess() ==> r == Err(Errors.InvalidResponseStatus(reply.status))
    ensures r.Ok? <==> reply.Received? && reply.status.IsSuccess() && reply.json.Ok?
    ensures r.Ok? ==>
      |r.value| == |reply.json.value| &&
      forall i :: 0 <= i < |r.value| ==> r.value[i] == ToMessage(reply.json.value[i])
  {
    match reply
    case Unsent(cause) => Err(Errors.MessageFetcherError.RquestError(cause))
    case Received(status, _, json) =>
      if !status.IsSuccess() then Err(Errors.InvalidResponseStatus(status))
      else
        match json
        case Err(cause) => Err(Errors.MessageFetcherError.RquestError(cause))
        case Ok(emails) => Ok(seq(|emails|, i requires 0 <= i < |emails| => ToMessage(emails[i])))
  }
}
