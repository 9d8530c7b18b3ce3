/** The mail.tm provider (src/provider/mail_tm.rs): the mapping of its
    records to messages, its single domain, the login-first account setup with
    the classification of a rejected creation, and the message loop. */
module MailTm {
  import opened Wrappers
  import Text
  import Http
  import Domains
  import Emails
  import Errors
  import Sampling

  datatype EmailListEntry = EmailListEntry(id: string)
  datatype FromHeader = FromHeader(address: string, name: string)
  datatype Email = Email(from: FromHeader, subject: string, text: string)
  datatype ViolationEntry = ViolationEntry(propertyPath: string, message: string)
  datatype Violation = Violation(status: nat, violations: seq<ViolationEntry>)

  /** `From<Email> for Message`: every field is present; the body is the
      plain-text part. */
  function ToMessage(e: Email): (m: Emails.Message)
    ensures m.from.Some? && m.subject.Some? && m.body.Some?
  {
    Emails.Message(Some(e.from.address), Some(e.subject), Some(e.text))
  }

  /** The conversion keeps the sender address, subject and text, and only
      those: the sender's display name is dropped. */
  lemma ToMessageKeeps(a: Email, b: Email)
    ensures ToMessage(a) == ToMessage(b) <==>
      a.from.address == b.from.address && a.subject == b.subject && a.text == b.text
  {
  }

  /** `get_domains`. */
  function GetDomains(): (ds: seq<Domains.Domain>)
  {
    [Domains.EdnyNet]
  }

  /** The only domain mail.tm offers is edny.net. */
  lemma OnlyEdnyNet(d: Domains.Domain)
    ensures d in GetDomains() <==> d == Domains.EdnyNet
    ensures |GetDomains()| > 0
  {
  }

  const LoginFailedPrefix := "Failed to login into: "
  const CreateFailedPrefix := "Failed to create inbox: "
  const UnknownError := "Unknown error"
  const AlreadyUsed := "already used."
  const NotValid := "is not valid."

  /** `try_login`: a successful response yields its token; any other
      response is a setup error naming the address; a transport or decoding
      failure is a request error. */
  function TryLogin(address: Emails.EmailAddress, reply: Http.Reply<string>): (r: Result<string, Errors.CreationFailure>)
    ensures r.Ok? <==> reply.Received? && reply.status.IsSuccess() && reply.json.Ok?
    ensures r.Ok? ==> r.value == reply.json.value
    ensures reply.Received? && !reply.status.IsSuccess() ==>
      r == Err(Errors.SetupError(LoginFailedPrefix + Emails.ToString(address)))
  {
    match reply
    case Unsent(cause) => Err(Errors.Reported(Errors.InboxCreationError.RquestError(cause)))
    case Received(status, _, json) =>
      if status.IsSuccess() then
        match json
        case Ok(token) => Ok(token)
        case Err(cause) => Err(Errors.Reported(Errors.InboxCreationError.RquestError(cause)))
      else Err(Errors.SetupError(LoginFailedPrefix + Emails.ToString(address)))
  }

  /** A 422 rejection with exactly one violation, on the address. */
  predicate SingleAddressViolation(v: Violation) {
    v.status == 422 && |v.violations| == 1 && v.violations[0].propertyPath == "address"
  }

  /** No message ends with both "already used." and "is not valid.". */
  lemma VerdictsExclusive(m: string)
    ensures Text.EndsWith(m, AlreadyUsed) ==> !Text.EndsWith(m, NotValid)
  {
    if Text.EndsWith(m, AlreadyUsed) {
      assert m[|m| - 3] == AlreadyUsed[10] == 'e';
    }
  }

  /** How a rejected account creation is reported. */
  function ClassifyViolation(address: Emails.EmailAddress, v: Violation): (r: Errors.CreationFailure)
    ensures r == Errors.Reported(Errors.NameTaken(Emails.ToString(address))) <==>
      SingleAddressViolation(v) && Text.EndsWith(v.violations[0].message, AlreadyUsed)
    ensures r == Errors.Reported(Errors.InvalidName(Emails.ToString(address))) <==>
      SingleAddressViolation(v) && Text.EndsWith(v.violations[0].message, NotValid)
    ensures r.SetupError? <==>
      !(SingleAddressViolation(v) &&
        (Text.EndsWith(v.violations[0].message, AlreadyUsed) || Text.EndsWith(v.violations[0].message, NotValid)))
    ensures r.SetupError? ==>
      r.detail == CreateFailedPrefix + (if |v.violations| == 0 then UnknownError else v.violations[0].message)
  {
    if SingleAddressViolation(v) && Text.EndsWith(v.violations[0].message, AlreadyUsed) then
      Errors.Reported(Errors.NameTaken(Emails.ToString(address)))
    else if SingleAddressViolation(v) && Text.EndsWith(v.violations[0].message, NotValid) then
      VerdictsExclusive(v.violations[0].message);
      Errors.Reported(Errors.InvalidName(Emails.ToString(address)))
    else
      Errors.SetupError(CreateFailedPrefix + (if |v.violations| == 0 then UnknownError else v.violations[0].message))
  }

  /** The account setup of `new_inbox` once the address is fixed: log in; if
      that fails, create the account and log in again. Its value is the token
      the inbox authenticates with. */
  function Setup(address: Emails.EmailAddress, firstLogin: Http.Reply<string>,
                 created: Http.Reply<Violation>, secondLogin: Http.Reply<string>): (r: Result<string, Errors.CreationFailure>)
    ensures r.Ok? <==>
      (TryLogin(address, firstLogin).Ok? ||
       (created.Received? && created.status.IsSuccess() && TryLogin(address, secondLogin).Ok?))
    ensures r.Ok? ==> r == TryLogin(address, firstLogin) || r == TryLogin(address, secondLogin)
  {
    match TryLogin(address, firstLogin)
    case Ok(token) => Ok(token)
    case Err(_) =>
      match created
      case Unsent(cause) => Err(Errors.Reported(Errors.InboxCreationError.RquestError(cause)))
      case Received(status, _, json) =>
        if !status.IsSuccess() then
          match json
          case Err(cause) => Err(Errors.Reported(Errors.InboxCreationError.RquestError(cause)))
          case Ok(v) => Err(ClassifyViolation(address, v))
        else TryLogin(address, secondLogin)
  }

  /** When the first login succeeds, its token is used and neither the
      creation request nor the second login affects the outcome. */
  lemma LoginFirst(address: Emails.EmailAddress, firstLogin: Http.Reply<string>,
                   created1: Http.Reply<Violation>, second1: Http.Reply<string>,
                   created2: Http.Reply<Violation>, second2: Http.Reply<string>)
    requires TryLogin(address, firstLogin).Ok?
    ensures Setup(address, firstLogin, created1, second1) == TryLogin(address, firstLogin)
    ensures Setup(address, firstLogin, created1, second1) == Setup(address, firstLogin, created2, second2)
  {
  }

  /** Every token the setup returns is one a successful login reply carried. */
  lemma TokenComesFromLogin(address: Emails.EmailAddress, firstLogin: Http.Reply<string>,
                            created: Http.Reply<Violation>, secondLogin: Http.Reply<string>)
    ensures Setup(address, firstLogin, created, secondLogin).Ok? ==>
      Setup(address, firstLogin, created, secondLogin) == TryLogin(address, firstLogin) ||
      (created.Received? && created.status.IsSuccess() &&
       Setup(address, firstLogin, created, secondLogin) == TryLogin(address, secondLogin))
  {
  }

  /** After a successful creation, a failed second login is reported as a
      setup error naming the address. */
  lemma LoginAfterCreationFails(address: Emails.EmailAddress, firstLogin: Http.Reply<string>,
                                created: Http.Reply<Violation>, secondLogin: Http.Reply<string>)
    requires TryLogin(address, firstLogin).Err?
    requires created.Received? && created.status.IsSuccess()
    requires secondLogin.Received? && !secondLogin.status.IsSuccess()
    ensures Setup(address, firstLogin, created, secondLogin) ==
      Err(Errors.SetupError(LoginFailedPrefix + Emails.ToString(address)))
  {
  }

  /** A rejected creation is reported as its classification. */
  lemma RejectionClassified(address: Emails.EmailAddress, firstLogin: Http.Reply<string>,
                            created: Http.Reply<Violation>, secondLogin: Http.Reply<string>)
    requires TryLogin(address, firstLogin).Err?
    requires created.Received? && !created.status.IsSuccess() && created.json.Ok?
    ensures Setup(address, firstLogin, created, secondLogin) == Err(ClassifyViolation(address, created.json.value))
  {
  }

  /** `MailTmInbox`: the address and the client, whose default headers carry
      the bearer token. */
  class MailTmInbox {
    const email: Emails.EmailAddress
    const client: Http.Client

    constructor (email: Emails.EmailAddress, client: Http.Client)
      ensures this.email == email && this.client == client
    {
      this.email := email;
      this.client := client;
    }

    /** `get_email_address`: the address as `name@domain`, which splits back
        into the name and the domain. */
    function GetEmailAddress(): (s: string)
      ensures Emails.SplitAtLastAt(s) == Some((email.name, Domains.ToString(email.domain)))
    {
      Emails.SplitRoundTrip(email);
      Emails.ToString(email)
    }
  }

  /** `new_inbox`: fix the address, run the setup, and on success add the
      token to a fresh client's headers. */
  method NewInbox(name: Option<string>, domain: Option<Domains.Domain>, pick: nat, randomName: string,
                  firstLogin: Http.Reply<string>, created: Http.Reply<Violation>, secondLogin: Http.Reply<string>)
    returns (r: Result<MailTmInbox, Errors.CreationFailure>)
    requires Sampling.IsRandomName(randomName)
    ensures var address := Sampling.DefaultAddress(name, domain, GetDomains(), pick, randomName);
      var setup := Setup(address, firstLogin, created, secondLogin);
      (r.Ok? <==> setup.Ok?) &&
      (r.Err? ==> r.error == setup.error) &&
      (r.Ok? ==> r.value.email == address && fresh(r.value.client) &&
                 r.value.client.headers == [Http.Header("Authorization", "Bearer " + setup.value)])
  {
    var address := Sampling.DefaultAddress(name, domain, GetDomains(), pick, randomName);
    match Setup(address, firstLogin, created, secondLogin) {
      case Err(e) =>
        return Err(e);
      case Ok(token) =>
        var client := new Http.Client();
        client.AppendHeader("Authorization", "Bearer " + token);
        var inbox := new MailTmInbox(address, client);
        return Ok(inbox);
    }
  }

  /** The JSON body of message `id`, as `send()?.json()?` reads it. */
  function Fetched(fetch: string -> Http.Reply<Email>, entry: EmailListEntry): Result<Email, string>
  {
    fetch(entry.id).Json()
  }

  /** `get_messages`: read the list, then fetch each entry in turn; the first
      failure ends the loop, otherwise there is one message per entry, in list
      order. */
  method GetMessages(list: Http.Reply<seq<EmailListEntry>>, fetch: string -> Http.Reply<Email>)
    returns (r: Result<seq<Emails.Message>, Errors.InboxError>)
    ensures list.Json().Err? ==> r == Err(Errors.InboxRequestError(list.Json().error))
    ensures list.Json().Ok? ==>
      var entries := list.Json().value;
      (r.Ok? <==> forall i :: 0 <= i < |entries| ==> Fetched(fetch, entries[i]).Ok?) &&
      (r.Ok? ==>
         |r.value| == |entries| &&
         forall i :: 0 <= i < |entries| ==> r.value[i] == ToMessage(Fetched(fetch, entries[i]).value)) &&
      (r.Err? ==>
         exists k :: 0 <= k < |entries| && Fetched(fetch, entries[k]).Err? &&
           r.error == Errors.InboxRequestError(Fetched(fetch, entries[k]).error) &&
           forall i :: 0 <= i < k ==> Fetched(fetch, entries[i]).Ok?)
  {
    var entries: seq<EmailListEntry>;
    match list.Json() {
      case Err(cause) =>
        return Err(Errors.InboxRequestError(cause));
      case Ok(es) =>
        entries := es;
    }
    var messages: seq<Emails.Message> := [];
    var i := 0;
    while i < |entries|
      invariant 0 <= i <= |entries|
      invariant |messages| == i
      invariant forall j :: 0 <= j < i ==> Fetched(fetch, entries[j]).Ok?
      invariant forall j :: 0 <= j < i ==> messages[j] == ToMessage(Fetched(fetch, entries[j]).value)
    {
      match Fetched(fetch, entries[i]) {
        case Err(cause) =>
          return Err(Errors.InboxRequestError(cause));
        case Ok(email) =>
          messages := messages + [ToMessage(email)];
      }
      i := i + 1;
    }
    return Ok(messages);
  }
}
