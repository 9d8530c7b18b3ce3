/** The Muellmail provider (src/provider/muellmail.rs): its records, its
    domain list, the anonymous sign-in check and the message query. */
module Muellmail {
  import opened Wrappers
  import Http
  import Domains
  import Emails
  import Errors
  import Sampling

  /** An email as the GraphQL query returns it. */
  datatype Email = Email(id: string, subject: string, sender: string, senderName: string,
                         read: Option<string>, createdAt: string, hasHtml: bool, hasText: bool,
                         html: Option<string>, text: Option<string>, sizeInBytes: int)

  /** `From<Email> for Message`: sender and subject are always present; the
      body is the text part, absent when the email has none. */
  function ToMessage(e: Email): (m: Emails.Message)
    ensures m.from.Some? && m.subject.Some?
    ensures m.body.Some? <==> e.text.Some?
  {
    Emails.Message(Some(e.sender), Some(e.subject), e.text)
  }

  /** The conversion keeps the sender, the subject and the text part, and
      nothing else. */
  lemma ToMessageKeeps(a: Email, b: Email)
    ensures ToMessage(a) == ToMessage(b) <==>
      a.sender == b.sender && a.subject == b.subject && a.text == b.text
  {
  }

  /** `get_domains`. */
  function GetDomains(): (ds: seq<Domains.Domain>)
  {
    [ Domains.TenMinMailDe, Domains.TenMinutenMailXyz, Domains.ExistiertNet, Domains.FliegenderFish,
      Domains.JagaEmail, Domains.MdzEmail, Domains.MuellMailCom, Domains.MuelleMailCom,
      Domains.MuellMonster, Domains.MuellIcu, Domains.MuellIo, Domains.MuellXyz,
      Domains.MagSpamNet, Domains.FukaruCom, Domains.OidaIcu, Domains.PapierkorbMe,
      Domains.SpamCare, Domains.TonneTo, Domains.UltraFyi, Domains.WegwerfEmailDe,
      Domains.DsgvoParty, Domains.KnickerbockerbanDe, Domains.LambsauceDe, Domains.RamenMailDe,
      Domains.Ji5De, Domains.Ji6De, Domains.Ji7De, Domains.SudernDe,
      Domains.HihiLol, Domains.KeinDate, Domains.HolioDay, Domains.CornHolioDay,
      Domains.BungHolioDay, Domains.StacysMom ]
  }

  /** The list is the catalogue in declaration order without its last entry. */
  lemma DomainsAreCataloguePrefix()
    ensures |Domains.AllDomains| == 35
    ensures GetDomains() == Domains.AllDomains[..34]
    ensures Domains.AllDomains[34] == Domains.EdnyNet
  {
    Domains.AllDomainsListsEvery(Domains.EdnyNet);
  }

  /** The list has 34 distinct entries: every domain of the catalogue except
      edny.net. */
  lemma DomainsAllButEdnyNet(d: Domains.Domain)
    ensures |GetDomains()| == 34
    ensures forall i, j :: 0 <= i < j < |GetDomains()| ==> GetDomains()[i] != GetDomains()[j]
    ensures d in GetDomains() <==> d != Domains.EdnyNet
  {
    DomainsAreCataloguePrefix();
    Domains.AllDomainsDistinct();
    Domains.AllDomainsListsEvery(d);
    if d != Domains.EdnyNet {
      assert Domains.Index(d) != 34;
      assert GetDomains()[Domains.Index(d)] == d;
    } else {
      forall i | 0 <= i < 34
        ensures GetDomains()[i] != d
      {
        assert Domains.AllDomains[i] != Domains.AllDomains[34];
      }
    }
  }

  const CallbackUrl := "https://muellmail.com/en"
  const InvalidUrlPrefix := "Invalid response url "
  const InvalidStatusPrefix := "Invalid response status "

  /** The form posted to the anonymous sign-in endpoint. */
  function AnonForm(address: Emails.EmailAddress, csrfToken: string): seq<(string, string)>
  {
    [("redirect", "false"), ("muellmail", Emails.ToString(address)), ("csrfToken", csrfToken),
     ("callbackUrl", CallbackUrl), ("json", "true")]
  }

  /** `new_inbox`: fix the address, fetch a CSRF token, sign in anonymously
      with the address and the token, and accept only the expected redirect.
      `anon` gives the sign-in reply, carrying the redirect URL, for the form
      posted. The value is the inbox's address. */
  function NewInbox(name: Option<string>, domain: Option<Domains.Domain>, pick: nat, randomName: string,
                    csrf: Http.Reply<string>, anon: seq<(string, string)> -> Http.Reply<string>)
    : (r: Result<Emails.EmailAddress, Errors.CreationFailure>)
    requires Sampling.IsRandomName(randomName)
    ensures var address := Sampling.DefaultAddress(name, domain, GetDomains(), pick, randomName);
      (r.Ok? <==> csrf.Json().Ok? && anon(AnonForm(address, csrf.Json().value)).Json() == Ok(CallbackUrl)) &&
      (r.Ok? ==> r.value == address)
    ensures csrf.Json().Err? ==> r == Err(Errors.Reported(Errors.InboxCreationError.RquestError(csrf.Json().error)))
    ensures var address := Sampling.DefaultAddress(name, domain, GetDomains(), pick, randomName);
      csrf.Json().Ok? && anon(AnonForm(address, csrf.Json().value)).Json().Ok? ==>
      var url := anon(AnonForm(address, csrf.Json().value)).Json().value;
      url != CallbackUrl ==> r == Err(Errors.SetupError(InvalidUrlPrefix + url))
  {
    var address := Sampling.DefaultAddress(name, domain, GetDomains(), pick, randomName);
    match csrf.Json()
    case Err(cause) => Err(Errors.Reported(Errors.InboxCreationError.RquestError(cause)))
    case Ok(token) =>
      match anon(AnonForm(address, token)).Json()
      case Err(cause) => Err(Errors.Reported(Errors.InboxCreationError.RquestError(cause)))
      case Ok(url) =>
        if url != CallbackUrl then
          Err(Errors.SetupError(InvalidUrlPrefix + url))
        else Ok(address)
  }

  /** The form names the address as `name@domain` and passes the token on. */
  lemma AnonFormCarriesAddress(address: Emails.EmailAddress, csrfToken: string)
    ensures ("muellmail", Emails.ToString(address)) in AnonForm(address, csrfToken)
    ensures ("csrfToken", csrfToken) in AnonForm(address, csrfToken)
    ensures ("callbackUrl", CallbackUrl) in AnonForm(address, csrfToken)
  {
    assert AnonForm(address, csrfToken)[1] == ("muellmail", Emails.ToString(address));
    assert AnonForm(address, csrfToken)[2] == ("csrfToken", csrfToken);
    assert AnonForm(address, csrfToken)[3] == ("callbackUrl", CallbackUrl);
  }

  /** `get_messages`: the session must answer 200 before the mail query is
      made; the query's emails become messages one for one, in order. */
  function GetMessages(session: Http.Reply<string>, query: Http.Reply<seq<Email>>)
    : (r: Result<seq<Emails.Message>, Errors.InboxError>)
    ensures session.Unsent? ==> r == Err(Errors.InboxRequestError(session.cause))
    ensures session.Received? && session.status.code != 200 ==>
      r == Err(Errors.GetMessageError(InvalidStatusPrefix + session.status.display))
    ensures r.Ok? <==> session.Received? && session.status.code == 200 && query.Json().Ok?
    ensures r.Ok? ==>
      |r.value| == |query.Json().value| &&
      forall i :: 0 <= i < |r.value| ==> r.value[i] == ToMessage(query.Json().value[i])
  {
    match session
    case Unsent(cause) => Err(Errors.InboxRequestError(cause))
    case Received(status, _, _) =>
      if status.code != 200 then
        Err(Errors.GetMessageError(InvalidStatusPrefix + status.display))
      else
        match query.Json()
        case Err(cause) => Err(Errors.InboxRequestError(cause))
        case Ok(emails) => Ok(seq(|emails|, i requires 0 <= i < |emails| => ToMessage(emails[i])))
  }

  /** A session status other than 200 decides the outcome before the query:
      whatever the query would have answered makes no difference. */
  lemma StatusCheckedBeforeQuery(session: Http.Reply<string>, q1: Http.Reply<seq<Email>>, q2: Http.Reply<seq<Email>>)
    requires session.Received? && session.status.code != 200
    ensures GetMessages(session, q1) == GetMessages(session, q2)
    ensures GetMessages(session, q1).Err? && GetMessages(session, q1).error.GetMessageError?
  {
  }

  /** `get_email_address`: the address as `name@domain`, which splits back
      into the name and the domain. */
  function GetEmailAddress(email: Emails.EmailAddress): (s: string)
    ensures Emails.SplitAtLastAt(s) == Some((email.name, Domains.ToString(email.domain)))
  {
    Emails.SplitRoundTrip(email);
    Emails.ToString(email)
  }
}
