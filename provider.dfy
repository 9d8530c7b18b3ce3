/** The provider layer of src/provider/mod.rs: a provider seen as its type
    tag and its domain list, the default methods of the `Provider` trait, the
    registry lookup `get_provider`, and `Inbox`. */
module Providers {
  import opened Wrappers
  import Domains
  import Emails
  import Errors
  import ProviderTypes
  import Sampling
  import MailTm
  import Muellmail

  /** A provider as the selection logic sees it: `get_provider_type` and
      `get_domains`. */
  datatype Provider = Provider(kind: ProviderTypes.ProviderType, domains: seq<Domains.Domain>)

  /** `ProviderType::get_provider`: the provider behind each tag, with the
      domain list its file declares. Every one has a domain to draw. */
  function GetProvider(t: ProviderTypes.ProviderType): (p: Provider)
    ensures p.kind == t
    ensures |p.domains| > 0
  {
    match t
    case MailTm => Provider(t, MailTm.GetDomains())
    case Muellmail => Provider(t, Muellmail.GetDomains())
  }

  /** How a default method ends: with an error raised before any request, or
      by handing an address to the provider's `new_inbox_from_email`. */
  datatype Dispatch =
    | Fail(error: Errors.InboxCreationError)
    | FromEmail(email: Emails.EmailAddress)

  /** `new_random_inbox_from_domain`: a domain the provider does not list is
      refused, naming the domain and the provider; otherwise the address is a
      random name at that domain. */
  function NewRandomInboxFromDomain(p: Provider, domain: Domains.Domain, randomName: string): (r: Dispatch)
    requires Sampling.IsRandomName(randomName)
    ensures domain !in p.domains <==> r.Fail?
    ensures r.Fail? ==> r.error == Errors.InvalidDomainForProvider(Domains.ToString(domain), p.kind)
    ensures r.FromEmail? ==> r.email.domain == domain && Sampling.IsRandomName(r.email.name)
  {
    if domain !in p.domains then
      Fail(Errors.InvalidDomainForProvider(Domains.ToString(domain), p.kind))
    else
      FromEmail(Emails.EmailAddress(randomName, domain))
  }

  /** `new_random_inbox`: draw one of the provider's domains and go through
      `new_random_inbox_from_domain`; the membership check there always
      passes. */
  function NewRandomInbox(p: Provider, pick: nat, randomName: string): (r: Dispatch)
    requires |p.domains| > 0
    requires Sampling.IsRandomName(randomName)
    ensures r.FromEmail?
    ensures r.email.domain in p.domains && Sampling.IsRandomName(r.email.name)
  {
    NewRandomInboxFromDomain(p, Sampling.Choose(p.domains, pick), randomName)
  }

  /** `new_random_inbox_from_name`: the name as given, at a domain drawn from
      the provider's list. */
  function NewRandomInboxFromName(p: Provider, name: string, pick: nat): (r: Dispatch)
    requires |p.domains| > 0
    ensures r.FromEmail? && r.email.name == name && r.email.domain in p.domains
  {
    FromEmail(Emails.EmailAddress(name, Sampling.Choose(p.domains, pick)))
  }

  /** The trait's default `new_inbox_from_email`. */
  function DefaultNewInboxFromEmail<I>(email: Emails.EmailAddress): (r: Result<I, Errors.InboxCreationError>)
    ensures r == Err(Errors.ProviderNotImplemented)
  {
    Err(Errors.ProviderNotImplemented)
  }

  /** Completes a dispatch with the provider's `new_inbox_from_email`. */
  function Run<I>(d: Dispatch, newInboxFromEmail: Emails.EmailAddress -> Result<I, Errors.InboxCreationError>)
    : (r: Result<I, Errors.InboxCreationError>)
    ensures d.Fail? ==> r == Err(d.error)
    ensures d.FromEmail? ==> r == newInboxFromEmail(d.email)
  {
    match d
    case Fail(e) => Err(e)
    case FromEmail(email) => newInboxFromEmail(email)
  }

  /** With the default `new_inbox_from_email`, every path fails: with the
      refusal raised before it, or with `ProviderNotImplemented`. */
  lemma DefaultNeverCreates<I>(d: Dispatch)
    ensures Run(d, DefaultNewInboxFromEmail<I>).Err?
    ensures d.FromEmail? ==> Run(d, DefaultNewInboxFromEmail<I>) == Err(Errors.ProviderNotImplemented)
  {
  }

  /** Every registered type has a provider, and the registry lists each type
      once. */
  lemma RegistryTotal(t: ProviderTypes.ProviderType)
    ensures t in ProviderTypes.AllProviders()
    ensures GetProvider(t).kind == t
  {
    ProviderTypes.AllProvidersListsEachOnce(t);
  }

  /** `Inbox`: the address and the message fetcher behind it. The fetcher is
      a state and a step that answers one `get_messages` call and yields the
      next state. */
  class Inbox<S> {
    const emailAddress: Emails.EmailAddress
    const fetch: S -> (Result<seq<Emails.Message>, Errors.InboxError>, S)
    var fetcherState: S

    constructor (emailAddress: Emails.EmailAddress, fetch: S -> (Result<seq<Emails.Message>, Errors.InboxError>, S), state: S)
      ensures this.emailAddress == emailAddress && this.fetch == fetch && fetcherState == state
    {
      this.emailAddress := emailAddress;
      this.fetch := fetch;
      fetcherState := state;
    }

    /** `get_email_address`. */
    function GetEmailAddress(): (a: Emails.EmailAddress)
      ensures a == emailAddress
    {
      emailAddress
    }

    /** `get_messages`: exactly the fetcher's answer; the fetcher moves on to
        its next state and the address stays. */
    method GetMessages() returns (r: Result<seq<Emails.Message>, Errors.InboxError>)
      modifies this
      ensures (r, fetcherState) == fetch(old(fetcherState))
    {
      var step := fetch(fetcherState);
      r := step.0;
      fetcherState := step.1;
    }
  }
}
