/** The inbox builder of src/temp_mail.rs: three optional settings, and
    `create_inbox`, which picks the provider type and then one of four ways
    of asking that provider for an inbox. */
module TempMail {
  import opened Wrappers
  import Domains
  import Emails
  import Errors
  import ProviderTypes
  import Sampling
  import Providers
  import MailTm
  import Muellmail

  datatype TempMail = TempMail(providerType: Option<ProviderTypes.ProviderType>,
                               domain: Option<Domains.Domain>,
                               name: Option<string>)

  /** `TempMail::new`: nothing chosen yet. */
  function New(): (t: TempMail)
    ensures t.providerType.None? && t.domain.None? && t.name.None?
  {
    TempMail(None, None, None)
  }

  /** The `provider_type` setter. */
  function WithProviderType(t: TempMail, p: ProviderTypes.ProviderType): (r: TempMail)
    ensures r.providerType == Some(p) && r.domain == t.domain && r.name == t.name
  {
    t.(providerType := Some(p))
  }

  /** The `domain` setter. */
  function WithDomain(t: TempMail, d: Domains.Domain): (r: TempMail)
    ensures r.domain == Some(d) && r.providerType == t.providerType && r.name == t.name
  {
    t.(domain := Some(d))
  }

  /** The `name` setter. */
  function WithName(t: TempMail, n: string): (r: TempMail)
    ensures r.name == Some(n) && r.providerType == t.providerType && r.domain == t.domain
  {
    t.(name := Some(n))
  }

  /** A later call of a setter overwrites an earlier one, and setters of
      different fields commute. */
  lemma SettersOverwriteAndCommute(t: TempMail, p: ProviderTypes.ProviderType, q: ProviderTypes.ProviderType,
                                   d: Domains.Domain, e: Domains.Domain, n: string, m: string)
    ensures WithProviderType(WithProviderType(t, p), q) == WithProviderType(t, q)
    ensures WithDomain(WithDomain(t, d), e) == WithDomain(t, e)
    ensures WithName(WithName(t, n), m) == WithName(t, m)
    ensures WithDomain(WithProviderType(t, p), d) == WithProviderType(WithDomain(t, d), p)
    ensures WithName(WithProviderType(t, p), n) == WithProviderType(WithName(t, n), p)
    ensures WithName(WithDomain(t, d), n) == WithDomain(WithName(t, n), d)
  {
  }

  /** The random values one `create_inbox` call may draw: the provider type
      (`rand::random`), the domain pick (`choose`) and the random name. */
  datatype Draws = Draws(providerIndex: nat, domainPick: nat, randomName: string)

  predicate ValidDraws(registry: seq<ProviderTypes.ProviderType>, draws: Draws) {
    draws.providerIndex < |registry| && Sampling.IsRandomName(draws.randomName)
  }

  /** The first type in `registry` whose provider lists `d`: the
      `iter().find` of `create_inbox`. */
  function FindProvider(registry: seq<ProviderTypes.ProviderType>, d: Domains.Domain)
    : (r: Option<ProviderTypes.ProviderType>)
    ensures r.Some? ==> r.value in registry && d in Providers.GetProvider(r.value).domains
    ensures r.None? <==> forall t :: t in registry ==> d !in Providers.GetProvider(t).domains
  {
    if registry == [] then None
    else if d in Providers.GetProvider(registry[0]).domains then Some(registry[0])
    else
      assert forall t :: t in registry ==> t == registry[0] || t in registry[1..];
      FindProvider(registry[1..], d)
  }

  /** The type found is the first that lists the domain: when the entry at
      `i` lists it and none before does, that entry is found. */
  lemma {:induction false} FindProviderIsFirst(registry: seq<ProviderTypes.ProviderType>, d: Domains.Domain, i: nat)
    requires i < |registry| && d in Providers.GetProvider(registry[i]).domains
    requires forall j :: 0 <= j < i ==> d !in Providers.GetProvider(registry[j]).domains
    ensures FindProvider(registry, d) == Some(registry[i])
  {
    if i > 0 {
      assert d !in Providers.GetProvider(registry[0]).domains;
      forall j | 0 <= j < i - 1
        ensures d !in Providers.GetProvider(registry[1..][j]).domains
      {
        assert registry[1..][j] == registry[j + 1];
      }
      FindProviderIsFirst(registry[1..], d, i - 1);
    }
  }

  /** The provider type `create_inbox` settles on, or the error that ends it:
      the explicit type; else, with a domain, the first registered type that
      lists it; else the random draw. */
  function ResolveProviderType(registry: seq<ProviderTypes.ProviderType>, t: TempMail, providerIndex: nat)
    : (r: Result<ProviderTypes.ProviderType, Errors.InboxCreationError>)
    requires providerIndex < |registry|
    ensures t.providerType.Some? ==> r == Ok(t.providerType.value)
    ensures t.providerType.None? && t.domain.None? ==> r == Ok(registry[providerIndex])
    ensures t.providerType.None? && t.domain.Some? ==>
      (r.Ok? <==> FindProvider(registry, t.domain.value).Some?) &&
      (r.Ok? ==> Some(r.value) == FindProvider(registry, t.domain.value)) &&
      (r.Err? ==> r.error == Errors.NoProviderForDomain(Domains.ToString(t.domain.value)))
    ensures r.Ok? ==> t.providerType.Some? || r.value in registry
  {
    match (t.providerType, t.domain)
    case (Some(p), _) => Ok(p)
    case (None, None) => Ok(registry[providerIndex])
    case (None, Some(d)) =>
      match FindProvider(registry, d)
      case None => Err(Errors.NoProviderForDomain(Domains.ToString(d)))
      case Some(p) => Ok(p)
  }

  /** The end of `create_inbox` before the provider creates anything: an
      error, or the provider and the address it is asked to create. */
  datatype Outcome =
    | Failed(error: Errors.InboxCreationError)
    | Delegated(provider: Providers.Provider, email: Emails.EmailAddress)

  /** `create_inbox` against a registry, down to the call of the provider's
      `new_inbox_from_email`. */
  function CreateInboxIn(registry: seq<ProviderTypes.ProviderType>, t: TempMail, draws: Draws): (r: Outcome)
    requires ValidDraws(registry, draws)
    ensures r.Failed? <==>
      (t.domain.Some? &&
       if t.providerType.None? then FindProvider(registry, t.domain.value).None?
       else t.name.None? && t.domain.value !in Providers.GetProvider(t.providerType.value).domains)
    ensures r.Delegated? ==>
      (t.providerType.Some? ==> r.provider == Providers.GetProvider(t.providerType.value)) &&
      (t.providerType.None? && t.domain.None? ==> r.provider == Providers.GetProvider(registry[draws.providerIndex])) &&
      (t.providerType.None? && t.domain.Some? ==> Some(r.provider.kind) == FindProvider(registry, t.domain.value)) &&
      (t.name.Some? ==> r.email.name == t.name.value) &&
      (t.name.None? ==> Sampling.IsRandomName(r.email.name)) &&
      (t.domain.Some? ==> r.email.domain == t.domain.value) &&
      (t.domain.None? || t.name.None? ==> r.email.domain in r.provider.domains)
  {
    match ResolveProviderType(registry, t, draws.providerIndex)
    case Err(e) => Failed(e)
    case Ok(kind) =>
      var provider := Providers.GetProvider(kind);
      var dispatch := match (t.name, t.domain)
        case (Some(n), Some(d)) => Providers.FromEmail(Emails.EmailAddress(n, d))
        case (Some(n), None) => Providers.NewRandomInboxFromName(provider, n, draws.domainPick)
        case (None, Some(d)) => Providers.NewRandomInboxFromDomain(provider, d, draws.randomName)
        case (None, None) => Providers.NewRandomInbox(provider, draws.domainPick, draws.randomName);
      match dispatch
      case Fail(e) => Failed(e)
      case FromEmail(email) => Delegated(provider, email)
  }

  /** `create_inbox` with the registry `get_all_providers`. */
  function CreateInbox(t: TempMail, draws: Draws): (r: Outcome)
    requires ValidDraws(ProviderTypes.AllProviders(), draws)
    ensures r.Failed? <==>
      (t.providerType.Some? && t.name.None? && t.domain.Some? &&
       t.domain.value !in Providers.GetProvider(t.providerType.value).domains)
    ensures r.Failed? ==> r.error == Errors.InvalidDomainForProvider(Domains.ToString(t.domain.value), t.providerType.value)
    ensures t.providerType.None? && t.domain.None? ==>
      r.Delegated? && r.provider == Providers.GetProvider(ProviderTypes.Sample(draws.providerIndex))
  {
    match t.domain
    case None => CreateInboxIn(ProviderTypes.AllProviders(), t, draws)
    case Some(d) =>
      EveryDomainFindsProvider(d);
      CreateInboxIn(ProviderTypes.AllProviders(), t, draws)
  }

  /** The inbox `create_inbox` returns, given the providers'
      `new_inbox_from_email`. */
  function CreateInboxWith<I>(t: TempMail, draws: Draws,
                              newInboxFromEmail: (Providers.Provider, Emails.EmailAddress) -> Result<I, Errors.InboxCreationError>)
    : (r: Result<I, Errors.InboxCreationError>)
    requires ValidDraws(ProviderTypes.AllProviders(), draws)
    ensures CreateInbox(t, draws).Failed? ==> r == Err(CreateInbox(t, draws).error)
    ensures CreateInbox(t, draws).Delegated? ==>
      r == newInboxFromEmail(CreateInbox(t, draws).provider, CreateInbox(t, draws).email)
    ensures (forall p, e :: newInboxFromEmail(p, e).Err?) ==> r.Err?
  {
    match CreateInbox(t, draws)
    case Failed(e) => Err(e)
    case Delegated(p, email) => newInboxFromEmail(p, email)
  }

  /** An explicit provider type is used, with or without a domain. */
  lemma ExplicitProviderUsed(registry: seq<ProviderTypes.ProviderType>, t: TempMail, draws: Draws)
    requires ValidDraws(registry, draws)
    requires t.providerType.Some?
    ensures CreateInboxIn(registry, t, draws).Delegated? ==>
      CreateInboxIn(registry, t, draws).provider == Providers.GetProvider(t.providerType.value)
    ensures CreateInboxIn(registry, t, draws).Failed? ==>
      CreateInboxIn(registry, t, draws).error.InvalidDomainForProvider? &&
      CreateInboxIn(registry, t, draws).error.provider == t.providerType.value
  {
  }

  /** The four ways of asking the provider, by which of name and domain are
      set. */
  lemma DispatchByNameAndDomain(registry: seq<ProviderTypes.ProviderType>, t: TempMail, draws: Draws)
    requires ValidDraws(registry, draws)
    requires ResolveProviderType(registry, t, draws.providerIndex).Ok?
    ensures var p := Providers.GetProvider(ResolveProviderType(registry, t, draws.providerIndex).value);
      var r := CreateInboxIn(registry, t, draws);
      (t.name.Some? && t.domain.Some? ==> r == Delegated(p, Emails.EmailAddress(t.name.value, t.domain.value))) &&
      (t.name.Some? && t.domain.None? ==>
         r == Delegated(p, Providers.NewRandomInboxFromName(p, t.name.value, draws.domainPick).email)) &&
      (t.name.None? && t.domain.Some? ==>
         match Providers.NewRandomInboxFromDomain(p, t.domain.value, draws.randomName)
         case Fail(e) => r == Failed(e)
         case FromEmail(email) => r == Delegated(p, email)) &&
      (t.name.None? && t.domain.None? ==>
         r == Delegated(p, Providers.NewRandomInbox(p, draws.domainPick, draws.randomName).email))
  {
  }

  /** With only a domain, the provider found for it lists it, so the
      membership check passes and the address is a random name at that
      domain. */
  lemma DomainOnlyPassesCheck(registry: seq<ProviderTypes.ProviderType>, t: TempMail, draws: Draws)
    requires ValidDraws(registry, draws)
    requires t.providerType.None? && t.domain.Some? && t.name.None?
    requires FindProvider(registry, t.domain.value).Some?
    ensures CreateInboxIn(registry, t, draws) ==
      Delegated(Providers.GetProvider(FindProvider(registry, t.domain.value).value),
                Emails.EmailAddress(draws.randomName, t.domain.value))
  {
  }

  /** With a domain no registered provider lists, `create_inbox` fails with
      `NoProviderForDomain` before any provider is asked. */
  lemma NoProviderFails(registry: seq<ProviderTypes.ProviderType>, t: TempMail, draws: Draws)
    requires ValidDraws(registry, draws)
    requires t.providerType.None? && t.domain.Some?
    requires FindProvider(registry, t.domain.value).None?
    ensures CreateInboxIn(registry, t, draws) == Failed(Errors.NoProviderForDomain(Domains.ToString(t.domain.value)))
  {
  }

  /** With both a name and a domain, the domain is passed on even when the
      chosen provider does not list it: mail.tm is asked for an address at
      10minmail.de. */
  lemma NameAndDomainSkipCheck(draws: Draws)
    requires ValidDraws(ProviderTypes.AllProviders(), draws)
    ensures var t := TempMail(Some(ProviderTypes.MailTm), Some(Domains.TenMinMailDe), Some("alice"));
      Domains.TenMinMailDe !in Providers.GetProvider(ProviderTypes.MailTm).domains &&
      CreateInbox(t, draws) ==
        Delegated(Providers.GetProvider(ProviderTypes.MailTm), Emails.EmailAddress("alice", Domains.TenMinMailDe))
  {
  }

  /** With the two registered domain lists every domain finds a provider:
      edny.net is mail.tm's, every other domain Muellmail's. */
  lemma EveryDomainFindsProvider(d: Domains.Domain)
    ensures FindProvider(ProviderTypes.AllProviders(), d) ==
      Some(if d == Domains.EdnyNet then ProviderTypes.MailTm else ProviderTypes.Muellmail)
  {
    MailTm.OnlyEdnyNet(d);
    Muellmail.DomainsAllButEdnyNet(d);
    var registry := ProviderTypes.AllProviders();
    if d == Domains.EdnyNet {
      FindProviderIsFirst(registry, d, 0);
    } else {
      FindProviderIsFirst(registry, d, 1);
    }
  }

  /** Hence a domain given without a provider type never ends in
      `NoProviderForDomain`. */
  lemma DomainAlwaysResolves(t: TempMail, draws: Draws)
    requires ValidDraws(ProviderTypes.AllProviders(), draws)
    requires t.providerType.None? && t.domain.Some?
    ensures ResolveProviderType(ProviderTypes.AllProviders(), t, draws.providerIndex) ==
      Ok(if t.domain.value == Domains.EdnyNet then ProviderTypes.MailTm else ProviderTypes.Muellmail)
  {
    EveryDomainFindsProvider(t.domain.value);
  }

  /** If the registered providers keep the default `new_inbox_from_email`,
      every `create_inbox` ends in an error. */
  lemma CreateInboxAlwaysFails<I>(t: TempMail, draws: Draws)
    requires ValidDraws(ProviderTypes.AllProviders(), draws)
    ensures CreateInboxWith(t, draws, (p: Providers.Provider, e: Emails.EmailAddress) => Providers.DefaultNewInboxFromEmail<I>(e)).Err?
  {
  }
}
