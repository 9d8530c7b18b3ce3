# ephemeral_email in Dafny

A model of the decision logic of `ephemeral_email`, a Rust library that
creates throw-away inboxes on public disposable-mail services and reads their
messages. The model covers:

- the **domain catalogue**: 35 fixed domains and their display strings;
- **address formatting**: `name@domain`;
- the **error taxonomy** and its message formats;
- the **provider registry** (mail.tm, Muellmail), uniform sampling over it, and
  the default methods of the `Provider` trait;
- the **inbox builder** `TempMail`: three optional settings, resolved into a
  provider type and one of four ways of asking that provider for an inbox;
- the **per-provider logic** around the HTTP calls:
  - mail.tm: login first, then account creation with its 422-violation
    classification, then the message loop;
  - Muellmail: anonymous sign-in with a redirect-URL check, and a session
    check before the mail query;
  - fakemail.net: CSRF-token extraction, the `"ok"` answers, and a message
    loop that walks the inbox list backwards and skips one entry;
  - tempmail.lol: two creation paths, the status checks, and the message
    mapping.

Every HTTP exchange is an input value, `Http.Reply<T>`. A reply is either a
failed send, or a status with the body read as text and as decoded JSON.
Where a request carries data (a CSRF token, a name, a form), the reply is
given as a function of that request. Random draws are parameters:

- a provider index below the registry length;
- a number that `Sampling.Choose` reduces to an index into a non-empty list;
- an 8-character alphanumeric name (`Sampling.IsRandomName`).

The files come from two revisions of the library, and the model keeps them
apart:

- `mail_tm.rs` and `muellmail.rs` report creation failures with a
  `SetupError` variant and fetch failures with `InboxError`. Neither type is
  in `error.rs`. They are modelled as `Errors.CreationFailure` (an error of
  `error.rs`, or `SetupError`) and `Errors.InboxError`.
- `fakemail_net.rs` and `tempmail_lol.rs` use the error types of `error.rs`
  and a message record with plain string fields (`Emails.PlainMessage`).
  tempmail.lol's domains are a local `TempMailLol.Domain`.

`mod.rs` and `temp_mail.rs` decide provider selection. If the registered
providers keep the trait's default `new_inbox_from_email`, `create_inbox`
always fails (`TempMail.CreateInboxAlwaysFails`). The provider files
`mail_tm.rs` and `muellmail.rs` predate that trait method: their
`impl Provider` defines `new_inbox` and no `get_provider_type`, so which
`new_inbox_from_email` they would have is not settled by these files.
`TempMail.CreateInboxWith` therefore takes it as a parameter.

Some behaviour of the code is worth stating plainly:

- The code's `Domain` has no custom variant and no parser, so
  `Domains.FromString` is partial. It is proved an inverse of the display
  only for the 35 catalogue entries.
- `create_inbox` does not check the domain against the provider's list when
  a name is also given (`TempMail.NameAndDomainSkipCheck`).
- Nothing in the code produces `RateLimited`; the variant and its message are
  modelled all the same.
- email.rs has no address parser; fakemail_net.rs and tempmail_lol.rs call
  one (`.parse()`), whose implementation is not among these files (see
  "## Left out").

## Model

| member | source | states |
|---|---|---|
| Domains.ToString | src/domain.rs:42-80 | no contract of its own; `Domains.FromToString`, `Domains.ToStringInjective` and `Domains.DomainNameShape` specify it |
| Domains.FromToString | src/domain.rs:42-80 | every domain is recovered from its display string, so the display table determines the variant |
| Domains.ToStringInjective | src/domain.rs:45-79 | the 35 display strings are pairwise distinct |
| Domains.DomainNameShape | src/domain.rs:45-79 | every display string is non-empty, made of lower-case letters, digits and dots, contains a dot, and has no '@' |
| Domains.AllDomainsListsEvery | src/domain.rs:4-40 | the catalogue has 35 entries, and every variant sits at its declaration position |
| Domains.AllDomainsDistinct | src/domain.rs:4-40 | no variant is listed twice |
| Emails.ToString | src/email.rs:24-28 | the formatted address is \|name\| + 1 + \|domain string\| long |
| Emails.SplitAtLastAt | src/email.rs:26 | splitting at the last '@' fails exactly when there is no '@'; on success the parts rejoin with '@' to the input and the second part has no '@' |
| Emails.SplitRoundTrip | src/email.rs:26 | splitting a formatted address at its last '@' gives back exactly the name and the domain's display string |
| Emails.ToStringInjective | src/email.rs:24-28 | equal formatted addresses have equal names and equal domains |
| ProviderTypes.AllProviders | src/provider/mod.rs:81-83 | both provider types are registered |
| ProviderTypes.Name | src/provider/mod.rs:86-93 | every display name is non-empty, and it ends in 'm' exactly for mail.tm |
| ProviderTypes.Sample | src/provider/mod.rs:95-101 | the drawn index always selects a registered type |
| ProviderTypes.SampleIsBijective | src/provider/mod.rs:95-101 | every type is drawn by some index and distinct indices give distinct types, so the uniform index gives a uniform type |
| ProviderTypes.AllProvidersListsEachOnce | src/provider/mod.rs:81-83 | the registry lists each type exactly once |
| ProviderTypes.NameInjective | src/provider/mod.rs:86-93 | the display names "Mail.tm" and "Muellmail" differ |
| Http.Client.AppendHeader | src/provider/mail_tm.rs:115-118 | the header is added after the existing default headers, which stay |
| Errors.CreationMessage | src/error.rs:8-30 | no contract of its own; `Errors.DecodeCreationMessage` and `Errors.CreationMessageInjective` specify it |
| Errors.FetcherMessage | src/error.rs:35-43 | no contract of its own; `Errors.FetcherMessageInjective` specifies it |
| Errors.AddressErrorMessage | src/error.rs:45-50 | no contract of its own; the second ensures of `Errors.FromAddressError` gives its text |
| Errors.FromAddressError | src/error.rs:26-27 | an address error converts into `InvalidEmailAddress` carrying it, and the message shows both prefixes before the address |
| Errors.DecodeCreationMessage | src/error.rs:8-30 | every creation error is recovered from its message, including the domain and provider of `InvalidDomainForProvider` |
| Errors.CreationMessageInjective | src/error.rs:8-30 | distinct creation errors have distinct messages |
| Errors.FetcherMessageInjective | src/error.rs:35-43 | fetcher messages tell the three variants apart and recover the carried text; a status is recovered only as far as its display |
| Sampling.Choose | src/provider/mod.rs:17-21 | the drawn domain is a member of the non-empty list |
| Sampling.ChooseReachesAll | src/provider/mod.rs:17-21 | every member of the list can be drawn |
| Sampling.DefaultAddress | src/provider/mail_tm.rs:101-110 | a given name and domain are used unchanged; a missing domain is drawn from the provider's list and a missing name is an 8-character alphanumeric name |
| MailTm.ToMessage | src/provider/mail_tm.rs:56-64 | sender, subject and body are all present |
| MailTm.ToMessageKeeps | src/provider/mail_tm.rs:56-64 | two emails give the same message exactly when sender address, subject and text agree; the sender's display name is dropped |
| MailTm.GetDomains | src/provider/mail_tm.rs:165-167 | no contract of its own; `MailTm.OnlyEdnyNet` specifies it |
| MailTm.OnlyEdnyNet | src/provider/mail_tm.rs:165-167 | edny.net is the only domain mail.tm offers |
| MailTm.TryLogin | src/provider/mail_tm.rs:72-92 | login yields a token exactly on a successful, decodable reply; any other status is `SetupError("Failed to login into: " + address)` |
| MailTm.VerdictsExclusive | src/provider/mail_tm.rs:133-144 | no violation message ends with both "already used." and "is not valid." |
| MailTm.ClassifyViolation | src/provider/mail_tm.rs:131-154 | `NameTaken(address)` exactly for a single 422 address violation ending "already used."; `InvalidName(address)` exactly for one ending "is not valid."; otherwise `SetupError` with the first violation's message or "Unknown error" |
| MailTm.Setup | src/provider/mail_tm.rs:114-162 | yields a token exactly when the first login succeeds, or the creation succeeds and the second login does; the token is one of the two logins' |
| MailTm.LoginFirst | src/provider/mail_tm.rs:114-120 | when the first login succeeds its token is the result, and the creation request and second login make no difference |
| MailTm.TokenComesFromLogin | src/provider/mail_tm.rs:114-162 | every token the setup returns comes from a successful login: the first, or the one after a successful creation |
| MailTm.LoginAfterCreationFails | src/provider/mail_tm.rs:157 | after a successful creation, a refused login is `SetupError("Failed to login into: " + address)` |
| MailTm.RejectionClassified | src/provider/mail_tm.rs:131-155 | a rejected creation whose body decodes is reported as its classification |
| MailTm.MailTmInbox.GetEmailAddress | src/provider/mail_tm.rs:200-202 | the address string splits back into the inbox's name and domain |
| MailTm.NewInbox | src/provider/mail_tm.rs:96-163 | succeeds exactly when the setup does; then the inbox holds the chosen address and a fresh client whose only default header is "Authorization: Bearer " + token; otherwise it returns the setup's error |
| MailTm.GetMessages | src/provider/mail_tm.rs:172-198 | with every fetch succeeding, one message per list entry in list order; otherwise the first failing fetch's error, with all earlier fetches successful |
| Muellmail.ToMessage | src/provider/muellmail.rs:55-63 | sender and subject are present; the body is present exactly when the email has a text part |
| Muellmail.ToMessageKeeps | src/provider/muellmail.rs:55-63 | two emails give the same message exactly when sender, subject and text agree |
| Muellmail.GetDomains | src/provider/muellmail.rs:125-162 | no contract of its own; `Muellmail.DomainsAreCataloguePrefix` and `Muellmail.DomainsAllButEdnyNet` specify it |
| Muellmail.DomainsAreCataloguePrefix | src/provider/muellmail.rs:125-162 | the list is the catalogue in declaration order without its last entry, edny.net |
| Muellmail.DomainsAllButEdnyNet | src/provider/muellmail.rs:125-162 | 34 distinct entries, and a domain is listed exactly when it is not edny.net |
| Muellmail.NewInbox | src/provider/muellmail.rs:73-123 | succeeds with the chosen address exactly when the token and sign-in replies decode and the redirect is "https://muellmail.com/en"; any other URL is `SetupError("Invalid response url " + url)` |
| Muellmail.AnonForm | src/provider/muellmail.rs:103-109 | no contract of its own; `Muellmail.AnonFormCarriesAddress` specifies it |
| Muellmail.AnonFormCarriesAddress | src/provider/muellmail.rs:101-109 | the sign-in form carries the formatted address, the CSRF token and the expected callback URL |
| Muellmail.GetMessages | src/provider/muellmail.rs:166-227 | a session status other than 200 is `GetMessageError("Invalid response status " + status)`; success exactly on status 200 and a decodable query, giving one message per email in order |
| Muellmail.StatusCheckedBeforeQuery | src/provider/muellmail.rs:168-178 | with a session status other than 200, the query's answer makes no difference |
| Muellmail.GetEmailAddress | src/provider/muellmail.rs:229-231 | the address string splits back into the name and the domain |
| FakeMailNet.GetCsrfToken | src/provider/fakemail_net.rs:35-54 | "Failed to find CSRF token" exactly when `CSRF="` never occurs; "Failed to extract CSRF token" exactly when no `"` follows the first one; otherwise a quote-free token followed by `"` right after the first marker |
| FakeMailNet.CsrfTokenOfPage | src/provider/fakemail_net.rs:42-53 | on a page made of marker-free text, the marker, a quote-free token, a quote and any rest, the token is extracted exactly |
| FakeMailNet.CsrfFrom | src/provider/fakemail_net.rs:36-54 | an unreadable page is a request error; a readable one yields what `GetCsrfToken` extracts, so a token never contains a quote |
| FakeMailNet.IndexFailure | src/provider/fakemail_net.rs:62-72 | a non-success index status is `CreationError` with the body, or "" when the body cannot be read; a success status passes |
| FakeMailNet.NewInbox | src/provider/fakemail_net.rs:58-113 | a name check other than `"ok"` is `NameTaken` with the bare name; a create answer other than `"ok"` is `CreationError` with that answer; success needs both answers to be `"ok"` |
| FakeMailNet.FetchMessages | src/provider/fakemail_net.rs:126-155 | for n entries, max(n-1, 0) messages; message k pairs entry n-2-k with the content of id k+2; the first failing content fetch ends it with its error |
| TempMailLol.ToMessage | src/provider/tempmail_lol.rs:39-47 | no contract of its own; `TempMailLol.ToMessageKeeps` specifies it |
| TempMailLol.ToMessageKeeps | src/provider/tempmail_lol.rs:39-47 | two emails give the same message exactly when sender, subject and body agree; recipient and date are dropped |
| TempMailLol.GetDomains | src/provider/tempmail_lol.rs:113-122 | no contract of its own: the six domains of tempmail.lol |
| TempMailLol.GetRandomDomain | src/provider/tempmail_lol.rs:123-125 | always fails, with the message "Provider does not support specifying a domain" |
| TempMailLol.SupportCustomDomains | src/provider/tempmail_lol.rs:129-131 | always true |
| TempMailLol.Created | src/provider/tempmail_lol.rs:66-82 | a non-success status is `CreationError` with the body, or "" when unreadable; success exactly on a success status, a decodable body and a parsable address, giving that address and token |
| TempMailLol.NewRandomInboxFromName | src/provider/tempmail_lol.rs:57-84 | the request carries the name as prefix and no domain; success exactly on a success status, a decodable body and a parsable address, giving the parsed address and the returned token |
| TempMailLol.NewInbox | src/provider/tempmail_lol.rs:85-111 | the request carries the name as prefix and the domain; success exactly as for the name-only path, giving the parsed address and the returned token |
| TempMailLol.CreationPaths | src/provider/tempmail_lol.rs:57-111 | answered with the same reply, the two creation paths give the same result |
| TempMailLol.FetchMessages | src/provider/tempmail_lol.rs:136-153 | a non-success status is `InvalidResponseStatus(status)`; success exactly on a success status and a decodable body, giving one message per email in order |
| Providers.GetProvider | src/provider/mod.rs:74-79 | every type has a provider, carrying that type and a non-empty domain list |
| Providers.NewRandomInboxFromDomain | src/provider/mod.rs:26-39 | refused exactly when the provider does not list the domain, with `InvalidDomainForProvider(domain string, provider type)`; otherwise a random 8-character name at that domain |
| Providers.NewRandomInbox | src/provider/mod.rs:16-24 | never refused: the drawn domain is one the provider lists, and the name is random |
| Providers.NewRandomInboxFromName | src/provider/mod.rs:41-53 | the name is used unchanged, at a domain the provider lists |
| Providers.DefaultNewInboxFromEmail | src/provider/mod.rs:55-60 | always `ProviderNotImplemented` |
| Providers.Run | src/provider/mod.rs:16-60 | a refused dispatch returns its error without asking the provider; otherwise the result of the provider's `new_inbox_from_email` on the chosen address is returned unchanged, errors included |
| Providers.DefaultNeverCreates | src/provider/mod.rs:55-60 | with the default, every dispatch ends in an error, `ProviderNotImplemented` once an address was chosen |
| Providers.RegistryTotal | src/provider/mod.rs:74-83 | every type is registered and has a provider of that type |
| Providers.Inbox.GetEmailAddress | src/provider/mod.rs:114-116 | the stored address, unchanged |
| Providers.Inbox.GetMessages | src/provider/mod.rs:118-120 | exactly the fetcher's answer, and the fetcher moves to its next state |
| TempMail.New | src/temp_mail.rs:12-18 | provider type, domain and name are all unset |
| TempMail.WithProviderType | src/temp_mail.rs:20-23 | sets the provider type and leaves domain and name |
| TempMail.WithDomain | src/temp_mail.rs:25-28 | sets the domain and leaves provider type and name |
| TempMail.WithName | src/temp_mail.rs:30-33 | sets the name and leaves provider type and domain |
| TempMail.SettersOverwriteAndCommute | src/temp_mail.rs:20-33 | a later call of a setter overwrites an earlier one; setters of different fields commute |
| TempMail.FindProvider | src/temp_mail.rs:40-49 | a found type is registered and its provider lists the domain; nothing is found exactly when no registered provider lists it |
| TempMail.FindProviderIsFirst | src/temp_mail.rs:40-49 | the type found is the first in registry order whose provider lists the domain |
| TempMail.ResolveProviderType | src/temp_mail.rs:36-54 | an explicit type wins; with neither type nor domain, the drawn type; with a domain and no type, exactly the type `FindProvider` finds (the first that lists it), else `NoProviderForDomain(domain string)` |
| TempMail.CreateInboxIn | src/temp_mail.rs:35-67 | fails exactly when a domain is set and either no registered type lists it (no type given) or the given type does not list it and no name is set; otherwise the address keeps the given name and domain, draws a random name when none is given, and uses a listed domain unless both name and domain are given |
| TempMail.CreateInbox | src/temp_mail.rs:35-67 | with the registered providers, fails only with `InvalidDomainForProvider`, exactly when a given type does not list a given domain and no name is set; with neither type nor domain, the provider is the one `ProviderTypes.Sample` draws |
| TempMail.CreateInboxWith | src/temp_mail.rs:35-67 | the builder's own error is returned unchanged; otherwise the provider's `new_inbox_from_email` result on the delegated address is returned unchanged, errors included; when that never succeeds, neither does `create_inbox` |
| TempMail.ExplicitProviderUsed | src/temp_mail.rs:37-38 | with an explicit type, that type's provider is asked, with or without a domain |
| TempMail.DispatchByNameAndDomain | src/temp_mail.rs:57-66 | name and domain go straight to `new_inbox_from_email`; name only, domain only and neither go through the three random defaults |
| TempMail.DomainOnlyPassesCheck | src/temp_mail.rs:40-49 | with only a domain, the provider found lists it, so the membership check passes and a random name at that domain is asked for |
| TempMail.NoProviderFails | src/temp_mail.rs:50-52 | when no registered provider lists the domain, the call fails with `NoProviderForDomain` and no provider is asked |
| TempMail.NameAndDomainSkipCheck | src/temp_mail.rs:58-61 | with both a name and a domain, the domain is passed on unchecked: mail.tm is asked for an address at 10minmail.de |
| TempMail.EveryDomainFindsProvider | src/temp_mail.rs:40-49 | with the two registered lists, edny.net resolves to mail.tm and every other domain to Muellmail |
| TempMail.DomainAlwaysResolves | src/temp_mail.rs:40-53 | a domain given without a provider type never ends in `NoProviderForDomain` |
| TempMail.CreateInboxAlwaysFails | src/temp_mail.rs:55-66 | if the registered providers keep the default `new_inbox_from_email`, `create_inbox` always returns an error |

## Left out

- HTTP itself is not modelled: URLs, request headers other than mail.tm's `Authorization`, the cookie store, browser impersonation and `.await`. Each response is an input value.
- Building the HTTP client (`Client::builder().build()?`) cannot fail in the model. In the source that failure becomes a request error.
- MailTm.NewInbox: the panic of `HeaderValue::from_str(…).unwrap()` on a token that is not a valid header value is not modelled.
- JSON decoding is not modelled. A reply's decoded body is part of the input. fakemail.net's `serde_json::from_str`, including the `trim` before it, is a reader passed in.
- Parsing an address from a string (`.parse()` in fakemail_net.rs and tempmail_lol.rs) is a parser passed in. Its implementation is not part of this model.
- Randomness (`rand::random`, `choose`, `Alphanumeric.sample_string`) is injected values, as described above. Uniformity is shown only for the provider draw.
- `Arc<Mutex<…>>`, async traits and `Box<dyn MessageFetcher>` are not modelled. `Providers.Inbox` holds a fetcher state and a step function instead. The mail.tm and Muellmail message fetchers are modelled standalone, not plugged into it, because they belong to the other revision.
- Muellmail.NewInbox: returns the created inbox's address and not the client.
- The GraphQL query text of Muellmail is not modelled.
- A status code's display is taken as given text, and a library error is carried as its display text.
- fakemail.net's `get_domains` and `get_provider_type` are not modelled. tempmail.lol's `get_provider_type` is not modelled either. They name variants (`FileSavedOrg`, `FakeMailNet`, `TempMailLol`) that exist in neither domain.rs nor mod.rs.
- fakemail.net's `new_inbox` takes only the name: its domain argument only builds an address that is never used.
- The display strings of tempmail.lol's domains are not in the source, so the creation request carries the domain value itself.
- The providers' own `new_inbox_from_email` is a parameter of `TempMail.CreateInboxWith`: `mail_tm.rs` and `muellmail.rs` implement an older trait with `new_inbox` instead, so the model does not connect them to `create_inbox`. `TempMail.CreateInboxAlwaysFails` holds only for the trait's default.
- src/client.rs, src/lib.rs and the examples are re-exports and demo programs, and are not part of this model.
