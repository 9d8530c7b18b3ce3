/** The error taxonomy of src/error.rs with its `Display` formats, plus the
    two error types the older provider revisions (mail.tm and Muellmail) use. */
module Errors {
  import opened Wrappers
  import Text
  import Http
  import ProviderTypes

  /** `EmailAddressError`. */
  datatype EmailAddressError = InvalidEmailAddress(address: string)

  /** `InboxCreationError`. A library error is carried as its display text. */
  datatype InboxCreationError =
    | RquestError(cause: string)
    | CreationError(detail: string)
    | ProviderNotImplemented
    | DomainNotSupported
    | NoProviderForDomain(domain: string)
    | InvalidDomainForProvider(domain: string, provider: ProviderTypes.ProviderType)
    | NameTaken(name: string)
    | InvalidName(name: string)
    | InvalidEmailAddress(addressError: EmailAddressError)
    | RateLimited

  /** `MessageFetcherError`. */
  datatype MessageFetcherError =
    | RquestError(cause: string)
    | InvalidResponseStatus(status: Http.StatusCode)
    | FetchError(detail: string)

  /** The inbox error of the mail.tm and Muellmail revision: a library error
      raised by `?`, or `GetMessageError`. */
  datatype InboxError =
    | InboxRequestError(cause: string)
    | GetMessageError(detail: string)

  /** The creation error of the mail.tm and Muellmail revision: one of the
      `InboxCreationError` variants above, or the `SetupError` variant that
      revision adds. */
  datatype CreationFailure =
    | Reported(error: InboxCreationError)
    | SetupError(detail: string)

  const RequestPrefix := "Request error: "
  const CannotCreatePrefix := "Cannot create inbox: "
  const NotImplementedText := "Provider not implemented"
  const DomainNotSupportedText := "Provider does not support " + "specifying a domain"
  const NoProviderPrefix := "Could not find a provider for "
  const DomainPrefix := "The domain "
  const NotValidInfix := " is not valid for provider "
  const NameTakenPrefix := "Name is already taken by someone else: "
  const InvalidNamePrefix := "Name is invalid: "
  const ReturnedAddressPrefix := "An invalid email address was returned: "
  const RateLimitedText := "Rate limited, try again later"
  const AddressPrefix := "Invalid email address: "
  const StatusPrefix := "Invalid response status: "
  const FetchPrefix := "Failed to fetch message: "

  /** `Display for EmailAddressError`. */
  function AddressErrorMessage(e: EmailAddressError): string
  {
    AddressPrefix + e.address
  }

  /** `Display for InboxCreationError`. */
  function CreationMessage(e: InboxCreationError): string
  {
    match e
    case RquestError(cause) => RequestPrefix + cause
    case CreationError(detail) => CannotCreatePrefix + detail
    case ProviderNotImplemented => NotImplementedText
    case DomainNotSupported => DomainNotSupportedText
    case NoProviderForDomain(d) => NoProviderPrefix + d
    case InvalidDomainForProvider(d, p) => DomainPrefix + d + NotValidInfix + ProviderTypes.Name(p)
    case NameTaken(name) => NameTakenPrefix + name
    case InvalidName(name) => InvalidNamePrefix + name
    case InvalidEmailAddress(a) => ReturnedAddressPrefix + AddressErrorMessage(a)
    case RateLimited => RateLimitedText
  }

  /** `Display for MessageFetcherError`; a status shows as the HTTP library
      displays it. */
  function FetcherMessage(e: MessageFetcherError): string
  {
    match e
    case RquestError(cause) => RequestPrefix + cause
    case InvalidResponseStatus(status) => StatusPrefix + status.display
    case FetchError(detail) => FetchPrefix + detail
  }

  /** The `#[from]` conversion of an address error into a creation error. */
  function FromAddressError(e: EmailAddressError): (r: InboxCreationError)
    ensures r.InvalidEmailAddress? && r.addressError == e
    ensures CreationMessage(r) == ReturnedAddressPrefix + AddressPrefix + e.address
  {
    InboxCreationError.InvalidEmailAddress(e)
  }

  /** Reads a creation error back from its message: the inverse of
      `CreationMessage`, dispatching on the characters where the formats differ. */
  function DecodeCreation(m: string): Option<InboxCreationError>
  {
    if |m| < 2 then None
    else if m[0] == 'R' then
      if m[1] == 'e' && Text.StartsWith(m, RequestPrefix) then
        Some(InboxCreationError.RquestError(m[|RequestPrefix|..]))
      else if m == RateLimitedText then Some(RateLimited)
      else None
    else if m[0] == 'C' then
      if m[1] == 'a' && Text.StartsWith(m, CannotCreatePrefix) then
        Some(CreationError(m[|CannotCreatePrefix|..]))
      else if m[1] == 'o' && Text.StartsWith(m, NoProviderPrefix) then
        Some(NoProviderForDomain(m[|NoProviderPrefix|..]))
      else None
    else if m[0] == 'P' then
      if m == NotImplementedText then Some(ProviderNotImplemented)
      else if m == DomainNotSupportedText then Some(DomainNotSupported)
      else None
    else if m[0] == 'T' then
      var p := if m[|m| - 1] == 'm' then ProviderTypes.MailTm else ProviderTypes.Muellmail;
      var tail := NotValidInfix + ProviderTypes.Name(p);
      if |DomainPrefix| + |tail| <= |m| && Text.StartsWith(m, DomainPrefix) && Text.EndsWith(m, tail) then
        Some(InvalidDomainForProvider(m[|DomainPrefix|..|m| - |tail|], p))
      else None
    else if m[0] == 'N' && |m| > 8 then
      if m[8] == 'a' && Text.StartsWith(m, NameTakenPrefix) then
        Some(NameTaken(m[|NameTakenPrefix|..]))
      else if m[8] == 'i' && Text.StartsWith(m, InvalidNamePrefix) then
        Some(InvalidName(m[|InvalidNamePrefix|..]))
      else None
    else if m[0] == 'A' && Text.StartsWith(m, ReturnedAddressPrefix + AddressPrefix) then
      Some(InboxCreationError.InvalidEmailAddress(
        EmailAddressError.InvalidEmailAddress(m[|ReturnedAddressPrefix + AddressPrefix|..])))
    else None
  }

  lemma PrefixedRoundTrip(prefix: string, s: string)
    ensures Text.StartsWith(prefix + s, prefix)
    ensures (prefix + s)[|prefix|..] == s
  {
    assert (prefix + s)[..|prefix|] == prefix;
  }

  /** The three messages without a payload read back as their variants. */
  lemma DecodeFixedMessage(e: InboxCreationError)
    requires e.ProviderNotImplemented? || e.DomainNotSupported? || e.RateLimited?
    ensures DecodeCreation(CreationMessage(e)) == Some(e)
  {
    match e {
      case ProviderNotImplemented =>
        assert NotImplementedText[0] == 'P';
      case DomainNotSupported =>
        DecodeDomainNotSupported();
      case RateLimited =>
        assert RateLimitedText[0] == 'R' && RateLimitedText[1] == 'a';
    }
  }

  /** The one message whose literal is long reads back as `DomainNotSupported`. */
  lemma DecodeDomainNotSupported()
    ensures DecodeCreation(DomainNotSupportedText) == Some(DomainNotSupported)
  {
    var m := DomainNotSupportedText;
    assert |m| == 45 && m[0] == 'P';
    assert m != NotImplementedText by { assert |NotImplementedText| == 24; }
  }

  /** `InvalidDomainForProvider` reads back, provider included: the two
      provider names end in different letters. */
  lemma DecodeDomainMessage(d: string, p: ProviderTypes.ProviderType)
    ensures DecodeCreation(CreationMessage(InvalidDomainForProvider(d, p))) == Some(InvalidDomainForProvider(d, p))
  {
    var m := CreationMessage(InvalidDomainForProvider(d, p));
    var tail := NotValidInfix + ProviderTypes.Name(p);
    ProviderTypes.NameInjective(p, p);
    assert m == DomainPrefix + (d + tail);
    PrefixedRoundTrip(DomainPrefix, d + tail);
    assert m[|m| - 1] == tail[|tail| - 1];
    assert m[|m| - |tail|..] == tail;
    assert m[|DomainPrefix|..|m| - |tail|] == d;
  }

  /** The messages that start with 'R' or 'C' and carry a payload read back. */
  lemma DecodeRequestOrCreationMessage(e: InboxCreationError)
    requires e.RquestError? || e.CreationError? || e.NoProviderForDomain?
    ensures DecodeCreation(CreationMessage(e)) == Some(e)
  {
    match e
    case RquestError(cause) => PrefixedRoundTrip(RequestPrefix, cause);
    case CreationError(detail) => PrefixedRoundTrip(CannotCreatePrefix, detail);
    case NoProviderForDomain(d) => PrefixedRoundTrip(NoProviderPrefix, d);
  }

  /** The messages that carry a name or an address read back. */
  lemma DecodeNameMessage(e: InboxCreationError)
    requires e.NameTaken? || e.InvalidName? || e.InvalidEmailAddress?
    ensures DecodeCreation(CreationMessage(e)) == Some(e)
  {
    match e
    case NameTaken(name) => PrefixedRoundTrip(NameTakenPrefix, name);
    case InvalidName(name) => PrefixedRoundTrip(InvalidNamePrefix, name);
    case InvalidEmailAddress(a) =>
      assert CreationMessage(e) == (ReturnedAddressPrefix + AddressPrefix) + a.address;
      PrefixedRoundTrip(ReturnedAddressPrefix + AddressPrefix, a.address);
  }

  /** Every creation error can be read back from its message. */
  lemma DecodeCreationMessage(e: InboxCreationError)
    ensures DecodeCreation(CreationMessage(e)) == Some(e)
  {
    if e.RquestError? || e.CreationError? || e.NoProviderForDomain? {
      DecodeRequestOrCreationMessage(e);
    } else if e.NameTaken? || e.InvalidName? || e.InvalidEmailAddress? {
      DecodeNameMessage(e);
    } else if e.InvalidDomainForProvider? {
      DecodeDomainMessage(e.domain, e.provider);
    } else {
      DecodeFixedMessage(e);
    }
  }

  /** Distinct creation errors have distinct messages. */
  lemma CreationMessageInjective(a: InboxCreationError, b: InboxCreationError)
    ensures CreationMessage(a) == CreationMessage(b) ==> a == b
  {
    DecodeCreationMessage(a);
    DecodeCreationMessage(b);
  }

  /** The text a fetcher error carries after its fixed prefix. */
  function FetcherPayload(e: MessageFetcherError): string
  {
    match e
    case RquestError(cause) => cause
    case InvalidResponseStatus(status) => status.display
    case FetchError(detail) => detail
  }

  lemma FetcherMessageSplits(e: MessageFetcherError)
    ensures |FetcherMessage(e)| > 0
    ensures e.RquestError? <==> FetcherMessage(e)[0] == 'R'
    ensures e.InvalidResponseStatus? <==> FetcherMessage(e)[0] == 'I'
    ensures var p := |FetcherMessage(e)| - |FetcherPayload(e)|;
      0 <= p && FetcherMessage(e)[p..] == FetcherPayload(e)
  {
    match e
    case RquestError(c) => PrefixedRoundTrip(RequestPrefix, c);
    case InvalidResponseStatus(s) => PrefixedRoundTrip(StatusPrefix, s.display);
    case FetchError(d) => PrefixedRoundTrip(FetchPrefix, d);
  }

  /** Fetcher messages tell the three variants apart and recover the carried
      text; a status is recovered up to its display. */
  lemma FetcherMessageInjective(a: MessageFetcherError, b: MessageFetcherError)
    requires FetcherMessage(a) == FetcherMessage(b)
    ensures a.InvalidResponseStatus? <==> b.InvalidResponseStatus?
    ensures a.InvalidResponseStatus? ==> a.status.display == b.status.display
    ensures !a.InvalidResponseStatus? ==> a == b
  {
    FetcherMessageSplits(a);
    FetcherMessageSplits(b);
    assert a.RquestError? <==> b.RquestError?;
    assert |FetcherPayload(a)| == |FetcherPayload(b)| by {
      assert |FetcherMessage(a)| - |FetcherPayload(a)| == |FetcherMessage(b)| - |FetcherPayload(b)|;
    }
  }
}
