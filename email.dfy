/** Email addresses and messages (src/email.rs). */
module Emails {
  import opened Wrappers
  import Text
  import Domains

  /** `EmailAddress { name, domain }`; `EmailAddress::new` is the constructor. */
  datatype EmailAddress = EmailAddress(name: string, domain: Domains.Domain)

  /** A message as the inbox reports it; every field may be missing. */
  datatype Message = Message(from: Option<string>, subject: Option<string>, body: Option<string>)

  /** The message record of the revision that fakemail_net.rs and
      tempmail_lol.rs are written against, where every field is present. */
  datatype PlainMessage = PlainMessage(from: string, subject: string, body: string)

  /** `Display for EmailAddress`: the name, '@', the domain's display string. */
  function ToString(e: EmailAddress): (s: string)
    ensures |s| == |e.name| + 1 + |Domains.ToString(e.domain)|
  {
    e.name + "@" + Domains.ToString(e.domain)
  }

  /** Splits a string at its last '@' into the part before and the part after. */
  function SplitAtLastAt(s: string): (r: Option<(string, string)>)
    ensures r.None? <==> '@' !in s
    ensures r.Some? ==> s == r.value.0 + "@" + r.value.1 && '@' !in r.value.1
  {
    match Text.LastIndexOf(s, '@')
    case None => None
    case Some(i) =>
      assert s == s[..i] + "@" + s[i + 1..];
      Some((s[..i], s[i + 1..]))
  }

  /** In `name + "@" + rest` with no '@' in `rest`, the last '@' is the one
      after the name. */
  lemma LastAtFollowsName(name: string, rest: string)
    requires '@' !in rest
    ensures Text.LastIndexOf(name + "@" + rest, '@') == Some(|name|)
  {
    var s := name + "@" + rest;
    var i :| Text.LastIndexOf(s, '@') == Some(i);
    assert s[|name|] == '@';
    forall k | |name| < k < |s|
      ensures s[k] != '@'
    {
      assert s[k] == rest[k - |name| - 1];
    }
  }

  /** Splitting a formatted address at its last '@' gives back the name and the
      domain string, because no domain string contains '@' (the name may). */
  lemma SplitRoundTrip(e: EmailAddress)
    ensures SplitAtLastAt(ToString(e)) == Some((e.name, Domains.ToString(e.domain)))
  {
    var d := Domains.ToString(e.domain);
    Domains.DomainNameShape(e.domain);
    LastAtFollowsName(e.name, d);
    assert (e.name + "@" + d)[..|e.name|] == e.name;
    assert (e.name + "@" + d)[|e.name| + 1..] == d;
  }

  /** Formatting is injective: equal strings come from equal addresses. */
  lemma ToStringInjective(a: EmailAddress, b: EmailAddress)
    ensures ToString(a) == ToString(b) ==> a == b
  {
    if ToString(a) == ToString(b) {
      SplitRoundTrip(a);
      SplitRoundTrip(b);
      Domains.ToStringInjective(a.domain, b.domain);
    }
  }
}
