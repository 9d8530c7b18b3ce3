/** The random draws of the providers, taken as parameters: an index into a
    non-empty list (`choose`) and an eight-character alphanumeric name
    (`Alphanumeric.sample_string(…, 8)`). */
module Sampling {
  import opened Wrappers
  import Domains
  import Emails

  /** A character `Alphanumeric` can draw: `A`-`Z`, `a`-`z` or `0`-`9`. */
  predicate IsAlphanumeric(c: char) {
    ('A' <= c <= 'Z') || ('a' <= c <= 'z') || ('0' <= c <= '9')
  }

  /** A name `Alphanumeric.sample_string(&mut rng, 8)` can return. */
  predicate IsRandomName(s: string) {
    |s| == 8 && forall i :: 0 <= i < |s| ==> IsAlphanumeric(s[i])
  }

  /** `xs.choose(&mut rng)` on a list the caller has checked is non-empty
      (`.expect("No domains available")` panics otherwise): the element the
      drawn number selects. */
  function Choose<T>(xs: seq<T>, pick: nat): (x: T)
    requires |xs| > 0
    ensures x in xs
  {
    xs[pick % |xs|]
  }

  /** Every element can be drawn. */
  lemma ChooseReachesAll<T>(xs: seq<T>, x: T)
    requires x in xs
    ensures exists pick: nat :: Choose(xs, pick) == x
  {
    var i :| 0 <= i < |xs| && xs[i] == x;
    assert Choose(xs, i) == x;
  }

  /** The address mail.tm's and Muellmail's `new_inbox` build: the given
      domain, else one drawn from the provider's list; the given name, else a
      random one. */
  function DefaultAddress(name: Option<string>, domain: Option<Domains.Domain>,
                          domains: seq<Domains.Domain>, pick: nat, randomName: string): (e: Emails.EmailAddress)
    requires domain.None? ==> |domains| > 0
    requires IsRandomName(randomName)
    ensures domain.Some? ==> e.domain == domain.value
    ensures domain.None? ==> e.domain in domains
    ensures name.Some? ==> e.name == name.value
    ensures name.None? ==> IsRandomName(e.name)
  {
    var d := match domain case Some(d) => d case None => Choose(domains, pick);
    var n := match name case Some(n) => n case None => randomName;
    Emails.EmailAddress(n, d)
  }
}
