/** The identity tags of the registered providers (the `ProviderType` enum of
    src/provider/mod.rs), their display names, the registry order and the
    uniform draw `rand::random()` makes over it. */
module ProviderTypes {

  datatype ProviderType = MailTm | Muellmail

  /** `ProviderType::get_all_providers`: the registry, in lookup order. */
  function AllProviders(): (ts: seq<ProviderType>)
    ensures MailTm in ts && Muellmail in ts
  {
    [MailTm, Muellmail]
  }

  /** `Display for ProviderType`. */
  function Name(t: ProviderType): (s: string)
    ensures |s| > 0 && (s[|s| - 1] == 'm' <==> t == MailTm)
  {
    match t
    case MailTm => "Mail.tm"
    case Muellmail => "Muellmail"
  }

  /** `Distribution<ProviderType> for StandardUniform`: the registry entry at an
      index drawn from `0..len`. */
  function Sample(index: nat): (t: ProviderType)
    requires index < |AllProviders()|
    ensures t in AllProviders()
  {
    AllProviders()[index]
  }

  /** The registry lists every variant exactly once. */
  lemma AllProvidersListsEachOnce(t: ProviderType)
    ensures multiset(AllProviders())[t] == 1
  {
  }

  /** Sampling is a bijection between the indices and the registry, so the
      uniform index gives a uniform provider. */
  lemma SampleIsBijective(t: ProviderType)
    ensures exists i :: 0 <= i < |AllProviders()| && Sample(i) == t
    ensures forall i, j :: 0 <= i < j < |AllProviders()| ==> Sample(i) != Sample(j)
  {
    assert Sample(if t == MailTm then 0 else 1) == t;
  }

  /** Display names are distinct. */
  lemma NameInjective(a: ProviderType, b: ProviderType)
    ensures Name(a) == Name(b) ==> a == b
  {
  }
}
