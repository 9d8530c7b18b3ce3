/** The closed catalogue of mail domains (src/domain.rs): 35 variants, each
    displayed as one fixed string. There is no free-form variant. */
module Domains {
  import opened Wrappers

  datatype Domain =
      TenMinMailDe
    | TenMinutenMailXyz
    | ExistiertNet
    | FliegenderFish
    | JagaEmail
    | MdzEmail
    | MuellMailCom
    | MuelleMailCom
    | MuellMonster
    | MuellIcu
    | MuellIo
    | MuellXyz
    | MagSpamNet
    | FukaruCom
    | OidaIcu
    | PapierkorbMe
    | SpamCare
    | TonneTo
    | UltraFyi
    | WegwerfEmailDe
    | DsgvoParty
    | KnickerbockerbanDe
    | LambsauceDe
    | RamenMailDe
    | Ji5De
    | Ji6De
    | Ji7De
    | SudernDe
    | HihiLol
    | KeinDate
    | HolioDay
    | CornHolioDay
    | BungHolioDay
    | StacysMom
    | EdnyNet

  /** Every variant, in declaration order. */
  const AllDomains: seq<Domain> := [
    TenMinMailDe, TenMinutenMailXyz, ExistiertNet, FliegenderFish, JagaEmail,
    MdzEmail, MuellMailCom, MuelleMailCom, MuellMonster, MuellIcu,
    MuellIo, MuellXyz, MagSpamNet, FukaruCom, OidaIcu,
    PapierkorbMe, SpamCare, TonneTo, UltraFyi, WegwerfEmailDe,
    DsgvoParty, KnickerbockerbanDe, LambsauceDe, RamenMailDe, Ji5De,
    Ji6De, Ji7De, SudernDe, HihiLol, KeinDate,
    HolioDay, CornHolioDay, BungHolioDay, StacysMom, EdnyNet
  ]

  /** `Display for Domain`. */
  function ToString(d: Domain): (s: string)
  {
    match d
    case TenMinMailDe => "10minmail.de"
    case TenMinutenMailXyz => "10minutenmail.xyz"
    case ExistiertNet => "existiert.net"
    case FliegenderFish => "fliegender.fish"
    case JagaEmail => "jaga.email"
    case MdzEmail => "mdz.email"
    case MuellMailCom => "muellmail.com"
    case MuelleMailCom => "muellemail.com"
    case MuellMonster => "muell.monster"
    case MuellIcu => "muell.icu"
    case MuellIo => "muell.io"
    case MuellXyz => "muell.xyz"
    case MagSpamNet => "magspam.net"
    case FukaruCom => "fukaru.com"
    case OidaIcu => "oida.icu"
    case PapierkorbMe => "papierkorb.me"
    case SpamCare => "spam.care"
    case TonneTo => "tonne.to"
    case UltraFyi => "ultra.fyi"
    case WegwerfEmailDe => "wegwerfemail.de"
    case DsgvoParty => "dsgvo.party"
    case KnickerbockerbanDe => "knickerbockerban.de"
    case LambsauceDe => "lambsauce.de"
    case RamenMailDe => "ramenmail.de"
    case Ji5De => "ji5.de"
    case Ji6De => "ji6.de"
    case Ji7De => "ji7.de"
    case SudernDe => "sudern.de"
    case HihiLol => "hihi.lol"
    case KeinDate => "kein.date"
    case HolioDay => "holio.day"
    case CornHolioDay => "corn.holio.day"
    case BungHolioDay => "bung.holio.day"
    case StacysMom => "stacys.mom"
    case EdnyNet => "edny.net"
  }

  /** The position of a variant in the declaration. */
  function Index(d: Domain): nat
  {
    match d
    case TenMinMailDe => 0
    case TenMinutenMailXyz => 1
    case ExistiertNet => 2
    case FliegenderFish => 3
    case JagaEmail => 4
    case MdzEmail => 5
    case MuellMailCom => 6
    case MuelleMailCom => 7
    case MuellMonster => 8
    case MuellIcu => 9
    case MuellIo => 10
    case MuellXyz => 11
    case MagSpamNet => 12
    case FukaruCom => 13
    case OidaIcu => 14
    case PapierkorbMe => 15
    case SpamCare => 16
    case TonneTo => 17
    case UltraFyi => 18
    case WegwerfEmailDe => 19
    case DsgvoParty => 20
    case KnickerbockerbanDe => 21
    case LambsauceDe => 22
    case RamenMailDe => 23
    case Ji5De => 24
    case Ji6De => 25
    case Ji7De => 26
    case SudernDe => 27
    case HihiLol => 28
    case KeinDate => 29
    case HolioDay => 30
    case CornHolioDay => 31
    case BungHolioDay => 32
    case StacysMom => 33
    case EdnyNet => 34
  }

  predicate IsDomainChar(c: char) {
    'a' <= c <= 'z' || '0' <= c <= '9' || c == '.'
  }

  /** The shape of every catalogue string: non-empty, only lower-case letters,
      digits and dots, and at least one dot. */
  predicate IsDomainName(s: string) {
    && |s| > 0
    && '.' in s
    && forall i :: 0 <= i < |s| ==> IsDomainChar(s[i])
  }

  /** Looks a display string up by its length and a few of its characters, then
      compares it whole: the inverse of ToString. */
  function FromString(s: string): Option<Domain>
  {
    if |s| == 6 then
      if s[2] == '5' then
        if s == "ji5.de" then Some(Ji5De) else None
      else if s[2] == '6' then
        if s == "ji6.de" then Some(Ji6De) else None
      else if s[2] == '7' then
        if s == "ji7.de" then Some(Ji7De) else None
      else None
    else if |s| == 8 then
      if s[0] == 'e' then
        if s == "edny.net" then Some(EdnyNet) else None
      else if s[0] == 'h' then
        if s == "hihi.lol" then Some(HihiLol) else None
      else if s[0] == 'm' then
        if s == "muell.io" then Some(MuellIo) else None
      else if s[0] == 'o' then
        if s == "oida.icu" then Some(OidaIcu) else None
      else if s[0] == 't' then
        if s == "tonne.to" then Some(TonneTo) else None
      else None
    else if |s| == 9 then
      if s[2] == 'a' then
        if s == "spam.care" then Some(SpamCare) else None
      else if s[2] == 'd' then
        if s == "sudern.de" then Some(SudernDe) else None
      else if s[2] == 'e' then
        if s[6] == 'i' then
          if s == "muell.icu" then Some(MuellIcu) else None
        else if s[6] == 'x' then
          if s == "muell.xyz" then Some(MuellXyz) else None
        else None
      else if s[2] == 'i' then
        if s == "kein.date" then Some(KeinDate) else None
      else if s[2] == 'l' then
        if s == "holio.day" then Some(HolioDay) else None
      else if s[2] == 't' then
        if s == "ultra.fyi" then Some(UltraFyi) else None
      else if s[2] == 'z' then
        if s == "mdz.email" then Some(MdzEmail) else None
      else None
    else if |s| == 10 then
      if s[0] == 'f' then
        if s == "fukaru.com" then Some(FukaruCom) else None
      else if s[0] == 'j' then
        if s == "jaga.email" then Some(JagaEmail) else None
      else if s[0] == 's' then
        if s == "stacys.mom" then Some(StacysMom) else None
      else None
    else if |s| == 11 then
      if s[0] == 'd' then
        if s == "dsgvo.party" then Some(DsgvoParty) else None
      else if s[0] == 'm' then
        if s == "magspam.net" then Some(MagSpamNet) else None
      else None
    else if |s| == 12 then
      if s[0] == '1' then
        if s == "10minmail.de" then Some(TenMinMailDe) else None
      else if s[0] == 'l' then
        if s == "lambsauce.de" then Some(LambsauceDe) else None
      else if s[0] == 'r' then
        if s == "ramenmail.de" then Some(RamenMailDe) else None
      else None
    else if |s| == 13 then
      if s[5] == '.' then
        if s == "muell.monster" then Some(MuellMonster) else None
      else if s[5] == 'i' then
        if s == "existiert.net" then Some(ExistiertNet) else None
      else if s[5] == 'm' then
        if s == "muellmail.com" then Some(MuellMailCom) else None
      else if s[5] == 'r' then
        if s == "papierkorb.me" then Some(PapierkorbMe) else None
      else None
    else if |s| == 14 then
      if s[0] == 'b' then
        if s == "bung.holio.day" then Some(BungHolioDay) else None
      else if s[0] == 'c' then
        if s == "corn.holio.day" then Some(CornHolioDay) else None
      else if s[0] == 'm' then
        if s == "muellemail.com" then Some(MuelleMailCom) else None
      else None
    else if |s| == 15 then
      if s[0] == 'f' then
        if s == "fliegender.fish" then Some(FliegenderFish) else None
      else if s[0] == 'w' then
        if s == "wegwerfemail.de" then Some(WegwerfEmailDe) else None
      else None
    else if |s| == 17 then
      if s == "10minutenmail.xyz" then Some(TenMinutenMailXyz) else None
    else if |s| == 19 then
      if s == "knickerbockerban.de" then Some(KnickerbockerbanDe) else None
    else None
  }

  /** Every domain is recovered from its display string. */
  lemma FromToString(d: Domain)
    ensures FromString(ToString(d)) == Some(d)
  {
    if Index(d) < 18 {
      FromToStringFirst(d);
    } else {
      FromToStringLast(d);
    }
  }

  /** Display is injective: the 35 strings are pairwise distinct. */
  lemma ToStringInjective(a: Domain, b: Domain)
    ensures ToString(a) == ToString(b) ==> a == b
  {
    FromToString(a);
    FromToString(b);
  }

  /** Every display string is a lower-case dotted name, so none contains '@'. */
  lemma DomainNameShape(d: Domain)
    ensures IsDomainName(ToString(d))
    ensures '@' !in ToString(d)
  {
    if Index(d) < 2 {
      ShapeOfRange0To2(d);
    } else if Index(d) < 5 {
      ShapeOfRange2To5(d);
    } else if Index(d) < 8 {
      ShapeOfRange5To8(d);
    } else if Index(d) < 12 {
      ShapeOfRange8To12(d);
    } else if Index(d) < 15 {
      ShapeOfRange12To15(d);
    } else if Index(d) < 19 {
      ShapeOfRange15To19(d);
    } else if Index(d) < 21 {
      ShapeOfRange19To21(d);
    } else if Index(d) < 23 {
      ShapeOfRange21To23(d);
    } else if Index(d) < 28 {
      ShapeOfRange23To28(d);
    } else if Index(d) < 32 {
      ShapeOfRange28To32(d);
    } else {
      ShapeOfRange32To35(d);
    }
  }

  /** The catalogue lists every variant, at its declared position... */
  lemma AllDomainsListsEvery(d: Domain)
    ensures |AllDomains| == 35
    ensures Index(d) < |AllDomains| && AllDomains[Index(d)] == d
  {
    if Index(d) < 12 {
      PositionOfFirst(d);
    } else if Index(d) < 24 {
      PositionOfMiddle(d);
    } else {
      PositionOfLast(d);
    }
  }

  /** ...and lists each one exactly once. */
  lemma AllDomainsDistinct()
    ensures forall i, j :: 0 <= i < j < |AllDomains| ==> AllDomains[i] != AllDomains[j]
  {
    forall i | 0 <= i < |AllDomains|
      ensures Index(AllDomains[i]) == i
    {
      if i < 12 {
        IndexOfFirst(i);
      } else if i < 24 {
        IndexOfMiddle(i);
      } else {
        IndexOfLast(i);
      }
    }
  }

  // Case splits over slices of the declaration order. They state nothing
  // beyond the lemmas above and model nothing of their own: each keeps one
  // proof obligation small enough for the solver.

  lemma FromToStringFirst(d: Domain)
    requires Index(d) < 18
    ensures FromString(ToString(d)) == Some(d)
  {
  }

  lemma FromToStringLast(d: Domain)
    requires 18 <= Index(d)
    ensures FromString(ToString(d)) == Some(d)
  {
  }

  lemma ShapeOfRange0To2(d: Domain)
    requires Index(d) < 2
    ensures IsDomainName(ToString(d))
  {
  }

  lemma ShapeOfRange2To5(d: Domain)
    requires 2 <= Index(d) < 5
    ensures IsDomainName(ToString(d))
  {
  }

  lemma ShapeOfRange5To8(d: Domain)
    requires 5 <= Index(d) < 8
    ensures IsDomainName(ToString(d))
  {
  }

  lemma ShapeOfRange8To12(d: Domain)
    requires 8 <= Index(d) < 12
    ensures IsDomainName(ToString(d))
  {
  }

  lemma ShapeOfRange12To15(d: Domain)
    requires 12 <= Index(d) < 15
    ensures IsDomainName(ToString(d))
  {
  }

  lemma ShapeOfRange15To19(d: Domain)
    requires 15 <= Index(d) < 19
    ensures IsDomainName(ToString(d))
  {
  }

  lemma ShapeOfRange19To21(d: Domain)
    requires 19 <= Index(d) < 21
    ensures IsDomainName(ToString(d))
  {
  }

  lemma ShapeOfRange21To23(d: Domain)
    requires 21 <= Index(d) < 23
    ensures IsDomainName(ToString(d))
  {
  }

  lemma ShapeOfRange23To28(d: Domain)
    requires 23 <= Index(d) < 28
    ensures IsDomainName(ToString(d))
  {
  }

  lemma ShapeOfRange28To32(d: Domain)
    requires 28 <= Index(d) < 32
    ensures IsDomainName(ToString(d))
  {
  }

  lemma ShapeOfRange32To35(d: Domain)
    requires 32 <= Index(d)
    ensures IsDomainName(ToString(d))
  {
  }

  lemma PositionOfFirst(d: Domain)
    requires Index(d) < 12
    ensures AllDomains[Index(d)] == d
  {
  }

  lemma PositionOfMiddle(d: Domain)
    requires 12 <= Index(d) < 24
    ensures AllDomains[Index(d)] == d
  {
  }

  lemma PositionOfLast(d: Domain)
    requires 24 <= Index(d)
    ensures AllDomains[Index(d)] == d
  {
  }

  lemma IndexOfFirst(i: nat)
    requires i < 12
    ensures Index(AllDomains[i]) == i
  {
  }

  lemma IndexOfMiddle(i: nat)
    requires 12 <= i < 24
    ensures Index(AllDomains[i]) == i
  {
  }

  lemma IndexOfLast(i: nat)
    requires 24 <= i < 35
    ensures Index(AllDomains[i]) == i
  {
  }
}
