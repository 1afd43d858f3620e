/** The company context: what makes it complete, what is written, and which audience a brief gets. */
module CompanyContext {
  import opened Prelude
  import opened Text

  datatype OfferItem = OfferItem(name: string, benefit: seq<string>, description: string)
  datatype CtaItem = CtaItem(labelText: string, target: Option<string>)
  datatype Profile = Profile(name: string, description: string)
  datatype Identity = Identity(name: string, description: string)
  datatype Voice = Voice(weDo: string, weDont: string)

  /** `X` is the type of the extras, which no rule looks into. */
  datatype Context<X> = Context(
    identity: Identity,
    offer: seq<OfferItem>,
    voice: Voice,
    cta: seq<CtaItem>,
    audience: seq<Profile>,
    extras: Option<X>)

  datatype Section = IdentitySection | OfferSection | VoiceSection | CtaSection | AudienceSection

  const GATE_SECTIONS := [IdentitySection, OfferSection, VoiceSection, CtaSection, AudienceSection]

  predicate CompleteOffer(item: OfferItem) {
    !Blank(item.name) && !Blank(item.description)
    && |item.benefit| >= 1 && forall j :: 0 <= j < |item.benefit| ==> !Blank(item.benefit[j])
  }

  predicate CompleteCta(item: CtaItem) {
    !Blank(item.labelText)
  }

  predicate CompleteProfile(profile: Profile) {
    !Blank(profile.name) && !Blank(profile.description)
  }

  predicate SectionFilled<X>(c: Context<X>, s: Section) {
    match s
    case IdentitySection => !Blank(c.identity.name) && !Blank(c.identity.description)
    case OfferSection => |c.offer| >= 1 && forall i :: 0 <= i < |c.offer| ==> CompleteOffer(c.offer[i])
    case VoiceSection => !Blank(c.voice.weDo) && !Blank(c.voice.weDont)
    case CtaSection => |c.cta| >= 1 && forall i :: 0 <= i < |c.cta| ==> CompleteCta(c.cta[i])
    case AudienceSection => |c.audience| >= 1 && forall i :: 0 <= i < |c.audience| ==> CompleteProfile(c.audience[i])
  }

  ghost predicate Complete<X>(c: Context<X>) {
    forall s :: SectionFilled(c, s)
  }

  method IsComplete<X>(c: Context<X>) returns (complete: bool, missing: seq<Section>)
    ensures complete <==> Complete(c)
    ensures complete <==> missing == []
    ensures forall s :: s in missing <==> !SectionFilled(c, s)
  {
    missing := [];
    for n := 0 to |GATE_SECTIONS|
      invariant forall s :: s in missing <==> s in GATE_SECTIONS[..n] && !SectionFilled(c, s)
    {
      assert GATE_SECTIONS[..n + 1] == GATE_SECTIONS[..n] + [GATE_SECTIONS[n]];
      if !SectionFilled(c, GATE_SECTIONS[n]) {
        missing := missing + [GATE_SECTIONS[n]];
      }
    }
    assert GATE_SECTIONS[..|GATE_SECTIONS|] == GATE_SECTIONS;
    AllSections();
    complete := |missing| == 0;
    if !complete { assert missing[0] in missing; }
  }

  lemma AllSections()
    ensures forall s: Section :: s in GATE_SECTIONS
  {
    forall s: Section
      ensures s in GATE_SECTIONS
    {
      var i := match s
               case IdentitySection => 0
               case OfferSection => 1
               case VoiceSection => 2
               case CtaSection => 3
               case AudienceSection => 4;
      assert GATE_SECTIONS[i] == s;
    }
  }

  // ---------------------------------------------------------------------------
  // The paths of blank fields
  // ---------------------------------------------------------------------------

  datatype Path =
    | OfferName(item: nat)
    | OfferDescription(item: nat)
    | OfferBenefit(item: nat)
    | OfferBenefitEntry(item: nat, entry: nat)
    | CtaLabel(item: nat)
    | ProfileName(item: nat)
    | ProfileDescription(item: nat)

  /** The field at a path is there and blank; a list of benefits is blank when it is empty. */
  predicate BlankAt<X>(c: Context<X>, p: Path) {
    match p
    case OfferName(i) => i < |c.offer| && Blank(c.offer[i].name)
    case OfferDescription(i) => i < |c.offer| && Blank(c.offer[i].description)
    case OfferBenefit(i) => i < |c.offer| && c.offer[i].benefit == []
    case OfferBenefitEntry(i, j) => i < |c.offer| && j < |c.offer[i].benefit| && Blank(c.offer[i].benefit[j])
    case CtaLabel(i) => i < |c.cta| && Blank(c.cta[i].labelText)
    case ProfileName(i) => i < |c.audience| && Blank(c.audience[i].name)
    case ProfileDescription(i) => i < |c.audience| && Blank(c.audience[i].description)
  }

  predicate OfOffer(p: Path) {
    p.OfferName? || p.OfferDescription? || p.OfferBenefit? || p.OfferBenefitEntry?
  }

  predicate OfAudience(p: Path) {
    p.ProfileName? || p.ProfileDescription?
  }

  ghost predicate EachOnce(ps: seq<Path>) {
    forall i, j :: 0 <= i < j < |ps| ==> ps[i] != ps[j]
  }

  lemma Join(a: seq<Path>, b: seq<Path>)
    requires EachOnce(a) && EachOnce(b) && forall p :: p in a ==> p !in b
    ensures EachOnce(a + b)
  {
    forall i, j | 0 <= i < j < |a + b|
      ensures (a + b)[i] != (a + b)[j]
    {
      if i < |a| && j >= |a| { assert a[i] in a && b[j - |a|] in b; }
    }
  }

  method BenefitPaths(benefit: seq<string>, index: nat) returns (ps: seq<Path>)
    ensures forall p ::
              p in ps <==> p.OfferBenefitEntry? && p.item == index && p.entry < |benefit| && Blank(benefit[p.entry])
    ensures EachOnce(ps)
  {
    ps := [];
    for j := 0 to |benefit|
      invariant forall p ::
                  p in ps <==> p.OfferBenefitEntry? && p.item == index && p.entry < j && Blank(benefit[p.entry])
      invariant EachOnce(ps)
    {
      if Blank(benefit[j]) {
        Join(ps, [OfferBenefitEntry(index, j)]);
        ps := ps + [OfferBenefitEntry(index, j)];
      }
    }
  }

  method OfferPaths<X>(c: Context<X>, index: nat) returns (ps: seq<Path>)
    requires index < |c.offer|
    ensures forall p :: p in ps <==> OfOffer(p) && p.item == index && BlankAt(c, p)
    ensures EachOnce(ps)
  {
    var item := c.offer[index];
    ps := [];
    if CompleteOffer(item) { return; }
    if |Trim(item.name)| == 0 { ps := ps + [OfferName(index)]; }
    if |Trim(item.description)| == 0 { ps := ps + [OfferDescription(index)]; }
    var more := OwnBenefitPaths(item.benefit, index);
    Join(ps, more);
    ps := ps + more;
  }

  method OwnBenefitPaths(benefit: seq<string>, index: nat) returns (ps: seq<Path>)
    ensures forall p :: p in ps <==>
              (p == OfferBenefit(index) && benefit == [])
                  || (p.OfferBenefitEntry? && p.item == index && p.entry < |benefit| && Blank(benefit[p.entry]))
    ensures EachOnce(ps)
  {
    if |benefit| == 0 {
      ps := [OfferBenefit(index)];
    } else {
      ps := BenefitPaths(benefit, index);
    }
  }

  method ProfilePaths<X>(c: Context<X>, index: nat) returns (ps: seq<Path>)
    requires index < |c.audience|
    ensures forall p :: p in ps <==> OfAudience(p) && p.item == index && BlankAt(c, p)
    ensures EachOnce(ps)
  {
    var profile := c.audience[index];
    ps := [];
    if CompleteProfile(profile) { return; }
    if |Trim(profile.name)| == 0 { ps := ps + [ProfileName(index)]; }
    if |Trim(profile.description)| == 0 { ps := ps + [ProfileDescription(index)]; }
  }

  method AllOfferPaths<X>(c: Context<X>) returns (ps: seq<Path>)
    ensures forall p :: p in ps <==> OfOffer(p) && BlankAt(c, p)
    ensures EachOnce(ps)
  {
    ps := [];
    for n := 0 to |c.offer|
      invariant forall p :: p in ps <==> OfOffer(p) && p.item < n && BlankAt(c, p)
      invariant EachOnce(ps)
    {
      var more := OfferPaths(c, n);
      Join(ps, more);
      ps := ps + more;
    }
  }

  method AllCtaPaths<X>(c: Context<X>) returns (ps: seq<Path>)
    ensures forall p :: p in ps <==> p.CtaLabel? && BlankAt(c, p)
    ensures EachOnce(ps)
  {
    ps := [];
    for n := 0 to |c.cta|
      invariant forall p :: p in ps <==> p.CtaLabel? && p.item < n && BlankAt(c, p)
      invariant EachOnce(ps)
    {
      if !CompleteCta(c.cta[n]) {
        Join(ps, [CtaLabel(n)]);
        ps := ps + [CtaLabel(n)];
      }
    }
  }

  method AllProfilePaths<X>(c: Context<X>) returns (ps: seq<Path>)
    ensures forall p :: p in ps <==> OfAudience(p) && BlankAt(c, p)
    ensures EachOnce(ps)
  {
    ps := [];
    for n := 0 to |c.audience|
      invariant forall p :: p in ps <==> OfAudience(p) && p.item < n && BlankAt(c, p)
      invariant EachOnce(ps)
    {
      var more := ProfilePaths(c, n);
      Join(ps, more);
      ps := ps + more;
    }
  }

  /** Exactly the blank item fields, each once; none exactly when every item is complete. */
  method CollectGateItemPaths<X>(c: Context<X>) returns (details: seq<Path>)
    ensures forall p :: p in details <==> BlankAt(c, p)
    ensures EachOnce(details)
    ensures details == [] <==> ItemsComplete(c)
  {
    var offers := AllOfferPaths(c);
    var ctas := AllCtaPaths(c);
    var profiles := AllProfilePaths(c);
    Join(offers, ctas);
    Join(offers + ctas, profiles);
    details := offers + ctas + profiles;
    NothingBlankIff(c);
    if details != [] { assert details[0] in details; }
  }

  predicate ItemsComplete<X>(c: Context<X>) {
    && (forall i :: 0 <= i < |c.offer| ==> CompleteOffer(c.offer[i]))
    && (forall i :: 0 <= i < |c.cta| ==> CompleteCta(c.cta[i]))
    && (forall i :: 0 <= i < |c.audience| ==> CompleteProfile(c.audience[i]))
  }

  lemma NothingBlankIff<X>(c: Context<X>)
    ensures ItemsComplete(c) <==> forall p :: !BlankAt(c, p)
  {
    if forall p :: !BlankAt(c, p) {
      forall i | 0 <= i < |c.offer|
        ensures CompleteOffer(c.offer[i])
      {
        assert !BlankAt(c, OfferName(i)) && !BlankAt(c, OfferDescription(i)) && !BlankAt(c, OfferBenefit(i));
        forall j | 0 <= j < |c.offer[i].benefit|
          ensures !Blank(c.offer[i].benefit[j])
        {
          assert !BlankAt(c, OfferBenefitEntry(i, j));
        }
      }
      forall i | 0 <= i < |c.cta|
        ensures CompleteCta(c.cta[i])
      {
        assert !BlankAt(c, CtaLabel(i));
      }
      forall i | 0 <= i < |c.audience|
        ensures CompleteProfile(c.audience[i])
      {
        assert !BlankAt(c, ProfileName(i)) && !BlankAt(c, ProfileDescription(i));
      }
    }
  }

  // ---------------------------------------------------------------------------
  // Unique names
  // ---------------------------------------------------------------------------

  /** Lower-casing that maps no text but the empty one to nothing. */
  ghost predicate FoldsCase(lower: string -> string) {
    forall s :: lower(s) == "" <==> s == ""
  }

  function Normalize(lower: string -> string, name: string): string {
    lower(Trim(name))
  }

  /** No two profiles share a normalised name, blank names apart. */
  ghost predicate NamesUnique(lower: string -> string, profiles: seq<Profile>) {
    forall i, j :: 0 <= i < j < |profiles| && Normalize(lower, profiles[i].name) == Normalize(lower, profiles[j].name)
                   ==> Normalize(lower, profiles[i].name) == ""
  }

  method AssertAudienceProfileNamesUnique(lower: string -> string, profiles: seq<Profile>) returns (unique: bool)
    ensures unique <==> NamesUnique(lower, profiles)
  {
    var seen: set<string> := {};
    for n := 0 to |profiles|
      invariant seen == KeysBefore(lower, profiles, n)
      invariant UniqueBefore(lower, profiles, n)
    {
      UniqueStep(lower, profiles, n);
      var key := Normalize(lower, profiles[n].name);
      if |key| == 0 {
        continue;
      }
      if key in seen {
        return false;
      }
      seen := seen + {key};
    }
    return true;
  }

  ghost function KeysBefore(lower: string -> string, profiles: seq<Profile>, n: nat): set<string>
    requires n <= |profiles|
  {
    set i | 0 <= i < n && Normalize(lower, profiles[i].name) != "" :: Normalize(lower, profiles[i].name)
  }

  ghost predicate UniqueBefore(lower: string -> string, profiles: seq<Profile>, n: nat)
    requires n <= |profiles|
  {
    forall i, j :: 0 <= i < j < n && Normalize(lower, profiles[i].name) == Normalize(lower, profiles[j].name)
                   ==> Normalize(lower, profiles[i].name) == ""
  }

  lemma UniqueStep(lower: string -> string, profiles: seq<Profile>, n: nat)
    requires n < |profiles|
    ensures var key := Normalize(lower, profiles[n].name);
            && KeysBefore(lower, profiles, n + 1) == KeysBefore(lower, profiles, n) + (if key == "" then {} else {key})
            && (UniqueBefore(lower, profiles, n + 1)
                <==> UniqueBefore(lower, profiles, n) && key !in KeysBefore(lower, profiles, n))
  {
    var key := Normalize(lower, profiles[n].name);
    if key in KeysBefore(lower, profiles, n) {
      var i :| 0 <= i < n && Normalize(lower, profiles[i].name) == key != "";
      assert !UniqueBefore(lower, profiles, n + 1);
    } else {
      assert forall i :: 0 <= i < n && Normalize(lower, profiles[i].name) != "" ==>
             Normalize(lower, profiles[i].name) in KeysBefore(lower, profiles, n);
    }
  }

  // ---------------------------------------------------------------------------
  // Writing
  // ---------------------------------------------------------------------------

  ghost predicate Writable<X>(lower: string -> string, c: Context<X>) {
    Complete(c) && NamesUnique(lower, c.audience)
  }

  datatype WriteError = Incomplete(missing: seq<Section>, paths: seq<Path>) | NamesClash

  method AssertCompanyContextWritable<X>(lower: string -> string, c: Context<X>) returns (error: Option<WriteError>)
    ensures error.None? <==> Writable(lower, c)
    ensures error.Some? && error.value.Incomplete? ==>
              && error.value.missing != []
              && (forall s :: s in error.value.missing <==> !SectionFilled(c, s))
              && (forall p :: p in error.value.paths <==> BlankAt(c, p))
    ensures error == Some(NamesClash) ==> Complete(c)
  {
    var complete, missing := IsComplete(c);
    if !complete {
      var paths := CollectGateItemPaths(c);
      return Some(Incomplete(missing, paths));
    }
    var unique := AssertAudienceProfileNamesUnique(lower, c.audience);
    if !unique { return Some(NamesClash); }
    return None;
  }

  function EmptyContext<X>(): Context<X> {
    Context(Identity("", ""), [], Voice("", ""), [], [], None)
  }

  /** A change to some fields; `extras` may be set to nothing. */
  datatype Partial<X> = Partial(
    name: Option<string>,
    description: Option<string>,
    offer: Option<seq<OfferItem>>,
    weDo: Option<string>,
    weDont: Option<string>,
    cta: Option<seq<CtaItem>>,
    audience: Option<seq<Profile>>,
    extras: Option<Option<X>>)

  function Merge<X>(current: Context<X>, p: Partial<X>): Context<X> {
    Context(
      Identity(p.name.GetOr(current.identity.name), p.description.GetOr(current.identity.description)),
      p.offer.GetOr(current.offer),
      Voice(p.weDo.GetOr(current.voice.weDo), p.weDont.GetOr(current.voice.weDont)),
      p.cta.GetOr(current.cta),
      p.audience.GetOr(current.audience),
      if p.extras.None? then current.extras else p.extras.value)
  }

  /** The second change over the first. */
  function Over<T>(second: Option<T>, first: Option<T>): Option<T> {
    if second.Some? then second else first
  }

  function Compose<X>(p: Partial<X>, q: Partial<X>): Partial<X> {
    Partial(Over(q.name, p.name), Over(q.description, p.description), Over(q.offer, p.offer), Over(q.weDo, p.weDo),
            Over(q.weDont, p.weDont), Over(q.cta, p.cta), Over(q.audience, p.audience), Over(q.extras, p.extras))
  }

  /** Two changes in a row are one change, so a change made twice is that change; and what a change leaves out stays. */
  lemma MergeComposes<X>(c: Context<X>, p: Partial<X>, q: Partial<X>)
    ensures Merge(Merge(c, p), q) == Merge(c, Compose(p, q))
    ensures Merge(Merge(c, p), p) == Merge(c, p)
    ensures Merge(c, Partial(None, None, None, None, None, None, None, None)) == c
  {
    assert Compose(p, p) == p;
  }

  /**
    Once a context is written, a patch is refused exactly for a blank or incomplete value, or clashing names, that it
    brings itself.
   */
  lemma PatchRefusedForItsOwn<X>(lower: string -> string, c: Context<X>, p: Partial<X>)
    requires Writable(lower, c)
    ensures Writable(lower, Merge(c, p)) <==>
            && (p.name.Some? ==> !Blank(p.name.value)) && (p.description.Some? ==> !Blank(p.description.value))
            && (p.weDo.Some? ==> !Blank(p.weDo.value)) && (p.weDont.Some? ==> !Blank(p.weDont.value))
            && (p.offer.Some? ==>
                  |p.offer.value| >= 1 && forall i :: 0 <= i < |p.offer.value| ==> CompleteOffer(p.offer.value[i]))
            && (p.cta.Some? ==>
                  |p.cta.value| >= 1 && forall i :: 0 <= i < |p.cta.value| ==> CompleteCta(p.cta.value[i]))
            && (p.audience.Some? ==>
                  && |p.audience.value| >= 1
                  && (forall i :: 0 <= i < |p.audience.value| ==> CompleteProfile(p.audience.value[i]))
                  && NamesUnique(lower, p.audience.value))
  {
    var m := Merge(c, p);
    assert SectionFilled(c, IdentitySection) && SectionFilled(c, OfferSection) && SectionFilled(c, VoiceSection);
    assert SectionFilled(c, CtaSection) && SectionFilled(c, AudienceSection);
    assert Complete(m)
           <==> SectionFilled(m, IdentitySection) && SectionFilled(m, OfferSection) && SectionFilled(m, VoiceSection)
                            && SectionFilled(m, CtaSection) && SectionFilled(m, AudienceSection);
  }

  // ---------------------------------------------------------------------------
  // The audience of a brief
  // ---------------------------------------------------------------------------

  function FirstMatch(lower: string -> string, profiles: seq<Profile>, needle: string): seq<Profile> {
    if profiles == [] then []
    else if Normalize(lower, profiles[0].name) == needle then [profiles[0]]
    else FirstMatch(lower, profiles[1..], needle)
  }

  method WithEffectiveAudience<X>(lower: string -> string, c: Context<X>, brief: Option<string>) returns (r: Context<X>)
    ensures r == c.(audience := EffectiveAudience(lower, c.audience, brief))
  {
    if brief.None? {
      return c.(audience := []);
    }
    var needle := Normalize(lower, brief.value);
    if |needle| == 0 {
      return c.(audience := []);
    }
    var i := 0;
    assert c.audience[0..] == c.audience;
    while i < |c.audience|
      invariant 0 <= i <= |c.audience|
      invariant FirstMatch(lower, c.audience, needle) == FirstMatch(lower, c.audience[i..], needle)
    {
      assert c.audience[i..][1..] == c.audience[i + 1..];
      if Normalize(lower, c.audience[i].name) == needle {
        return c.(audience := [c.audience[i]]);
      }
      i := i + 1;
    }
    return c.(audience := []);
  }

  function EffectiveAudience(lower: string -> string, profiles: seq<Profile>, brief: Option<string>): seq<Profile> {
    if brief.None? || Normalize(lower, brief.value) == "" then []
    else FirstMatch(lower, profiles, Normalize(lower, brief.value))
  }

  lemma {:induction false} FirstMatchIsMatch(lower: string -> string, profiles: seq<Profile>, needle: string)
    ensures var m := FirstMatch(lower, profiles, needle);
            && |m| <= 1
            && (m == [] <==> forall p :: p in profiles ==> Normalize(lower, p.name) != needle)
            && (m != [] ==> m[0] in profiles && Normalize(lower, m[0].name) == needle)
  {
    if profiles != [] {
      FirstMatchIsMatch(lower, profiles[1..], needle);
      assert profiles == [profiles[0]] + profiles[1..];
    }
  }

  /** For a written context the effective audience is the one matching profile, and none exactly when none matches. */
  lemma EffectiveIsTheMatch<X>(lower: string -> string, c: Context<X>, brief: string, p: Profile)
    requires Writable(lower, c) && FoldsCase(lower)
    ensures EffectiveAudience(lower, c.audience, Some(brief)) == [p]
            <==> p in c.audience && Normalize(lower, p.name) == Normalize(lower, brief)
    ensures |EffectiveAudience(lower, c.audience, Some(brief))| <= 1
  {
    var needle := Normalize(lower, brief);
    FirstMatchIsMatch(lower, c.audience, needle);
    assert SectionFilled(c, AudienceSection);
    if p in c.audience && Normalize(lower, p.name) == needle {
      var m := FirstMatch(lower, c.audience, needle);
      NameNotBlank(lower, c.audience, p);
      SameNameSameProfile(lower, c.audience, p, m[0]);
      assert m == [m[0]];
    }
  }

  lemma NameNotBlank(lower: string -> string, profiles: seq<Profile>, p: Profile)
    requires FoldsCase(lower) && p in profiles && forall i :: 0 <= i < |profiles| ==> CompleteProfile(profiles[i])
    ensures Normalize(lower, p.name) != ""
  {
    assert CompleteProfile(p);
  }

  lemma SameNameSameProfile(lower: string -> string, profiles: seq<Profile>, p: Profile, q: Profile)
    requires NamesUnique(lower, profiles) && p in profiles && q in profiles
    requires Normalize(lower, p.name) == Normalize(lower, q.name) != ""
    ensures p == q
  {
    var i :| 0 <= i < |profiles| && profiles[i] == p;
    var j :| 0 <= j < |profiles| && profiles[j] == q;
    assert i == j by {
      assert Normalize(lower, profiles[i].name) == Normalize(lower, profiles[j].name);
    }
  }

  /** So the order of the profiles does not matter. */
  lemma AudienceOrderIrrelevant<X>(lower: string -> string, a: Context<X>, b: Context<X>, brief: Option<string>)
    requires Writable(lower, a) && Writable(lower, b) && FoldsCase(lower)
    requires forall p :: p in a.audience <==> p in b.audience
    ensures EffectiveAudience(lower, a.audience, brief) == EffectiveAudience(lower, b.audience, brief)
  {
    if brief.Some? {
      var x, y := EffectiveAudience(lower, a.audience, brief), EffectiveAudience(lower, b.audience, brief);
      if x != [] {
        EffectiveIsTheMatch(lower, a, brief.value, x[0]);
        assert x == [x[0]];
        EffectiveIsTheMatch(lower, b, brief.value, x[0]);
      } else if y != [] {
        EffectiveIsTheMatch(lower, b, brief.value, y[0]);
        assert y == [y[0]];
        EffectiveIsTheMatch(lower, a, brief.value, y[0]);
      }
    }
  }

  /** With names that clash the order does matter, which is why the gate asks for unique ones. */
  lemma ClashMakesOrderMatter(lower: string -> string, p: Profile, q: Profile)
    requires p != q && Normalize(lower, p.name) == Normalize(lower, q.name) != ""
    ensures EffectiveAudience(lower, [p, q], Some(p.name)) != EffectiveAudience(lower, [q, p], Some(p.name))
    ensures !NamesUnique(lower, [p, q])
  {
    var ab, ba := [p, q], [q, p];
    assert FirstMatch(lower, ab, Normalize(lower, p.name)) == [p]
           && FirstMatch(lower, ba, Normalize(lower, p.name)) == [q];
    assert [p][0] != [q][0];
    assert ab[0] == p && ab[1] == q;
  }
}
