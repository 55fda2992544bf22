/** The configured interview areas: their start-up validation and the lookups that
    turn the names an evaluation mentions into configured slugs. */
module AreaConfigs {
  import opened Text

  datatype AreaConfig = AreaConfig(id: int, slug: string, lbl: string)

  datatype PreAddressedArea = PreAddressedArea(slug: string, evidence: string)

  datatype OtherCriterion = OtherCriterion(name: string, evidenceSummary: string)

  function Key(slug: string): string { Lower(Trim(slug)) }

  predicate UsableArea(area: AreaConfig) { area.id > 0 && !Blank(area.slug) }

  /** Two areas with different ids and different keys. */
  predicate Apart(a: AreaConfig, b: AreaConfig) { a.id != b.id && Key(a.slug) != Key(b.slug) }

  /** The first n areas are usable and pairwise apart. */
  ghost predicate GoodUpTo(areas: seq<AreaConfig>, n: nat)
    requires n <= |areas|
  {
    && (forall i {:trigger UsableArea(areas[i])} :: 0 <= i < n ==> UsableArea(areas[i]))
    && (forall i, j {:trigger Apart(areas[i], areas[j])} :: 0 <= i < j < n ==> Apart(areas[i], areas[j]))
  }

  /** What start-up validation promises the rest of the service. */
  ghost predicate ValidAreas(areas: seq<AreaConfig>) {
    areas != [] && GoodUpTo(areas, |areas|)
  }

  function IdsOf(areas: seq<AreaConfig>, n: nat): set<int>
    requires n <= |areas|
  {
    if n == 0 then {} else IdsOf(areas, n - 1) + {areas[n - 1].id}
  }

  function KeysOf(areas: seq<AreaConfig>, n: nat): set<string>
    requires n <= |areas|
  {
    if n == 0 then {} else KeysOf(areas, n - 1) + {Key(areas[n - 1].slug)}
  }

  /** An area is apart from the first n exactly when neither its id nor its key is among theirs. */
  lemma {:induction false} NotSeenBefore(areas: seq<AreaConfig>, n: nat, area: AreaConfig)
    requires n <= |areas|
    ensures area.id !in IdsOf(areas, n) && Key(area.slug) !in KeysOf(areas, n)
            <==> forall k :: 0 <= k < n ==> Apart(areas[k], area)
  {
    if n > 0 {
      NotSeenBefore(areas, n - 1, area);
      assert Apart(areas[n - 1], area) <==> areas[n - 1].id != area.id && Key(areas[n - 1].slug) != Key(area.slug);
    }
  }

  /** What the scan rejects: an area that is unusable or repeats an id or a key already seen. */
  predicate Rejected(area: AreaConfig, ids: set<int>, keys: set<string>) {
    area.id <= 0 || Trim(area.slug) == "" || area.id in ids || Lower(Trim(area.slug)) in keys
  }

  lemma RejectedMeans(area: AreaConfig, ids: set<int>, keys: set<string>)
    ensures Rejected(area, ids, keys) <==> !UsableArea(area) || area.id in ids || Key(area.slug) in keys
  {
  }

  /** The scan goes on exactly while the areas seen are good. */
  lemma ScanStep(areas: seq<AreaConfig>, i: nat)
    requires i < |areas| && GoodUpTo(areas, i)
    ensures Rejected(areas[i], IdsOf(areas, i), KeysOf(areas, i)) <==> !GoodUpTo(areas, i + 1)
  {
    RejectedMeans(areas[i], IdsOf(areas, i), KeysOf(areas, i));
    NotSeenBefore(areas, i, areas[i]);
    assert GoodUpTo(areas, i + 1) ==> UsableArea(areas[i]);
    if GoodUpTo(areas, i + 1) {
      forall k | 0 <= k < i
        ensures Apart(areas[k], areas[i])
      {
      }
    }
  }

  lemma GoodBeginning(areas: seq<AreaConfig>, n: nat)
    requires n <= |areas| && GoodUpTo(areas, |areas|)
    ensures GoodUpTo(areas, n)
  {
  }

  /** Accepts a configuration exactly when every slug and id is usable and distinct. */
  method ValidateAreaConfigs(areas: seq<AreaConfig>, midpoint: int) returns (ok: bool)
    ensures ok <==> ValidAreas(areas) && 0 <= midpoint < |areas|
  {
    if |areas| == 0 || midpoint < 0 || midpoint >= |areas| {
      return false;
    }
    var seenIds: set<int> := {};
    var seenSlugs: set<string> := {};
    for i := 0 to |areas|
      invariant GoodUpTo(areas, i)
      invariant seenIds == IdsOf(areas, i) && seenSlugs == KeysOf(areas, i)
    {
      ScanStep(areas, i);
      if GoodUpTo(areas, |areas|) { GoodBeginning(areas, i + 1); }
      if areas[i].id <= 0 { return false; }
      var slug := Trim(areas[i].slug);
      if slug == "" { return false; }
      if areas[i].id in seenIds { return false; }
      if Lower(slug) in seenSlugs { return false; }
      seenIds := seenIds + {areas[i].id};
      seenSlugs := seenSlugs + {Lower(slug)};
    }
    return true;
  }

  function Slugs(areas: seq<AreaConfig>): (s: seq<string>)
    ensures |s| == |areas| && forall i :: 0 <= i < |areas| ==> s[i] == areas[i].slug
  {
    seq(|areas|, i requires 0 <= i < |areas| => areas[i].slug)
  }

  /** No two slugs agree even when case is ignored. */
  ghost predicate FoldDistinct(slugs: seq<string>) {
    forall i, j :: 0 <= i < |slugs| && 0 <= j < |slugs| && EqualFold(slugs[i], slugs[j]) ==> i == j
  }

  /** Validation compares trimmed slugs, the database compares them untrimmed; the first rules out clashes in the
      second. */
  lemma ValidAreasFoldDistinct(areas: seq<AreaConfig>)
    requires ValidAreas(areas)
    ensures FoldDistinct(Slugs(areas))
    ensures forall s :: s in Slugs(areas) ==> !Blank(s)
  {
    var slugs := Slugs(areas);
    forall k | 0 <= k < |slugs|
      ensures !Blank(slugs[k])
    {
      assert UsableArea(areas[k]);
    }
    forall i, j | 0 <= i < |slugs| && 0 <= j < |slugs| && EqualFold(slugs[i], slugs[j])
      ensures i == j
    {
      CaseTrimCommute(slugs[i]);
      CaseTrimCommute(slugs[j]);
      assert Key(areas[i].slug) == Key(areas[j].slug);
      assert i < j ==> Apart(areas[i], areas[j]);
      assert j < i ==> Apart(areas[j], areas[i]);
    }
  }

  predicate Names(a: AreaConfig, name: string) {
    EqualFold(a.slug, name) || EqualFold(a.lbl, name)
  }

  /** The position of the first area at or after `from` that carries the name, or the number of areas. */
  function FindNamed(areas: seq<AreaConfig>, name: string, from: nat): (i: nat)
    requires from <= |areas|
    ensures from <= i <= |areas|
    ensures i < |areas| ==> Names(areas[i], name)
    ensures forall k :: from <= k < i ==> !Names(areas[k], name)
    decreases |areas| - from
  {
    if from == |areas| || Names(areas[from], name) then from else FindNamed(areas, name, from + 1)
  }

  /** The slug of the first area whose slug or label is the given name, or the empty text. */
  function MatchAreaSlug(areas: seq<AreaConfig>, name: string): string {
    var i := FindNamed(areas, name, 0);
    if i < |areas| then areas[i].slug else ""
  }

  /** The flags one evaluation raises on other areas, in the order it raised them. */
  function PreAddressedOf(areas: seq<AreaConfig>, other: seq<OtherCriterion>): seq<PreAddressedArea> {
    if other == [] then []
    else
      var init := PreAddressedOf(areas, other[..|other| - 1]);
      var item := other[|other| - 1];
      var slug := MatchAreaSlug(areas, item.name);
      if slug == "" then init else init + [PreAddressedArea(slug, item.evidenceSummary)]
  }

  method ExtractPreAddressed(areas: seq<AreaConfig>, other: seq<OtherCriterion>) returns (flags: seq<PreAddressedArea>)
    ensures flags == PreAddressedOf(areas, other)
  {
    flags := [];
    for i := 0 to |other|
      invariant flags == PreAddressedOf(areas, other[..i])
    {
      assert other[..i + 1][..i] == other[..i];
      var slug := MatchAreaSlug(areas, other[i].name);
      if slug != "" {
        flags := flags + [PreAddressedArea(slug, other[i].evidenceSummary)];
      }
    }
    assert other[..|other|] == other;
  }

  /** The area an item is about: the first whose slug or label it names, ignoring case. */
  ghost predicate IsAbout(areas: seq<AreaConfig>, name: string, i: nat)
    requires i < |areas|
  {
    && (Lower(areas[i].slug) == Lower(name) || Lower(areas[i].lbl) == Lower(name))
    && forall k :: 0 <= k < i ==> Lower(areas[k].slug) != Lower(name) && Lower(areas[k].lbl) != Lower(name)
  }

  lemma FoundIsAbout(areas: seq<AreaConfig>, name: string, i: nat)
    requires i < |areas|
    ensures IsAbout(areas, name, i) <==> FindNamed(areas, name, 0) == i
  {
    var found := FindNamed(areas, name, 0);
    if IsAbout(areas, name, i) {
      assert Names(areas[i], name);
      assert found < i ==> Names(areas[found], name);
    } else if found == i {
      assert Names(areas[i], name);
      var k :| 0 <= k < i && (Lower(areas[k].slug) == Lower(name) || Lower(areas[k].lbl) == Lower(name));
      assert Names(areas[k], name);
    }
  }

  /** Every item raises one flag, after those of the items before it: its own evidence on the first area it names. An
      item that names no area, or one without a slug, raises none. */
  lemma OneMoreFlag(areas: seq<AreaConfig>, other: seq<OtherCriterion>, item: OtherCriterion)
    ensures PreAddressedOf(areas, []) == []
    ensures forall i :: 0 <= i < |areas| && areas[i].slug != "" && IsAbout(areas, item.name, i) ==>
              PreAddressedOf(areas, other + [item])
              == PreAddressedOf(areas, other) + [PreAddressedArea(areas[i].slug, item.evidenceSummary)]
    ensures (forall i :: 0 <= i < |areas| && IsAbout(areas, item.name, i) ==> areas[i].slug == "") ==>
              PreAddressedOf(areas, other + [item]) == PreAddressedOf(areas, other)
  {
    ItemIsMatched(areas, other, item);
    forall i | 0 <= i < |areas|
      ensures IsAbout(areas, item.name, i) <==> FindNamed(areas, item.name, 0) == i
    {
      FoundIsAbout(areas, item.name, i);
    }
  }

  lemma ItemIsMatched(areas: seq<AreaConfig>, other: seq<OtherCriterion>, item: OtherCriterion)
    ensures var slug := MatchAreaSlug(areas, item.name);
            PreAddressedOf(areas, other + [item]) ==
            PreAddressedOf(areas, other) + if slug == "" then [] else [PreAddressedArea(slug, item.evidenceSummary)]
  {
    assert (other + [item])[..|other|] == other;
  }

  ghost predicate FlagsConfigured(slugs: seq<string>, flags: seq<PreAddressedArea>) {
    forall k :: 0 <= k < |flags| ==> flags[k].slug in slugs
  }

  /** Every flag that survives extraction carries a configured slug, spelled as configured. */
  lemma {:induction false} ExtractedFlagsAreConfigured(areas: seq<AreaConfig>, other: seq<OtherCriterion>)
    ensures FlagsConfigured(Slugs(areas), PreAddressedOf(areas, other))
    decreases |other|
  {
    if other != [] {
      ExtractedFlagsAreConfigured(areas, other[..|other| - 1]);
      var slug := MatchAreaSlug(areas, other[|other| - 1].name);
      if slug != "" {
        assert Slugs(areas)[FindNamed(areas, other[|other| - 1].name, 0)] == slug;
      }
    }
  }
}
