/** The taxonomy records: a `Taxonomy` row with its seven-level lineage, and a
    `BrackenResult` row holding the abundances of one taxon in one patient at
    the three timepoints and the deltas between them. */
module TaxonomyModels {
  import opened Wrappers
  import opened Text

  /** A lineage value counts when it is present and not only whitespace (`value and value.strip()`). */
  predicate NonBlank(v: Option<string>) {
    v.Some? && Trim(v.value) != ""
  }

  /** One taxonomic level: its name as reported (`class` for `class_name`), its
      title in the lineage text, and its value. */
  datatype Level = Level(name: string, title: string, value: Option<string>)

  /** The index of the first level with a non-blank value. */
  function FirstNonBlank(levels: seq<Level>): (r: Option<nat>)
    ensures r.Some? ==> r.value < |levels| && NonBlank(levels[r.value].value)
    ensures r.Some? ==> forall k :: 0 <= k < r.value ==> !NonBlank(levels[k].value)
    ensures r.None? ==> forall k :: 0 <= k < |levels| ==> !NonBlank(levels[k].value)
  {
    if levels == [] then None
    else if NonBlank(levels[0].value) then Some(0)
    else
      var rest := FirstNonBlank(levels[1..]);
      if rest.None? then None else Some(rest.value + 1)
  }

  /** The "Title: value" parts of the non-blank levels, in order. */
  function LineageParts(levels: seq<Level>): seq<string> {
    if levels == [] then []
    else
      var last := levels[|levels| - 1];
      LineageParts(levels[..|levels| - 1]) + (if NonBlank(last.value) then [last.title + ": " + last.value.value] else [])
  }

  /** A part count equals the non-blank level count; no part is empty when titles are not. */
  lemma {:induction false} LineagePartsShape(levels: seq<Level>)
    requires forall k :: 0 <= k < |levels| ==> levels[k].title != ""
    ensures LineageParts(levels) == [] <==> forall k :: 0 <= k < |levels| ==> !NonBlank(levels[k].value)
    ensures forall k :: 0 <= k < |LineageParts(levels)| ==> LineageParts(levels)[k] != ""
  {
    if levels != [] {
      var init := levels[..|levels| - 1];
      LineagePartsShape(init);
      assert forall k :: 0 <= k < |init| ==> init[k] == levels[k];
    }
  }

  class Taxonomy {
    var taxonomyId: string
    var domain: Option<string>
    var phylum: Option<string>
    var className: Option<string>
    var order: Option<string>
    var family: Option<string>
    var genus: Option<string>
    var species: Option<string>
    var functionalAnnotations: Option<map<string, string>>
    var totalAbundance: real
    var maxAbundance: real
    var minAbundance: real
    var meanAbundance: real
    var prevalence: real

    /** A taxonomy row with its lineage; the statistics start at 0.0. */
    constructor (taxonomyId: string, domain: Option<string>, phylum: Option<string>, className: Option<string>,
                 order: Option<string>, family: Option<string>, genus: Option<string>, species: Option<string>)
      ensures this.taxonomyId == taxonomyId && this.domain == domain && this.phylum == phylum
      ensures this.className == className && this.order == order && this.family == family
      ensures this.genus == genus && this.species == species
      ensures functionalAnnotations.None?
      ensures totalAbundance == maxAbundance == minAbundance == meanAbundance == prevalence == 0.0
    {
      this.taxonomyId := taxonomyId;
      this.domain := domain;
      this.phylum := phylum;
      this.className := className;
      this.order := order;
      this.family := family;
      this.genus := genus;
      this.species := species;
      functionalAnnotations := None;
      totalAbundance, maxAbundance, minAbundance, meanAbundance, prevalence := 0.0, 0.0, 0.0, 0.0, 0.0;
    }

    /** The levels from domain down to species. */
    function Lineage(): (r: seq<Level>)
      reads this
      ensures |r| == 7 && forall k :: 0 <= k < 7 ==> r[k].title != ""
    {
      [Level("domain", "Domain", domain), Level("phylum", "Phylum", phylum), Level("class", "Class", className),
       Level("order", "Order", order), Level("family", "Family", family), Level("genus", "Genus", genus),
       Level("species", "Species", species)]
    }

    /** The levels from species up to domain: the most specific first. */
    function MostSpecificFirst(): (r: seq<Level>)
      reads this
      ensures |r| == 7 && forall k :: 0 <= k < 7 ==> r[k] == Lineage()[6 - k]
    {
      [Level("species", "Species", species), Level("genus", "Genus", genus), Level("family", "Family", family),
       Level("order", "Order", order), Level("class", "Class", className), Level("phylum", "Phylum", phylum),
       Level("domain", "Domain", domain)]
    }

    /** `get_display_name`: the most specific non-blank level's value, else the taxonomy id. */
    function GetDisplayName(): (r: string)
      reads this
      ensures NonBlank(species) ==> r == species.value
      ensures forall k :: 0 <= k < 7 && NonBlank(MostSpecificFirst()[k].value)
                && (forall j :: 0 <= j < k ==> !NonBlank(MostSpecificFirst()[j].value))
                ==> r == MostSpecificFirst()[k].value.value
      ensures (forall k :: 0 <= k < 7 ==> !NonBlank(Lineage()[k].value)) ==> r == taxonomyId
    {
      var i := FirstNonBlank(MostSpecificFirst());
      if i.Some? then
        assert MostSpecificFirst()[i.value] == Lineage()[6 - i.value];
        MostSpecificFirst()[i.value].value.value
      else taxonomyId
    }

    /** `get_taxonomic_level`: the name of that same level, or "unknown". */
    function GetTaxonomicLevel(): (r: string)
      reads this
      ensures r == "unknown" <==> forall k :: 0 <= k < 7 ==> !NonBlank(Lineage()[k].value)
      ensures NonBlank(species) ==> r == "species"
      ensures forall k :: 0 <= k < 7 && NonBlank(MostSpecificFirst()[k].value)
                && (forall j :: 0 <= j < k ==> !NonBlank(MostSpecificFirst()[j].value))
                ==> r == MostSpecificFirst()[k].name
    {
      var i := FirstNonBlank(MostSpecificFirst());
      assert forall k :: 0 <= k < 7 ==> Lineage()[k] == MostSpecificFirst()[6 - k];
      if i.Some? then MostSpecificFirst()[i.value].name else "unknown"
    }

    /** The display name and the reported level come from the same level: when the
        level is the k-th most specific one, the name is that level's value. */
    lemma {:induction false} DisplayNameAtLevel(k: nat)
      requires k < 7 && GetTaxonomicLevel() == MostSpecificFirst()[k].name
      ensures NonBlank(MostSpecificFirst()[k].value)
      ensures GetDisplayName() == MostSpecificFirst()[k].value.value
    {
      var levels := MostSpecificFirst();
      var i := FirstNonBlank(levels);
      if i.Some? {
        assert GetTaxonomicLevel() == levels[i.value].name;
        assert i.value == k;
      }
    }

    /** `get_full_lineage`: collects "Title: value" for the non-blank levels and joins them with "; ". */
    method GetFullLineage() returns (r: string)
      ensures r == Join("; ", LineageParts(Lineage()))
      ensures r == "" <==> GetTaxonomicLevel() == "unknown"
    {
      var levels := Lineage();
      var parts: seq<string> := [];
      var i := 0;
      while i < |levels|
        invariant 0 <= i <= |levels|
        invariant parts == LineageParts(levels[..i])
      {
        assert levels[..i + 1][..i] == levels[..i];
        var level := levels[i];
        if NonBlank(level.value) {
          parts := parts + [level.title + ": " + level.value.value];
        }
        i := i + 1;
      }
      assert levels[..i] == levels;
      r := Join("; ", parts);
      LineagePartsShape(levels);
      JoinEmpty("; ", parts);
    }

    /** `add_functional_annotation`: one key is set, on an empty map when there was none. */
    method AddFunctionalAnnotation(annotationType: string, value: string)
      modifies this
      ensures functionalAnnotations.Some?
      ensures functionalAnnotations.value == (if old(functionalAnnotations).Some? then old(functionalAnnotations).value else map[])[annotationType := value]
      ensures taxonomyId == old(taxonomyId) && Lineage() == old(Lineage())
      ensures totalAbundance == old(totalAbundance) && maxAbundance == old(maxAbundance)
      ensures minAbundance == old(minAbundance) && meanAbundance == old(meanAbundance)
      ensures prevalence == old(prevalence)
    {
      var annotations := if functionalAnnotations.None? || functionalAnnotations.value == map[] then map[] else functionalAnnotations.value;
      functionalAnnotations := Some(annotations[annotationType := value]);
    }

    /** `update_abundance_stats`: nothing changes for an empty list; otherwise the
        five statistics are recomputed from it. */
    method UpdateAbundanceStats(abundances: seq<real>)
      modifies this
      ensures abundances == [] ==> unchanged(this)
      ensures abundances != [] ==>
                totalAbundance == Sum(abundances) && maxAbundance == Largest(abundances)
                && minAbundance == SmallestPositive(abundances)
                && meanAbundance == Sum(abundances) / (|abundances| as real)
                && prevalence == (Positives(abundances) as real) / (|abundances| as real)
      ensures taxonomyId == old(taxonomyId) && Lineage() == old(Lineage())
      ensures functionalAnnotations == old(functionalAnnotations)
    {
      if abundances == [] {
        return;
      }
      totalAbundance := Sum(abundances);
      maxAbundance := Largest(abundances);
      minAbundance := SmallestPositive(abundances);
      meanAbundance := Sum(abundances) / (|abundances| as real);
      prevalence := (Positives(abundances) as real) / (|abundances| as real);
    }
  }

  function Sum(a: seq<real>): real {
    if a == [] then 0.0 else Sum(a[..|a| - 1]) + a[|a| - 1]
  }

  /** `max(abundances)` of a non-empty list. */
  function Largest(a: seq<real>): (m: real)
    requires a != []
    ensures m in a && forall k :: 0 <= k < |a| ==> a[k] <= m
  {
    if |a| == 1 then a[0]
    else
      var rest := Largest(a[..|a| - 1]);
      assert forall k :: 0 <= k < |a| - 1 ==> a[k] == a[..|a| - 1][k];
      if a[|a| - 1] > rest then a[|a| - 1] else rest
  }

  /** The number of positive values. */
  function Positives(a: seq<real>): (n: nat)
    ensures n <= |a|
  {
    if a == [] then 0 else Positives(a[..|a| - 1]) + (if a[|a| - 1] > 0.0 then 1 else 0)
  }

  /** `min` of the positive values, or 0 when there is none. */
  function SmallestPositive(a: seq<real>): (m: real)
    ensures m == 0.0 || (m > 0.0 && m in a)
    ensures m == 0.0 <==> forall k :: 0 <= k < |a| ==> a[k] <= 0.0
    ensures forall k :: 0 <= k < |a| && a[k] > 0.0 ==> m <= a[k]
  {
    if a == [] then 0.0
    else
      var rest := SmallestPositive(a[..|a| - 1]);
      assert forall k :: 0 <= k < |a| - 1 ==> a[k] == a[..|a| - 1][k];
      var x := a[|a| - 1];
      assert rest != 0.0 ==> rest in a by {
        if rest != 0.0 { assert rest in a[..|a| - 1]; }
      }
      if x > 0.0 && (rest == 0.0 || x < rest) then x else rest
  }

  // ---------------------------------------------------------------------------
  // Bracken results.
  // ---------------------------------------------------------------------------

  /** The abundances at the three timepoints and the three deltas. */
  datatype Timepoints = Timepoints(pre: Option<real>, during: Option<real>, post: Option<real>,
                                   duringPre: Option<real>, postDuring: Option<real>, postPre: Option<real>)

  const NoValues := Timepoints(None, None, None, None, None, None)

  /** A delta agrees with its two operands whenever both are present. */
  predicate DeltaAgrees(delta: Option<real>, later: Option<real>, earlier: Option<real>) {
    later.Some? && earlier.Some? ==> delta == Some(later.value - earlier.value)
  }

  predicate DeltasAgree(t: Timepoints) {
    DeltaAgrees(t.duringPre, t.during, t.pre) && DeltaAgrees(t.postDuring, t.post, t.during)
    && DeltaAgrees(t.postPre, t.post, t.pre)
  }

  /** `calculate_deltas`: each delta is recomputed when both operands are
      present and otherwise keeps its previous value. */
  function WithDeltas(t: Timepoints): (r: Timepoints)
    ensures DeltasAgree(r)
    ensures r.pre == t.pre && r.during == t.during && r.post == t.post
    ensures !(t.pre.Some? && t.during.Some?) ==> r.duringPre == t.duringPre
    ensures !(t.during.Some? && t.post.Some?) ==> r.postDuring == t.postDuring
    ensures !(t.pre.Some? && t.post.Some?) ==> r.postPre == t.postPre
  {
    var t1 := if t.during.Some? && t.pre.Some? then t.(duringPre := Some(t.during.value - t.pre.value)) else t;
    var t2 := if t1.post.Some? && t1.during.Some? then t1.(postDuring := Some(t1.post.value - t1.during.value)) else t1;
    if t2.post.Some? && t2.pre.Some? then t2.(postPre := Some(t2.post.value - t2.pre.value)) else t2
  }

  /** Recomputing deltas that already agree changes nothing. */
  lemma WithDeltasIdempotent(t: Timepoints)
    ensures WithDeltas(WithDeltas(t)) == WithDeltas(t)
  {
  }

  /** `get_abundance_at_timepoint`: pre, during and post are known keys; any other gives None. */
  function AbundanceAt(t: Timepoints, timepoint: string): (r: Option<real>)
    ensures timepoint !in {"pre", "during", "post"} ==> r.None?
  {
    if timepoint == "pre" then t.pre
    else if timepoint == "during" then t.during
    else if timepoint == "post" then t.post
    else None
  }

  /** `get_delta_value`: during_pre, post_during and post_pre are known keys; any other gives None. */
  function DeltaOf(t: Timepoints, deltaType: string): (r: Option<real>)
    ensures deltaType !in {"during_pre", "post_during", "post_pre"} ==> r.None?
  {
    if deltaType == "during_pre" then t.duringPre
    else if deltaType == "post_during" then t.postDuring
    else if deltaType == "post_pre" then t.postPre
    else None
  }

  /** Storing a value at a timepoint, as the import scripts do; an unknown key stores nothing. */
  function SetTimepoint(t: Timepoints, timepoint: string, v: real): (r: Timepoints)
    ensures timepoint in {"pre", "during", "post"} ==> AbundanceAt(r, timepoint) == Some(v)
    ensures forall other :: other != timepoint ==> AbundanceAt(r, other) == AbundanceAt(t, other)
    ensures forall d :: DeltaOf(r, d) == DeltaOf(t, d)
  {
    if timepoint == "pre" then t.(pre := Some(v))
    else if timepoint == "during" then t.(during := Some(v))
    else if timepoint == "post" then t.(post := Some(v))
    else t
  }

  /** With all three values present, the deltas are the differences and the two
      steps add up to the whole change. */
  lemma DeltasCompose(t: Timepoints)
    requires t.pre.Some? && t.during.Some? && t.post.Some?
    ensures DeltaOf(WithDeltas(t), "during_pre").value + DeltaOf(WithDeltas(t), "post_during").value
            == DeltaOf(WithDeltas(t), "post_pre").value
  {
  }

  class BrackenResult {
    var patientId: string
    var taxonomyId: string
    var abundancePre: Option<real>
    var abundanceDuring: Option<real>
    var abundancePost: Option<real>
    var deltaDuringPre: Option<real>
    var deltaPostDuring: Option<real>
    var deltaPostPre: Option<real>

    function Values(): Timepoints
      reads this
    {
      Timepoints(abundancePre, abundanceDuring, abundancePost, deltaDuringPre, deltaPostDuring, deltaPostPre)
    }

    /** `BrackenResult.create_from_dict`: the given columns, then `calculate_deltas`. */
    constructor FromDict(patientId: string, taxonomyId: string, data: Timepoints)
      ensures this.patientId == patientId && this.taxonomyId == taxonomyId
      ensures Values() == WithDeltas(data)
    {
      this.patientId := patientId;
      this.taxonomyId := taxonomyId;
      abundancePre, abundanceDuring, abundancePost := data.pre, data.during, data.post;
      deltaDuringPre, deltaPostDuring, deltaPostPre := data.duringPre, data.postDuring, data.postPre;
      new;
      CalculateDeltas();
    }

    /** `calculate_deltas` on the stored row. */
    method CalculateDeltas()
      modifies this
      ensures Values() == WithDeltas(old(Values()))
      ensures patientId == old(patientId) && taxonomyId == old(taxonomyId)
    {
      if abundanceDuring.Some? && abundancePre.Some? {
        deltaDuringPre := Some(abundanceDuring.value - abundancePre.value);
      }
      if abundancePost.Some? && abundanceDuring.Some? {
        deltaPostDuring := Some(abundancePost.value - abundanceDuring.value);
      }
      if abundancePost.Some? && abundancePre.Some? {
        deltaPostPre := Some(abundancePost.value - abundancePre.value);
      }
    }

    /** `get_abundance_at_timepoint`: the stored column for a known key, None for any other. */
    function GetAbundanceAtTimepoint(timepoint: string): (r: Option<real>)
      reads this
      ensures timepoint == "pre" ==> r == abundancePre
      ensures timepoint == "during" ==> r == abundanceDuring
      ensures timepoint == "post" ==> r == abundancePost
      ensures timepoint !in {"pre", "during", "post"} ==> r.None?
    {
      AbundanceAt(Values(), timepoint)
    }

    /** `get_delta_value`: the stored delta for a known key, None for any other. */
    function GetDeltaValue(deltaType: string): (r: Option<real>)
      reads this
      ensures deltaType == "during_pre" ==> r == deltaDuringPre
      ensures deltaType == "post_during" ==> r == deltaPostDuring
      ensures deltaType == "post_pre" ==> r == deltaPostPre
      ensures deltaType !in {"during_pre", "post_during", "post_pre"} ==> r.None?
    {
      DeltaOf(Values(), deltaType)
    }
  }
}
