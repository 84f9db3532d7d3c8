/** groupVMsByRegion: the VM groups bucketed by region, as Object.entries returns them. */
module Regions {
  import opened Wrappers
  import opened Model

  /** `group.region || ''`. */
  function RegionKey(g: VmGroup): string
  {
    OrElse(g.region, "")
  }

  /** One entry of the grouping: a region key and its groups. */
  datatype RegionBucket = RegionBucket(region: string, groups: seq<VmGroup>)

  /** The distinct region keys of `gs`, in order of first appearance. */
  function Regions(gs: seq<VmGroup>): seq<string>
  {
    if gs == [] then []
    else
      var rs := Regions(gs[..|gs| - 1]);
      var r := RegionKey(gs[|gs| - 1]);
      if r in rs then rs else rs + [r]
  }

  /** The groups of `gs` whose region key is `r`, in input order. */
  function InRegion(gs: seq<VmGroup>, r: string): seq<VmGroup>
  {
    if gs == [] then []
    else
      var g := gs[|gs| - 1];
      InRegion(gs[..|gs| - 1], r) + (if RegionKey(g) == r then [g] else [])
  }

  /** The buckets of `gs` for the regions `rs`, in the order of `rs`. */
  function BucketsFor(gs: seq<VmGroup>, rs: seq<string>): (bs: seq<RegionBucket>)
    ensures |bs| == |rs|
    ensures forall k :: 0 <= k < |rs| ==> bs[k] == RegionBucket(rs[k], InRegion(gs, rs[k]))
  {
    if rs == [] then [] else [RegionBucket(rs[0], InRegion(gs, rs[0]))] + BucketsFor(gs, rs[1..])
  }

  /** The grouping the generator iterates over. */
  function Grouped(gs: seq<VmGroup>): seq<RegionBucket>
  {
    BucketsFor(gs, Regions(gs))
  }

  /** All groups of the buckets, bucket after bucket. */
  function Flatten(bs: seq<RegionBucket>): seq<VmGroup>
  {
    if bs == [] then [] else bs[0].groups + Flatten(bs[1..])
  }

  /**
   * groupVMsByRegion: a loop over the groups that pushes each one onto the array
   * stored under its region key, creating the array on first sight of the key.
   * The JavaScript object is the map `grouped` together with its key order `keys`.
   */
  method GroupVmsByRegion(vmGroups: seq<VmGroup>) returns (entries: seq<RegionBucket>)
    ensures entries == Grouped(vmGroups)
  {
    var keys: seq<string> := [];
    var grouped: map<string, seq<VmGroup>> := map[];
    for i := 0 to |vmGroups|
      invariant keys == Regions(vmGroups[..i])
      invariant forall r :: r in grouped <==> r in keys
      invariant forall r :: r in grouped ==> grouped[r] == InRegion(vmGroups[..i], r)
    {
      assert vmGroups[..i + 1][..i] == vmGroups[..i];
      var region := RegionKey(vmGroups[i]);
      if region !in grouped {
        keys := keys + [region];
        grouped := grouped[region := []];
        InRegionAbsent(vmGroups[..i], region);
      }
      grouped := grouped[region := grouped[region] + [vmGroups[i]]];
    }
    assert vmGroups[..|vmGroups|] == vmGroups;
    // Object.entries(grouped)
    entries := seq(|keys|, k requires 0 <= k < |keys| => RegionBucket(keys[k], grouped[keys[k]]));
  }

  lemma {:induction false} RegionsComplete(gs: seq<VmGroup>, r: string)
    ensures r in Regions(gs) <==> exists g :: g in gs && RegionKey(g) == r
  {
    if gs != [] {
      var init := gs[..|gs| - 1];
      RegionsComplete(init, r);
      assert gs == init + [gs[|gs| - 1]];
      if exists g :: g in gs && RegionKey(g) == r {
        var g :| g in gs && RegionKey(g) == r;
        assert g in init || g == gs[|gs| - 1];
      }
    }
  }

  lemma {:induction false} RegionsDistinct(gs: seq<VmGroup>)
    ensures forall i, j :: 0 <= i < j < |Regions(gs)| ==> Regions(gs)[i] != Regions(gs)[j]
  {
    if gs != [] {
      RegionsDistinct(gs[..|gs| - 1]);
    }
  }

  /** Some group before position `p` carries the region key `r`. */
  ghost predicate AppearsBefore(gs: seq<VmGroup>, r: string, p: int)
  {
    exists q :: 0 <= q < p && q < |gs| && RegionKey(gs[q]) == r
  }

  /** Before the first group of a later region there is already a group of every earlier region. */
  ghost predicate FirstAppearanceOrder(gs: seq<VmGroup>)
  {
    forall i, j, p :: 0 <= i < j < |Regions(gs)| && 0 <= p < |gs| && RegionKey(gs[p]) == Regions(gs)[j] ==>
      AppearsBefore(gs, Regions(gs)[i], p)
  }

  /** Object.entries order for ordinary keys: the regions come in order of first appearance. */
  lemma {:induction false} RegionsInFirstAppearanceOrder(gs: seq<VmGroup>)
    ensures FirstAppearanceOrder(gs)
  {
    if gs != [] {
      RegionsInFirstAppearanceOrder(gs[..|gs| - 1]);
      forall i, j, p | 0 <= i < j < |Regions(gs)| && 0 <= p < |gs| && RegionKey(gs[p]) == Regions(gs)[j]
        ensures AppearsBefore(gs, Regions(gs)[i], p)
      {
        FirstAppearanceStep(gs, i, j, p);
      }
    }
  }

  /** The inductive step: the order of first appearance survives appending one group. */
  lemma FirstAppearanceStep(gs: seq<VmGroup>, i: int, j: int, p: int)
    requires gs != [] && FirstAppearanceOrder(gs[..|gs| - 1])
    requires 0 <= i < j < |Regions(gs)| && 0 <= p < |gs| && RegionKey(gs[p]) == Regions(gs)[j]
    ensures AppearsBefore(gs, Regions(gs)[i], p)
  {
    var n := |gs| - 1;
    var rs := Regions(gs[..n]);
    RegionsLast(gs);
    if p < n {
      StepEarlierGroup(gs, i, j, p);
    } else if j < |rs| {
      StepLastGroupOldRegion(gs, i, j);
    } else {
      StepLastGroupNewRegion(gs, i);
    }
  }

  /** The group at p was already there: the order of the shorter list applies. */
  lemma StepEarlierGroup(gs: seq<VmGroup>, i: int, j: int, p: int)
    requires gs != [] && FirstAppearanceOrder(gs[..|gs| - 1])
    requires 0 <= i < j < |Regions(gs)| && 0 <= p < |gs| - 1 && RegionKey(gs[p]) == Regions(gs)[j]
    ensures AppearsBefore(gs, Regions(gs)[i], p)
  {
    hide FirstAppearanceOrder;
    var n := |gs| - 1;
    var init := gs[..n];
    var rs := Regions(init);
    var key := RegionKey(gs[p]);
    assert init[p] == gs[p];
    assert key in rs by {
      RegionsComplete(init, key);
      assert init[p] in init;
    }
    RegionsLast(gs);
    assert j < |rs| && Regions(gs)[j] == rs[j] && Regions(gs)[i] == rs[i];
    OrderAt(init, i, j, p);
    AppearsBeforeInit(gs, rs[i], p);
  }

  lemma OrderAt(gs: seq<VmGroup>, i: int, j: int, p: int)
    requires FirstAppearanceOrder(gs)
    requires 0 <= i < j < |Regions(gs)| && 0 <= p < |gs| && RegionKey(gs[p]) == Regions(gs)[j]
    ensures AppearsBefore(gs, Regions(gs)[i], p)
  {
  }

  /** The last group belongs to a region that already had a group earlier. */
  lemma StepLastGroupOldRegion(gs: seq<VmGroup>, i: int, j: int)
    requires gs != [] && FirstAppearanceOrder(gs[..|gs| - 1])
    requires 0 <= i < j < |Regions(gs[..|gs| - 1])|
    ensures AppearsBefore(gs, Regions(gs[..|gs| - 1])[i], |gs| - 1)
  {
    var n := |gs| - 1;
    var init := gs[..n];
    var rs := Regions(init);
    RegionsComplete(init, rs[j]);
    var h :| h in init && RegionKey(h) == rs[j];
    var pj :| 0 <= pj < n && init[pj] == h;
    assert AppearsBefore(init, rs[i], pj);
    AppearsBeforeInit(gs, rs[i], pj);
  }

  /** The last group opens a new region: every earlier region has a group before it. */
  lemma StepLastGroupNewRegion(gs: seq<VmGroup>, i: int)
    requires gs != [] && 0 <= i < |Regions(gs[..|gs| - 1])|
    ensures AppearsBefore(gs, Regions(gs[..|gs| - 1])[i], |gs| - 1)
  {
    var n := |gs| - 1;
    var init := gs[..n];
    var rs := Regions(init);
    RegionsComplete(init, rs[i]);
    var g :| g in init && RegionKey(g) == rs[i];
    var qi :| 0 <= qi < n && init[qi] == g;
    assert gs[qi] == init[qi];
  }

  lemma RegionsLast(gs: seq<VmGroup>)
    requires gs != []
    ensures var rs := Regions(gs[..|gs| - 1]); var r := RegionKey(gs[|gs| - 1]);
      Regions(gs) == if r in rs then rs else rs + [r]
  {
  }

  lemma AppearsBeforeInit(gs: seq<VmGroup>, r: string, p: int)
    requires gs != [] && AppearsBefore(gs[..|gs| - 1], r, p)
    ensures AppearsBefore(gs, r, p)
  {
    var q :| 0 <= q < p && q < |gs| - 1 && RegionKey(gs[..|gs| - 1][q]) == r;
    assert gs[q] == gs[..|gs| - 1][q];
  }

  /** A region key that no group carries has an empty bucket. */
  lemma {:induction false} InRegionAbsent(gs: seq<VmGroup>, r: string)
    requires r !in Regions(gs)
    ensures InRegion(gs, r) == []
  {
    if gs != [] {
      var init := gs[..|gs| - 1];
      assert r !in Regions(init);
      InRegionAbsent(init, r);
    }
  }

  /** Every group lands in its own region's bucket, and only there, in input order. */
  lemma {:induction false} InRegionMembers(gs: seq<VmGroup>, r: string)
    ensures forall g :: g in InRegion(gs, r) <==> g in gs && RegionKey(g) == r
    ensures |InRegion(gs, r)| <= |gs|
  {
    if gs != [] {
      var init := gs[..|gs| - 1];
      InRegionMembers(init, r);
      assert gs == init + [gs[|gs| - 1]];
    }
  }

  /** The groups of `gs` whose region key is in `rs`, in input order. */
  function InRegions(gs: seq<VmGroup>, rs: set<string>): seq<VmGroup>
  {
    if gs == [] then []
    else
      var g := gs[|gs| - 1];
      InRegions(gs[..|gs| - 1], rs) + (if RegionKey(g) in rs then [g] else [])
  }

  lemma {:induction false} InRegionsAddOne(gs: seq<VmGroup>, rs: set<string>, r: string)
    requires r !in rs
    ensures multiset(InRegions(gs, {r} + rs)) == multiset(InRegion(gs, r)) + multiset(InRegions(gs, rs))
  {
    if gs != [] {
      InRegionsAddOne(gs[..|gs| - 1], rs, r);
    }
  }

  lemma {:induction false} InRegionsAll(gs: seq<VmGroup>, rs: set<string>)
    requires forall g :: g in gs ==> RegionKey(g) in rs
    ensures InRegions(gs, rs) == gs
  {
    if gs != [] {
      var init := gs[..|gs| - 1];
      assert gs == init + [gs[|gs| - 1]];
      InRegionsAll(init, rs);
    }
  }

  /** Concatenating the buckets of distinct regions collects exactly the groups of those regions. */
  lemma {:induction false} FlattenBucketsFor(gs: seq<VmGroup>, rs: seq<string>)
    requires forall i, j :: 0 <= i < j < |rs| ==> rs[i] != rs[j]
    ensures multiset(Flatten(BucketsFor(gs, rs))) == multiset(InRegions(gs, set r | r in rs))
  {
    if rs == [] {
      assert (set r | r in rs) == {};
      InRegionsNone(gs);
    } else {
      var tail := rs[1..];
      FlattenBucketsFor(gs, tail);
      assert (set r | r in rs) == {rs[0]} + (set r | r in tail);
      assert rs[0] !in tail by {
        forall k | 0 <= k < |tail| ensures tail[k] != rs[0] {
          assert tail[k] == rs[k + 1];
        }
      }
      InRegionsAddOne(gs, (set r | r in tail), rs[0]);
    }
  }

  lemma {:induction false} InRegionsNone(gs: seq<VmGroup>)
    ensures InRegions(gs, {}) == []
  {
    if gs != [] {
      InRegionsNone(gs[..|gs| - 1]);
    }
  }

  /** The buckets together hold exactly the input groups, each as often as it occurs. */
  lemma GroupedIsPartition(gs: seq<VmGroup>)
    ensures multiset(Flatten(Grouped(gs))) == multiset(gs)
    ensures |Flatten(Grouped(gs))| == |gs|
  {
    RegionsDistinct(gs);
    FlattenBucketsFor(gs, Regions(gs));
    var rs := set r | r in Regions(gs);
    forall g | g in gs ensures RegionKey(g) in rs {
      RegionsComplete(gs, RegionKey(g));
    }
    InRegionsAll(gs, rs);
    assert |multiset(Flatten(Grouped(gs)))| == |multiset(gs)|;
  }

  /** Every entry of the grouping is the non-empty, in-order bucket of a distinct region, in first-appearance order. */
  lemma GroupedEntries(gs: seq<VmGroup>)
    ensures forall k :: 0 <= k < |Grouped(gs)| ==>
      Grouped(gs)[k].groups == InRegion(gs, Grouped(gs)[k].region) && Grouped(gs)[k].groups != []
    ensures forall i, j :: 0 <= i < j < |Grouped(gs)| ==> Grouped(gs)[i].region != Grouped(gs)[j].region
    ensures |Grouped(gs)| == |Regions(gs)|
    ensures forall k :: 0 <= k < |Grouped(gs)| ==> Grouped(gs)[k].region == Regions(gs)[k]
  {
    RegionsDistinct(gs);
    var rs := Regions(gs);
    forall k | 0 <= k < |rs| ensures InRegion(gs, rs[k]) != [] {
      RegionsComplete(gs, rs[k]);
      var g :| g in gs && RegionKey(g) == rs[k];
      InRegionMembers(gs, rs[k]);
      assert g in InRegion(gs, rs[k]);
    }
  }
}
