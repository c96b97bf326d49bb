/** The VM tier catalog: a closed, ordered set of capacity classes. The source's
    class has a private constructor and seven static instances, so a tier is
    exactly one of seven values. */
module Tiers {
  import opened Wrappers

  datatype VMTier = Pico | Nano | Micro | Small | Medium | Large | XLarge {

    /** The name sent on the wire as `tier`. */
    function Name(): string {
      match this
      case Pico => "Pico"
      case Nano => "Nano"
      case Micro => "Micro"
      case Small => "Small"
      case Medium => "Medium"
      case Large => "Large"
      case XLarge => "XLarge"
    }

    function CpuCores(): nat {
      match this
      case Pico => 1
      case Nano => 2
      case Micro => 4
      case Small => 8
      case Medium => 16
      case Large => 32
      case XLarge => 64
    }

    function MemoryGiB(): nat {
      match this
      case Pico => 2
      case Nano => 4
      case Micro => 8
      case Small => 16
      case Medium => 32
      case Large => 64
      case XLarge => 128
    }

    function DiskGB(): nat {
      match this
      case Pico => 20
      case Nano => 20
      case Micro => 20
      case Small => 30
      case Medium => 40
      case Large => 50
      case XLarge => 50
    }
  }

  /** `VMTier.All`, in declaration order. */
  const All: seq<VMTier> := [Pico, Nano, Micro, Small, Medium, Large, XLarge]

  /** The position of a tier in `All`. */
  function Rank(t: VMTier): (i: nat)
    ensures i < |All| && All[i] == t
  {
    match t
    case Pico => 0
    case Nano => 1
    case Micro => 2
    case Small => 3
    case Medium => 4
    case Large => 5
    case XLarge => 6
  }

  /** The catalog lists every tier exactly once, and tiers grow along it:
      cores and memory strictly, disk never shrinks. */
  lemma AllIsOrderedCatalog()
    ensures forall t: VMTier :: t in All
    ensures forall i, j :: 0 <= i < j < |All| ==> All[i] != All[j]
    ensures forall i, j :: 0 <= i < j < |All| ==>
      All[i].CpuCores() < All[j].CpuCores() &&
      All[i].MemoryGiB() < All[j].MemoryGiB() &&
      All[i].DiskGB() <= All[j].DiskGB()
  {
    forall t: VMTier ensures t in All {
      var _ := Rank(t);
    }
    forall i, j | 0 <= i < j < |All|
      ensures All[i] != All[j]
      ensures All[i].CpuCores() < All[j].CpuCores()
      ensures All[i].MemoryGiB() < All[j].MemoryGiB()
      ensures All[i].DiskGB() <= All[j].DiskGB()
    {
      GrowsStep(i, j);
    }
  }

  /** Growth between neighbours in the table, chained from `i` up to `j`. */
  lemma {:induction false} GrowsStep(i: nat, j: nat)
    requires i < j < |All|
    ensures All[i].CpuCores() < All[j].CpuCores()
    ensures All[i].MemoryGiB() < All[j].MemoryGiB()
    ensures All[i].DiskGB() <= All[j].DiskGB()
    decreases j - i
  {
    if i + 1 < j {
      GrowsStep(i + 1, j);
    }
  }

  /** `VMTier.fromName(name)`: the property lookup `VMTier[name]`, which is
      `undefined` for a string that names no tier. */
  function FromName(name: string): (r: Option<VMTier>)
    ensures r.Some? ==> r.value.Name() == name
    ensures r.None? ==> forall t: VMTier :: t.Name() != name
  {
    if name == "Pico" then Some(Pico)
    else if name == "Nano" then Some(Nano)
    else if name == "Micro" then Some(Micro)
    else if name == "Small" then Some(Small)
    else if name == "Medium" then Some(Medium)
    else if name == "Large" then Some(Large)
    else if name == "XLarge" then Some(XLarge)
    else None
  }

  /** Looking a tier up by its own name gives that tier back. */
  lemma FromNameOfName(t: VMTier)
    ensures FromName(t.Name()) == Some(t)
  {
  }

  /** Minimum requirements for `fromSpecs`; `diskGB` may be left out. */
  datatype Specs = Specs(cpu: int, memGiB: int, diskGB: Option<int>)

  /** The predicate `fromSpecs` passes to `find`. */
  predicate Meets(t: VMTier, s: Specs) {
    && t.CpuCores() >= s.cpu
    && t.MemoryGiB() >= s.memGiB
    && (s.diskGB.None? || t.DiskGB() >= s.diskGB.value)
  }

  /** Index of the first tier in `tiers` that meets `s`, as `Array.prototype.find` scans. */
  function FirstMeeting(tiers: seq<VMTier>, s: Specs): (r: Option<nat>)
    ensures r.Some? ==> r.value < |tiers| && Meets(tiers[r.value], s)
    ensures r.Some? ==> forall j :: 0 <= j < r.value ==> !Meets(tiers[j], s)
    ensures r.None? ==> forall j :: 0 <= j < |tiers| ==> !Meets(tiers[j], s)
  {
    if tiers == [] then None
    else if Meets(tiers[0], s) then Some(0)
    else match FirstMeeting(tiers[1..], s)
      case None => None
      case Some(k) => Some(k + 1)
  }

  /** `VMTier.fromSpecs(specs)`: the first catalog tier that meets the minimums,
      or `undefined` when none does. */
  function FromSpecs(s: Specs): (r: Option<VMTier>)
    ensures r.Some? ==> Meets(r.value, s)
    ensures r.Some? ==> exists i :: 0 <= i < |All| && All[i] == r.value &&
                          forall j :: 0 <= j < i ==> !Meets(All[j], s)
    ensures r.None? <==> forall t: VMTier :: !Meets(t, s)
  {
    match FirstMeeting(All, s)
    case None =>
      assert forall t: VMTier :: !Meets(t, s) by {
        forall t: VMTier ensures !Meets(t, s) {
          var i := Rank(t);
          assert !Meets(All[i], s);
        }
      }
      None
    case Some(i) => Some(All[i])
  }

  /** Because the catalog grows along its order, the first tier that meets the
      minimums is no larger, in any dimension, than any other tier that meets them. */
  lemma FromSpecsIsSmallest(s: Specs, t: VMTier)
    requires Meets(t, s)
    ensures FromSpecs(s).Some?
    ensures FromSpecs(s).value.CpuCores() <= t.CpuCores()
    ensures FromSpecs(s).value.MemoryGiB() <= t.MemoryGiB()
    ensures FromSpecs(s).value.DiskGB() <= t.DiskGB()
  {
    AllIsOrderedCatalog();
    var r := FromSpecs(s).value;
    var i :| 0 <= i < |All| && All[i] == r && forall j :: 0 <= j < i ==> !Meets(All[j], s);
    var k := Rank(t);
    assert !(k < i);
  }

  /** One core and 1 GiB yields the smallest tier. */
  lemma FromSpecsSmallestExample()
    ensures FromSpecs(Specs(1, 1, None)) == Some(Pico)
  {
    assert Meets(Pico, Specs(1, 1, None));
  }

  /** With a disk minimum, the first tier meeting all three is chosen. */
  lemma FromSpecsDiskExample()
    ensures FromSpecs(Specs(16, 32, Some(40))) == Some(Medium)
  {
    assert Meets(Medium, Specs(16, 32, Some(40)));
  }

  /** No tier has a thousand cores. */
  lemma FromSpecsNoneExample()
    ensures FromSpecs(Specs(1000, 1000, None)) == None
  {
  }
}
