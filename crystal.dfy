/**
 * Crystal structures as values: a lattice and an ordered list of sites, each an
 * element symbol at a fractional coordinate. This is the part of pymatgen's
 * `Structure` and `Lattice` that the pipeline relies on.
 */
module Crystal {
  import opened Basics

  datatype Coord = Coord(x: real, y: real, z: real)

  const Origin := Coord(0.0, 0.0, 0.0)

  datatype Site = Site(species: string, coord: Coord)

  /**
   * A lattice built by `Lattice.cubic(a)`, by `Lattice.hexagonal(a, c)`, or one
   * known only by its volume (a structure that came from an external service, or
   * a lattice after `scale_lattice`).
   */
  datatype Lattice = Cubic(a: real) | Hexagonal(a: real, c: real) | Measured(volume: real)

  /** sqrt(3)/2 to double precision, the factor in a hexagonal cell's volume. */
  const Sqrt3Over2: real := 0.8660254037844386

  function Volume(l: Lattice): real {
    match l
    case Cubic(a) => a * a * a
    case Hexagonal(a, c) => a * a * c * Sqrt3Over2
    case Measured(v) => v
  }

  datatype Structure = Structure(lattice: Lattice, sites: seq<Site>)

  /** Python truthiness of a `Structure`: its `__len__`, the number of sites, is not zero. */
  predicate HasSites(s: Structure) {
    |s.sites| > 0
  }

  function Species(s: Structure): seq<string> {
    seq(|s.sites|, i requires 0 <= i < |s.sites| => s.sites[i].species)
  }

  /**
   * `Structure(lattice, species, coords)`: pymatgen refuses lists of different
   * lengths (modelled as `None`); otherwise site i is species i at coordinate i.
   */
  function NewStructure(lattice: Lattice, species: seq<string>, coords: seq<Coord>): (r: Option<Structure>)
    ensures r.Some? <==> |species| == |coords|
    ensures r.Some? ==> r.value.lattice == lattice && |r.value.sites| == |species|
    ensures r.Some? ==> forall i :: 0 <= i < |species| ==> r.value.sites[i] == Site(species[i], coords[i])
  {
    if |species| != |coords| then None
    else Some(Structure(lattice, seq(|species|, i requires 0 <= i < |species| => Site(species[i], coords[i]))))
  }

  /** A single atom of `element` at the origin of a cubic cell of edge `a`. */
  function SingleAtom(element: string, a: real): Structure {
    Structure(Cubic(a), [Site(element, Origin)])
  }

  // ---------------------------------------------------------------------------
  // `get_sorted_structure`: a stable sort of the sites by a key on their species.
  // The key (pymatgen orders species by electronegativity) is a parameter `rank`.
  // ---------------------------------------------------------------------------

  /** Each site's rank is at most the next one's. */
  ghost predicate SortedByRank(sites: seq<Site>, rank: string -> real) {
    forall i :: 0 < i < |sites| ==> rank(sites[i - 1].species) <= rank(sites[i].species)
  }

  /** Sorted in the adjacent sense means sorted in the pairwise sense. */
  lemma {:induction false} SortedPairwise(sites: seq<Site>, rank: string -> real, i: int, j: int)
    requires SortedByRank(sites, rank)
    requires 0 <= i < j < |sites|
    ensures rank(sites[i].species) <= rank(sites[j].species)
    decreases j - i
  {
    if i + 1 < j {
      SortedPairwise(sites, rank, i + 1, j);
    }
  }

  /** Inserts `x` into sorted `sites` before the first site whose rank is not below its own. */
  function InsertByRank(x: Site, sites: seq<Site>, rank: string -> real): (r: seq<Site>)
    requires SortedByRank(sites, rank)
    ensures SortedByRank(r, rank)
    ensures multiset(r) == multiset(sites) + multiset{x}
    ensures |r| == |sites| + 1
    ensures r[0] == x || (|sites| > 0 && r[0] == sites[0])
  {
    if sites == [] then [x]
    else if rank(x.species) <= rank(sites[0].species) then [x] + sites
    else
      var tail := InsertByRank(x, sites[1..], rank);
      assert sites == [sites[0]] + sites[1..];
      [sites[0]] + tail
  }

  /** Insertion sort; earlier sites go before later ones of equal rank, as Python's stable `sorted`. */
  function SortByRank(sites: seq<Site>, rank: string -> real): (r: seq<Site>)
    ensures SortedByRank(r, rank)
    ensures multiset(r) == multiset(sites)
    ensures |r| == |sites|
  {
    if sites == [] then []
    else
      assert sites == [sites[0]] + sites[1..];
      InsertByRank(sites[0], SortByRank(sites[1..], rank), rank)
  }

  /** Sorting keeps the sites of each rank in their input order (stability). */
  lemma {:induction false} SortIsStable(sites: seq<Site>, rank: string -> real, k: real)
    ensures OfRank(SortByRank(sites, rank), rank, k) == OfRank(sites, rank, k)
  {
    if sites != [] {
      SortIsStable(sites[1..], rank, k);
      InsertKeepsOtherRanks(sites[0], SortByRank(sites[1..], rank), rank, k);
    }
  }

  /** Sorting sites that are already sorted changes nothing. */
  lemma {:induction false} SortKeepsSorted(sites: seq<Site>, rank: string -> real)
    requires SortedByRank(sites, rank)
    ensures SortByRank(sites, rank) == sites
  {
    if sites != [] {
      var tail := sites[1..];
      SortedTail(sites, rank);
      SortKeepsSorted(tail, rank);
      InsertSmallest(sites[0], tail, rank);
      HeadTail(sites);
    }
  }

  lemma SortedTail(sites: seq<Site>, rank: string -> real)
    requires sites != [] && SortedByRank(sites, rank)
    ensures SortedByRank(sites[1..], rank)
    ensures sites[1..] != [] ==> rank(sites[0].species) <= rank(sites[1..][0].species)
  {
    var tail := sites[1..];
    assert forall i :: 0 < i < |tail| ==> tail[i - 1] == sites[i] && tail[i] == sites[i + 1];
  }

  /** A site ranked no higher than the first goes in front. */
  lemma InsertSmallest(x: Site, sites: seq<Site>, rank: string -> real)
    requires SortedByRank(sites, rank)
    requires sites != [] ==> rank(x.species) <= rank(sites[0].species)
    ensures InsertByRank(x, sites, rank) == [x] + sites
  {
  }

  /** The sites of rank `k`, in order. */
  function OfRank(sites: seq<Site>, rank: string -> real, k: real): seq<Site> {
    if sites == [] then []
    else (if rank(sites[0].species) == k then [sites[0]] else []) + OfRank(sites[1..], rank, k)
  }

  lemma {:induction false} InsertKeepsOtherRanks(x: Site, sites: seq<Site>, rank: string -> real, k: real)
    requires SortedByRank(sites, rank)
    ensures OfRank(InsertByRank(x, sites, rank), rank, k)
            == (if rank(x.species) == k then [x] else []) + OfRank(sites, rank, k)
  {
    var mine: seq<Site> := if rank(x.species) == k then [x] else [];
    if sites == [] {
      assert InsertByRank(x, sites, rank) == [x];
      assert OfRank([x], rank, k) == mine + OfRank([], rank, k);
    } else if rank(x.species) <= rank(sites[0].species) {
      var r := [x] + sites;
      assert InsertByRank(x, sites, rank) == r;
      assert r[0] == x && r[1..] == sites;
      assert OfRank(r, rank, k) == mine + OfRank(sites, rank, k);
    } else {
      var tail := InsertByRank(x, sites[1..], rank);
      var r := [sites[0]] + tail;
      assert InsertByRank(x, sites, rank) == r;
      assert r[0] == sites[0] && r[1..] == tail;
      var first: seq<Site> := if rank(sites[0].species) == k then [sites[0]] else [];
      InsertKeepsOtherRanks(x, sites[1..], rank, k);
      assert first == [] || mine == [];
      SwapEmpty(first, mine, OfRank(sites[1..], rank, k));
      calc {
        OfRank(r, rank, k);
        first + OfRank(tail, rank, k);
        first + (mine + OfRank(sites[1..], rank, k));
        mine + (first + OfRank(sites[1..], rank, k));
        mine + OfRank(sites, rank, k);
      }
    }
  }
}
