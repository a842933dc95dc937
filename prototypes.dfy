/**
 * The structure builders of `MaterialsProcessor` that need no external service:
 * the two prototype seeds (`_generate_ternary_112`, `_generate_binary_13`), the
 * prototype stage that chooses between them (`_generate_fallback`), and the
 * emergency single-atom factory (`_generate_emergency_structure`).
 *
 * `Structure.from_spacegroup` expands a seed by the space group's symmetry; the
 * expansion is a parameter `expand` whose `None` stands for a raised exception.
 */
module Prototypes {
  import opened Basics
  import opened Crystal
  import opened Chemistry
  import opened Stoichiometry

  /** The arguments of one `Structure.from_spacegroup` call. */
  datatype Seed = Seed(spaceGroup: string, lattice: Lattice, species: seq<string>, coords: seq<Coord>)

  /** A model of `Structure.from_spacegroup`; `None` when it raises. */
  type Expander = Seed -> Option<Structure>

  const Ternary112Coords: seq<Coord> := [
    Coord(0.0, 0.0, 0.0),
    Coord(1.0 / 3.0, 2.0 / 3.0, 0.5),
    Coord(1.0 / 3.0, 2.0 / 3.0, 0.25),
    Coord(2.0 / 3.0, 1.0 / 3.0, 0.75)
  ]

  const Binary13Coords: seq<Coord> := [
    Coord(0.0, 0.0, 0.0),
    Coord(0.5, 0.5, 0.5),
    Coord(0.5, 0.0, 0.0),
    Coord(0.0, 0.5, 0.0),
    Coord(0.0, 0.0, 0.5)
  ]

  /**
   * The seed of `_generate_ternary_112`: P-3m1 on a hexagonal a=3, c=5 lattice,
   * species [A, B, C, C]; none unless the composition has exactly three elements
   * and passes the stoichiometry check.
   */
  function Ternary112Seed(comp: Composition): (r: Option<Seed>)
    ensures r.Some? <==> |comp| == 3
    ensures r.Some? ==>
              && r.value.spaceGroup == "P-3m1" && r.value.lattice == Hexagonal(3.0, 5.0)
              && r.value.species == [comp[0].element, comp[1].element, comp[2].element, comp[2].element]
              && r.value.coords == Ternary112Coords
  {
    if |comp| != 3 || !IsValidStoichiometry(comp) then None
    else
      var elements := Symbols(comp);
      Some(Seed("P-3m1", Hexagonal(3.0, 5.0),
                [elements[0], elements[1], elements[2], elements[2]], Ternary112Coords))
  }

  /**
   * The seed of `_generate_binary_13`: Pm-3m on a cubic a=6 lattice, species
   * [A, B, B, B, B]; none unless the composition has exactly two elements and
   * passes the stoichiometry check.
   */
  function Binary13Seed(comp: Composition): (r: Option<Seed>)
    ensures r.Some? <==> |comp| == 2 && IsValidStoichiometry(comp)
    ensures r.Some? ==>
              && r.value.spaceGroup == "Pm-3m" && r.value.lattice == Cubic(6.0)
              && r.value.species == [comp[0].element] + Replicate(comp[1].element, 4)
              && r.value.coords == Binary13Coords
  {
    if |comp| != 2 || !IsValidStoichiometry(comp) then None
    else
      var elements := Symbols(comp);
      Some(Seed("Pm-3m", Cubic(6.0), [elements[0]] + Replicate(elements[1], 4), Binary13Coords))
  }

  /** Expands a seed; no seed, or an expansion that raises, gives `None`. */
  function Build(seed: Option<Seed>, expand: Expander): Option<Structure> {
    match seed
    case None => None
    case Some(sd) => expand(sd)
  }

  function GenerateTernary112(comp: Composition, expand: Expander): Option<Structure> {
    Build(Ternary112Seed(comp), expand)
  }

  function GenerateBinary13(comp: Composition, expand: Expander): Option<Structure> {
    Build(Binary13Seed(comp), expand)
  }

  /**
   * `_generate_fallback`: the ternary builder for three elements, the binary one
   * for two; the result is kept only when it has sites and its site count equals
   * the number of distinct elements, otherwise the function falls off its end.
   */
  function GenerateFallback(comp: Composition, expand: Expander): Option<Structure> {
    var s :=
      if |comp| == 3 then GenerateTernary112(comp, expand)
      else if |comp| == 2 then GenerateBinary13(comp, expand)
      else None;
    if s.Some? && HasSites(s.value) && |s.value.sites| == |comp| then s else None
  }

  /** What `_generate_fallback` accepts: the expansion of the seed for its element count, of that many sites. */
  lemma FallbackAccepts(comp: Composition, expand: Expander)
    ensures var r := GenerateFallback(comp, expand);
            r.Some? ==>
              && (|comp| == 2 || |comp| == 3)
              && |r.value.sites| == |comp|
              && r == expand((if |comp| == 3 then Ternary112Seed(comp) else Binary13Seed(comp)).value)
    ensures |comp| != 2 && |comp| != 3 ==> GenerateFallback(comp, expand) == None
  {
  }

  /** The expansion keeps at least one site per seed coordinate (each orbit is non-empty). */
  ghost predicate KeepsSeedSites(expand: Expander) {
    forall sd :: expand(sd).Some? ==> |expand(sd).value.sites| >= |sd.species|
  }

  /**
   * Whenever the expansion keeps every seed site, no prototype passes the site
   * count check: four or five sites never equal three or two elements.
   */
  lemma {:induction false} FallbackRejectsExpandedSeeds(comp: Composition, expand: Expander)
    requires KeepsSeedSites(expand)
    ensures GenerateFallback(comp, expand) == None
  {
    if |comp| == 3 {
      var sd := Ternary112Seed(comp);
      if sd.Some? && expand(sd.value).Some? {
        assert |expand(sd.value).value.sites| >= 4;
      }
    } else if |comp| == 2 {
      var sd := Binary13Seed(comp);
      if sd.Some? && expand(sd.value).Some? {
        assert |sd.value.species| == 5;
        assert |expand(sd.value).value.sites| >= 5;
      }
    }
  }

  /**
   * `_generate_emergency_structure`: `max(1, n)` copies of the first symbol (or
   * "H" for no elements) placed on ONE coordinate; any length mismatch raises
   * inside pymatgen and the bare `except` builds a single H atom instead.
   */
  function EmergencyStructure(comp: Composition): Structure {
    var symbols := Symbols(comp);
    var elements := if symbols != [] then symbols else ["H"];
    var species := Replicate(elements[0], Max(1, |elements|));
    match NewStructure(Cubic(4.0), species, [Origin])
    case Some(s) => s
    case None => Structure(Cubic(4.0), [Site("H", Origin)])
  }

  /**
   * The emergency cell is always a cubic a=4 cell with one atom at the origin:
   * the sole element of a one-element composition, otherwise hydrogen.
   */
  lemma EmergencyIsSingleAtom(comp: Composition)
    ensures EmergencyStructure(comp) == SingleAtom(if |comp| == 1 then comp[0].element else "H", 4.0)
    ensures HasSites(EmergencyStructure(comp)) && Volume(EmergencyStructure(comp).lattice) == 64.0
  {
    var species := Replicate((if Symbols(comp) != [] then Symbols(comp) else ["H"])[0],
                             Max(1, |if Symbols(comp) != [] then Symbols(comp) else ["H"]|));
    if |comp| == 1 {
      assert species == [comp[0].element];
    } else {
      assert |species| != 1 || species == ["H"];
    }
  }
}
