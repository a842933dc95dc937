/**
 * The structure helpers of the generation script: element extraction by the
 * pattern `[A-Z][a-z]?`, the two prototypical cells (ABX2 and AB3), the
 * two-site fallback cell, and the substitution placeholder.
 */
module StructureUtils {
  import opened Basics
  import opened Crystal

  predicate IsUpper(c: char) {
    'A' <= c <= 'Z'
  }

  predicate IsLower(c: char) {
    'a' <= c <= 'z'
  }

  /** `re.findall(r'([A-Z][a-z]?)', formula)`: the non-overlapping matches, left to right. */
  function FindElements(formula: string): (r: seq<string>)
    ensures forall t :: t in r ==> 1 <= |t| <= 2 && IsUpper(t[0]) && (|t| == 2 ==> IsLower(t[1]))
    decreases |formula|
  {
    if formula == [] then []
    else if !IsUpper(formula[0]) then FindElements(formula[1..])
    else if |formula| > 1 && IsLower(formula[1]) then [formula[..2]] + FindElements(formula[2..])
    else [formula[..1]] + FindElements(formula[1..])
  }

  /** The uppercase letters of `s`, in order. */
  function Uppers(s: string): seq<char>
    decreases |s|
  {
    if s == [] then [] else (if IsUpper(s[0]) then [s[0]] else []) + Uppers(s[1..])
  }

  /**
   * Every uppercase letter starts exactly one match, and nothing else does: the
   * first letters of the matches are the uppercase letters of the formula, in
   * order, duplicates kept. So no uppercase letter means no elements.
   */
  lemma {:induction false} ElementsStartAtUppercase(formula: string)
    ensures var r := FindElements(formula);
            |r| == |Uppers(formula)| && forall k :: 0 <= k < |r| ==> r[k][0] == Uppers(formula)[k]
    decreases |formula|
  {
    if formula != [] {
      if !IsUpper(formula[0]) {
        ElementsStartAtUppercase(formula[1..]);
      } else if |formula| > 1 && IsLower(formula[1]) {
        var rest := formula[2..];
        ElementsStartAtUppercase(rest);
        assert formula[1..][1..] == rest;
        assert Uppers(formula[1..]) == Uppers(rest);
        assert Uppers(formula) == [formula[0]] + Uppers(rest);
        assert FindElements(formula) == [formula[..2]] + FindElements(rest);
      } else {
        ElementsStartAtUppercase(formula[1..]);
        assert Uppers(formula) == [formula[0]] + Uppers(formula[1..]);
      }
    }
  }

  lemma NoElementsWithoutUppercase(formula: string)
    ensures FindElements(formula) == [] <==> Uppers(formula) == []
  {
    ElementsStartAtUppercase(formula);
  }

  /** `Structure(lattice, species, coords)` for lists of equal length. */
  function Place(lattice: Lattice, species: seq<string>, coords: seq<Coord>): Structure
    requires |species| == |coords|
  {
    NewStructure(lattice, species, coords).value
  }

  const Abx2Coords: seq<Coord> := [
    Coord(0.0, 0.0, 0.0),
    Coord(1.0 / 3.0, 2.0 / 3.0, 0.5),
    Coord(2.0 / 3.0, 1.0 / 3.0, 0.25),
    Coord(2.0 / 3.0, 1.0 / 3.0, 0.75)
  ]

  const Ab3Coords: seq<Coord> := [
    Coord(0.0, 0.0, 0.0),
    Coord(0.5, 0.5, 0.0),
    Coord(0.5, 0.0, 0.5),
    Coord(0.0, 0.5, 0.5)
  ]

  /** `elements[k] if len(elements) > k else placeholder`. */
  function ElementOr(elements: seq<string>, k: nat, placeholder: string): string {
    if |elements| > k then elements[k] else placeholder
  }

  /** `generate_prototypical_structure(formula, prototype)`; `None` for no elements or an unknown prototype. */
  function GeneratePrototypical(formula: string, prototype: string): Option<Structure> {
    var elements := FindElements(formula);
    if elements == [] then None
    else
      var a := ElementOr(elements, 0, "A");
      var b := ElementOr(elements, 1, "B");
      if prototype == "ABX2" then
        var x := ElementOr(elements, 2, "X");
        Some(Place(Hexagonal(3.0, 5.0), [a, b, x, x], Abx2Coords))
      else if prototype == "AB3" then
        Some(Place(Cubic(4.0), [a, b, b, b], Ab3Coords))
      else None
  }

  /**
   * A prototype is built exactly when the formula has an uppercase letter and
   * the prototype is known; ABX2 is four sites [A, B, X, X] on the hexagonal
   * a=3, c=5 cell, AB3 four sites [A, B, B, B] on the cubic a=4 cell, where the
   * second and third elements default to "B" and "X".
   */
  lemma PrototypeShapes(formula: string, prototype: string)
    ensures var r := GeneratePrototypical(formula, prototype);
            r.Some? <==> Uppers(formula) != [] && (prototype == "ABX2" || prototype == "AB3")
    ensures var r := GeneratePrototypical(formula, prototype);
            var e := FindElements(formula);
            r.Some? ==>
              && |r.value.sites| == 4 && HasSites(r.value)
              && (prototype == "ABX2" ==>
                    && r.value.lattice == Hexagonal(3.0, 5.0)
                    && Species(r.value) == [e[0], ElementOr(e, 1, "B"), ElementOr(e, 2, "X"), ElementOr(e, 2, "X")]
                    && (forall k :: 0 <= k < 4 ==> r.value.sites[k].coord == Abx2Coords[k]))
              && (prototype == "AB3" ==>
                    && r.value.lattice == Cubic(4.0)
                    && Species(r.value) == [e[0], ElementOr(e, 1, "B"), ElementOr(e, 1, "B"), ElementOr(e, 1, "B")]
                    && (forall k :: 0 <= k < 4 ==> r.value.sites[k].coord == Ab3Coords[k]))
  {
    NoElementsWithoutUppercase(formula);
    var r := GeneratePrototypical(formula, prototype);
    if r.Some? {
      var e := FindElements(formula);
      var sp := if prototype == "ABX2" then [e[0], ElementOr(e, 1, "B"), ElementOr(e, 2, "X"), ElementOr(e, 2, "X")]
                else [e[0], ElementOr(e, 1, "B"), ElementOr(e, 1, "B"), ElementOr(e, 1, "B")];
      assert forall k :: 0 <= k < 4 ==> r.value.sites[k].species == sp[k];
    }
  }

  /** `generate_fallback_structure(formula)`: two "X" sites in a cubic a=4.2 cell, whatever the formula. */
  function GenerateFallbackStructure(formula: string): Structure {
    Place(Cubic(4.2), ["X", "X"], [Coord(0.0, 0.0, 0.0), Coord(0.5, 0.5, 0.5)])
  }

  lemma FallbackIgnoresFormula(f: string, g: string)
    ensures GenerateFallbackStructure(f) == GenerateFallbackStructure(g)
    ensures var s := GenerateFallbackStructure(f);
            && s.lattice == Cubic(4.2) && HasSites(s)
            && s.sites == [Site("X", Coord(0.0, 0.0, 0.0)), Site("X", Coord(0.5, 0.5, 0.5))]
  {
    var s := GenerateFallbackStructure(f);
    assert s.sites[0] == Site("X", Coord(0.0, 0.0, 0.0));
    assert s.sites[1] == Site("X", Coord(0.5, 0.5, 0.5));
  }

  /** `predict_structure_by_substitution(formula)`: a placeholder that predicts nothing. */
  function PredictBySubstitution(formula: string): Option<Structure> {
    None
  }
}
