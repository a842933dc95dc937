/**
 * Compositions as the pipeline sees them (pymatgen's `Composition`): an ordered
 * list of (element, amount) entries, one per distinct element, and the integer
 * helpers the ratio gate uses (`int()` truncation and `math.gcd`).
 */
module Chemistry {

  datatype Entry = Entry(element: string, amount: real)

  /** `len(comp)` is the number of entries, i.e. of distinct elements. */
  type Composition = seq<Entry>

  /** `[e.symbol for e in comp.elements]`. */
  function Symbols(comp: Composition): (r: seq<string>)
    ensures |r| == |comp|
    ensures forall i :: 0 <= i < |comp| ==> r[i] == comp[i].element
  {
    seq(|comp|, i requires 0 <= i < |comp| => comp[i].element)
  }

  /** Python's `int(x)` on a float: truncation toward zero. */
  function Trunc(x: real): (n: int)
    ensures x >= 0.0 ==> n as real <= x < n as real + 1.0
    ensures x < 0.0 ==> n as real - 1.0 < x <= n as real
  {
    if x >= 0.0 then x.Floor else -((-x).Floor)
  }

  function Abs(n: int): nat {
    if n < 0 then -n else n
  }

  /** Euclid's algorithm on naturals. */
  function GcdNat(a: nat, b: nat): nat
    decreases b
  {
    if b == 0 then a else GcdNat(b, a % b)
  }

  /** `math.gcd(*xs)`: the gcd of the absolute values, 0 for no arguments. */
  function GcdOf(xs: seq<int>): nat {
    if xs == [] then 0 else GcdNat(Abs(xs[0]), GcdOf(xs[1..]))
  }

  lemma {:induction false} GcdNatZero(a: nat, b: nat)
    ensures GcdNat(a, b) == 0 <==> a == 0 && b == 0
    decreases b
  {
    if b != 0 {
      GcdNatZero(b, a % b);
    }
  }

  /** The gcd of a list is zero exactly when every entry is zero. */
  lemma {:induction false} GcdOfZero(xs: seq<int>)
    ensures GcdOf(xs) == 0 <==> forall i :: 0 <= i < |xs| ==> xs[i] == 0
  {
    if xs != [] {
      GcdOfZero(xs[1..]);
      GcdNatZero(Abs(xs[0]), GcdOf(xs[1..]));
      assert forall i :: 1 <= i < |xs| ==> xs[i] == xs[1..][i - 1];
    }
  }

  /** `[int(comp[e]) for e in comp.elements]`. */
  function TruncatedAmounts(comp: Composition): (r: seq<int>)
    ensures |r| == |comp|
    ensures forall i :: 0 <= i < |comp| ==> r[i] == Trunc(comp[i].amount)
  {
    seq(|comp|, i requires 0 <= i < |comp| => Trunc(comp[i].amount))
  }
}
