/**
 * compute_pallet, compute_burlington and compute_final_cube (app.py). A
 * pallet count is the BOL cube over 80, rounded up; the cube of a shipment
 * is that count times 93 for a Burlington store and times 130 for any
 * other. None stands for the "" these functions return when they fail.
 */
module Cubes {
  import opened Wrappers
  import opened Text

  /** math.ceil on an exact value. */
  function Ceil(x: real): (r: int)
    ensures (r - 1) as real < x <= r as real
  {
    -((-x).Floor)
  }

  /** The pallets a cube of v cubic feet needs: math.ceil(v / 80). */
  function PalletCount(v: real): int {
    Ceil(v / 80.0)
  }

  /** compute_pallet: float() of the cell without commas, then the pallet count. */
  function ComputePallet(cube: string): Option<int> {
    match ParseDecimal(Strip(RemoveCommas(cube)))
    case None => None
    case Some(v) => Some(PalletCount(v))
  }

  /** Whether a ship-to name is a Burlington store; "" is a missing (non-string) name. */
  predicate IsBurlington(name: string) {
    Contains(Lower(name), "burlington")
  }

  /** compute_burlington */
  function ComputeBurlington(name: string, pallet: Option<int>): Option<int> {
    if name != "" && IsBurlington(name) && pallet.Some? then Some(pallet.value * 93) else None
  }

  /** compute_final_cube */
  function ComputeFinalCube(name: string, pallet: Option<int>): Option<int> {
    if name != "" && !IsBurlington(name) && pallet.Some? then Some(pallet.value * 130) else None
  }

  /** The cell a computed value is written as: str of the integer, or "". */
  function CellOf(v: Option<int>): string {
    match v
    case None => ""
    case Some(n) => IntToString(n)
  }

  // ---------------------------------------------------------------------------
  // Properties
  // ---------------------------------------------------------------------------

  /** A pallet count is the least integer p with cube <= 80 * p; it fails exactly when float() does. */
  lemma PalletBounds(cube: string)
    ensures var v := ParseDecimal(Strip(RemoveCommas(cube)));
      && (ComputePallet(cube).Some? <==> v.Some?)
      && (v.Some? ==> var p := ComputePallet(cube).value;
            80.0 * (p - 1) as real < v.value <= 80.0 * p as real)
  {
  }

  /** A cube of 160 fills exactly two pallets; 161 needs a third; 0 needs none. */
  lemma PalletCountExamples()
    ensures PalletCount(160.0) == 2
    ensures PalletCount(161.0) == 3
    ensures PalletCount(0.0) == 0
  {
  }

  /** An empty cell gives no pallet count. */
  lemma PalletOfEmpty()
    ensures ComputePallet("") == None
  {
    assert RemoveCommas("") == "";
    assert Strip("") == "";
    assert ExpMarkFrom("", 0) == 0;
  }

  /**
   * At most one of the two cubes is computed; for a present name and pallet
   * count exactly one is, the Burlington cube exactly for Burlington stores.
   */
  lemma CubesExclusive(name: string, pallet: Option<int>)
    ensures !(ComputeBurlington(name, pallet).Some? && ComputeFinalCube(name, pallet).Some?)
    ensures ComputeBurlington(name, pallet).Some? <==> name != "" && pallet.Some? && IsBurlington(name)
    ensures ComputeFinalCube(name, pallet).Some? <==> name != "" && pallet.Some? && !IsBurlington(name)
    ensures ComputeBurlington(name, pallet).Some? ==> ComputeBurlington(name, pallet).value == 93 * pallet.value
    ensures ComputeFinalCube(name, pallet).Some? ==> ComputeFinalCube(name, pallet).value == 130 * pallet.value
  {
  }

  /** The name test ignores case. */
  lemma BurlingtonAnyCase()
    ensures IsBurlington("BURLINGTON #123")
  {
    var s := Lower("BURLINGTON #123");
    assert s[0..10] == "burlington";
    assert OccursAt(s, "burlington", 0);
  }
}
