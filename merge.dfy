/**
 * The join of process_csv_file (app.py): every incoming row, in order, looks
 * up the first existing row with the same match key and overwrites up to five
 * of its cells from the incoming row, following additional_mapping. The keys
 * are computed once, before the join, so the overwrites never change which
 * row a key finds.
 */
module Merge {
  import opened Wrappers
  import opened Frames

  /** additional_mapping in its insertion order: (incoming column, existing column). */
  const Mapping: seq<(string, string)> := [
    ("Invoice Date", "Order Date"),
    ("Ship-to Name", "Ship To Name"),
    ("Order No.", "Purchase Order No."),
    ("Delivery Date", "Start Date"),
    ("Cancel Date", "Cancel Date")]

  /** The position of the first k in keys, or |keys| when there is none. */
  function FirstIndex(keys: seq<string>, k: string): (r: nat)
    ensures r <= |keys|
    ensures r < |keys| ==> keys[r] == k
    ensures forall j :: 0 <= j < r ==> keys[j] != k
    decreases |keys|
  {
    if keys == [] || keys[0] == k then 0
    else
      var r := FirstIndex(keys[1..], k);
      assert forall j :: 1 <= j < 1 + r ==> keys[j] == keys[1..][j - 1];
      1 + r
  }

  /** A mapped pair is used only when both tables have its column. */
  predicate Applies(p: (string, string), incCols: seq<string>, exCols: seq<string>) {
    p.0 in incCols && p.1 in exCols
  }

  /** The inner loop over the mapping, applied to one existing row. */
  function Apply(r: Row, inc: Row, ps: seq<(string, string)>, incCols: seq<string>, exCols: seq<string>): Row
    decreases |ps|
  {
    if ps == [] then r
    else
      var next := if Applies(ps[0], incCols, exCols) then r[ps[0].1 := Cell(inc, ps[0].0)] else r;
      Apply(next, inc, ps[1..], incCols, exCols)
  }

  /** The incoming column whose value ends up in existing column c: that of the last used pair targeting c. */
  function SourceOf(ps: seq<(string, string)>, c: string, incCols: seq<string>, exCols: seq<string>): Option<string>
    decreases |ps|
  {
    if ps == [] then None
    else
      var later := SourceOf(ps[1..], c, incCols, exCols);
      if later.Some? then later
      else if Applies(ps[0], incCols, exCols) && ps[0].1 == c then Some(ps[0].0)
      else None
  }

  /** A cell after the mapping: copied from its source column, or untouched when it has none. */
  lemma {:induction false} ApplyCell(r: Row, inc: Row, ps: seq<(string, string)>, incCols: seq<string>, exCols: seq<string>, c: string)
    ensures Cell(Apply(r, inc, ps, incCols, exCols), c) ==
      match SourceOf(ps, c, incCols, exCols)
      case None => Cell(r, c)
      case Some(a) => Cell(inc, a)
    decreases |ps|
  {
    if ps != [] {
      var next := if Applies(ps[0], incCols, exCols) then r[ps[0].1 := Cell(inc, ps[0].0)] else r;
      ApplyCell(next, inc, ps[1..], incCols, exCols, c);
    }
  }

  /** Each of the five targets takes its source column when both columns exist; nothing else is written. */
  lemma MappingSources(c: string, incCols: seq<string>, exCols: seq<string>)
    ensures SourceOf(Mapping, c, incCols, exCols) ==
      if c == "Order Date" && "Invoice Date" in incCols && c in exCols then Some("Invoice Date")
      else if c == "Ship To Name" && "Ship-to Name" in incCols && c in exCols then Some("Ship-to Name")
      else if c == "Purchase Order No." && "Order No." in incCols && c in exCols then Some("Order No.")
      else if c == "Start Date" && "Delivery Date" in incCols && c in exCols then Some("Delivery Date")
      else if c == "Cancel Date" && "Cancel Date" in incCols && c in exCols then Some("Cancel Date")
      else None
  {
    var m4 := Mapping[4..];
    var m3 := Mapping[3..];
    var m2 := Mapping[2..];
    var m1 := Mapping[1..];
    assert m4[1..] == [];
    assert m3[1..] == m4 && m2[1..] == m3 && m1[1..] == m2 && Mapping[1..] == m1;
  }

  /** The inputs of the join: both tables with their key columns. */
  datatype Sides = Sides(existing: Frame, exKeys: seq<string>, incoming: Frame, incKeys: seq<string>)

  predicate Keyed(s: Sides) {
    |s.exKeys| == |s.existing.rows| && |s.incKeys| == |s.incoming.rows|
  }

  /** The existing row incoming row t updates, |existing rows| when its key matches none. */
  function Target(s: Sides, t: nat): nat
    requires Keyed(s) && t < |s.incoming.rows|
  {
    FirstIndex(s.exKeys, s.incKeys[t])
  }

  /** The existing rows after the first n incoming rows. */
  function Merged(s: Sides, n: nat): (m: seq<Row>)
    requires Keyed(s) && n <= |s.incoming.rows|
    ensures |m| == |s.existing.rows|
  {
    if n == 0 then s.existing.rows
    else
      var prev := Merged(s, n - 1);
      var k := Target(s, n - 1);
      if k < |prev| then prev[k := Apply(prev[k], s.incoming.rows[n - 1], Mapping, s.incoming.columns, s.existing.columns)]
      else prev
  }

  /** The last of the first n incoming rows that updates existing row j, -1 if none does. */
  function LastTarget(s: Sides, j: nat, n: nat): (t: int)
    requires Keyed(s) && n <= |s.incoming.rows|
    ensures -1 <= t < n
    ensures t >= 0 ==> Target(s, t) == j
    ensures forall u :: t < u < n ==> Target(s, u) != j
  {
    if n == 0 then -1
    else if Target(s, n - 1) == j then n - 1
    else LastTarget(s, j, n - 1)
  }

  /**
   * Every cell after the join: a mapped column of an existing row holds the
   * value of the last incoming row whose key first matches that row; every
   * other cell, and every row no incoming key finds first, is unchanged.
   */
  lemma {:induction false} MergedCell(s: Sides, n: nat, j: nat, c: string)
    requires Keyed(s) && n <= |s.incoming.rows| && j < |s.existing.rows|
    ensures var t := LastTarget(s, j, n);
      Cell(Merged(s, n)[j], c) ==
        match SourceOf(Mapping, c, s.incoming.columns, s.existing.columns)
        case Some(a) => if t >= 0 then Cell(s.incoming.rows[t], a) else Cell(s.existing.rows[j], c)
        case None => Cell(s.existing.rows[j], c)
  {
    if n > 0 {
      MergedCell(s, n - 1, j, c);
      if Target(s, n - 1) == j {
        ApplyCell(Merged(s, n - 1)[j], s.incoming.rows[n - 1], Mapping, s.incoming.columns, s.existing.columns, c);
      }
    }
  }

  /** The mapping loop on one row. */
  method UpdateRow(r: Row, inc: Row, incCols: seq<string>, exCols: seq<string>) returns (u: Row)
    ensures u == Apply(r, inc, Mapping, incCols, exCols)
  {
    u := r;
    var i := 0;
    while i < |Mapping|
      invariant 0 <= i <= |Mapping|
      invariant Apply(r, inc, Mapping, incCols, exCols) == Apply(u, inc, Mapping[i..], incCols, exCols)
    {
      var (a, b) := Mapping[i];
      assert Mapping[i..][1..] == Mapping[i + 1..];
      if a in incCols && b in exCols {
        u := u[b := Cell(inc, a)];
      }
      i := i + 1;
    }
  }

  /** The loop over the incoming rows. */
  method MergeRows(s: Sides) returns (rows: seq<Row>)
    requires Keyed(s)
    ensures rows == Merged(s, |s.incoming.rows|)
  {
    rows := s.existing.rows;
    var i := 0;
    while i < |s.incoming.rows|
      invariant 0 <= i <= |s.incoming.rows|
      invariant rows == Merged(s, i)
    {
      var k := FirstIndex(s.exKeys, s.incKeys[i]);
      if k < |rows| {
        var u := UpdateRow(rows[k], s.incoming.rows[i], s.incoming.columns, s.existing.columns);
        rows := rows[k := u];
      }
      i := i + 1;
    }
  }
}
