/** How a plane of units reads one head row and reduces a dot product: slots dealt cyclically to the
    units, out-of-range slots folded to zero, vectors summed horizontally, units summed by the plane. */
module PlaneDots {
  import opened Arithmetic
  import opened FiniteSums
  import opened OnlineSoftmax
  import opened Attention

  /** The plane's geometry: a row is `slots` vectors of `width` elements, dealt to `planeDim` units in
      `dpu` steps. */
  datatype Plane = Plane(planeDim: nat, dpu: nat, slots: nat, width: nat)

  ghost predicate Covers(p: Plane, headDim: nat) {
    && p.planeDim >= 1 && p.width >= 1 && headDim == p.slots * p.width
    && p.dpu == CeilDiv(p.slots, p.planeDim)
  }

  /** Element `k` of slot `slot` of a row, or an exact zero past the row's end. */
  function MaskedLoad(p: Plane, buffer: seq<real>, base: nat, slot: nat, k: nat): real {
    if slot < p.slots then Load(buffer, base * p.width + Flat(slot, p.width, k)) else 0.0
  }

  /** Load one slot of a row, with the ragged tail folded to an exact zero: an out-of-range slot reads
      slot 0 of the same row and is multiplied away. */
  function ReadMasked(p: Plane, buffer: seq<real>, base: nat, slot: nat): (v: seq<real>)
    requires p.slots >= 1 && (base + p.slots) * p.width <= |buffer|
    ensures |v| == p.width
    ensures forall k :: 0 <= k < p.width ==> v[k] == MaskedLoad(p, buffer, base, slot, k)
  {
    var idx := if slot < p.slots then slot else 0;
    InsideRow(p, base, idx, |buffer|);
    seq(p.width, k requires 0 <= k < p.width =>
      buffer[base * p.width + Flat(idx, p.width, k)] * (if slot < p.slots then 1.0 else 0.0))
  }

  /** Every read stays inside the row it belongs to. */
  lemma InsideRow(p: Plane, base: nat, idx: nat, size: nat)
    requires idx < p.slots && (base + p.slots) * p.width <= size
    ensures forall k :: 0 <= k < p.width ==> base * p.width <= base * p.width + Flat(idx, p.width, k) < (base + p.slots) * p.width
  {
    MulLess(idx, p.slots, p.width);
    assert (base + p.slots) * p.width == base * p.width + p.slots * p.width;
  }

  // ---- What the reduction adds up ----

  /** Two rows being multiplied. */
  datatype Rows = Rows(p: Plane, a: seq<real>, aBase: nat, b: seq<real>, bBase: nat)

  /** The product of element `k` of slot `x`, or nothing past the row's end. */
  function SlotTerm(r: Rows, x: nat, k: nat): real {
    if x < r.p.slots then Load(r.a, r.aBase * r.p.width + Flat(x, r.p.width, k)) * Load(r.b, r.bBase * r.p.width + Flat(x, r.p.width, k)) else 0.0
  }

  function Terms(r: Rows): (nat, nat) -> real {
    (x: nat, k: nat) => SlotTerm(r, x, k)
  }

  /** Element `k` of what unit `u` multiplies at its step `j`. */
  function UnitTerms(r: Rows, u: nat): (nat, nat) -> real {
    (k: nat, j: nat) => SlotTerm(r, Flat(j, r.p.planeDim, u), k)
  }

  function StepTerms(r: Rows, u: nat): (nat, nat) -> real {
    (j: nat, k: nat) => SlotTerm(r, Flat(j, r.p.planeDim, u), k)
  }

  function SlotSum(r: Rows): nat -> real {
    (x: nat) => Row(Terms(r), x, r.p.width)
  }

  function ByUnit(r: Rows): (nat, nat) -> real {
    (u: nat, j: nat) => Row(Terms(r), Flat(j, r.p.planeDim, u), r.p.width)
  }

  function ByStep(r: Rows): (nat, nat) -> real {
    (j: nat, u: nat) => Row(Terms(r), Flat(j, r.p.planeDim, u), r.p.width)
  }

  function UnitSum(r: Rows): nat -> real {
    (u: nat) => Table(UnitTerms(r, u), r.p.width, r.p.dpu)
  }

  function Products(r: Rows): nat -> real {
    (d: nat) => Load(r.a, r.aBase * r.p.width + d) * Load(r.b, r.bBase * r.p.width + d)
  }

  /** What one unit ends with: its slots' sums. */
  lemma {:induction false} StepsAreSlots(r: Rows, u: nat, steps: nat)
    ensures Table(StepTerms(r, u), steps, r.p.width) == Row(ByUnit(r), u, steps)
  {
    if steps > 0 {
      StepsAreSlots(r, u, steps - 1);
      RowSame(StepTerms(r, u), Terms(r), steps - 1, Flat(steps - 1, r.p.planeDim, u), r.p.width);
    }
  }

  lemma UnitIsSlots(r: Rows, u: nat)
    ensures UnitSum(r)(u) == Row(ByUnit(r), u, r.p.dpu)
  {
    Exchange(UnitTerms(r, u), StepTerms(r, u), r.p.width, r.p.dpu);
    StepsAreSlots(r, u, r.p.dpu);
  }

  lemma {:induction false} UnitsAreTable(r: Rows, units: nat)
    ensures Sum(UnitSum(r), units) == Table(ByUnit(r), units, r.p.dpu)
  {
    if units > 0 {
      UnitsAreTable(r, units - 1);
      UnitIsSlots(r, units - 1);
    }
  }

  lemma {:induction false} SlotsAreTable(r: Rows, n: nat)
    ensures Sum(SlotSum(r), n) == Table(Terms(r), n, r.p.width)
  {
    if n > 0 {
      SlotsAreTable(r, n - 1);
    }
  }

  lemma {:induction false} DotIsSum(r: Rows, n: nat)
    ensures Dot(r.a, r.aBase * r.p.width, r.b, r.bBase * r.p.width, n) == Sum(Products(r), n)
  {
    if n > 0 {
      DotIsSum(r, n - 1);
    }
  }

  lemma PastTheRow(r: Rows, x: nat)
    requires x >= r.p.slots
    ensures SlotSum(r)(x) == 0.0
  {
    RowOfZeros(r, x, r.p.width);
  }

  lemma {:induction false} RowOfZeros(r: Rows, x: nat, n: nat)
    requires x >= r.p.slots
    ensures Row(Terms(r), x, n) == 0.0
  {
    if n > 0 {
      RowOfZeros(r, x, n - 1);
    }
  }

  /** The cyclic deal visits each slot of the row once, and the out-of-range ones add nothing. */
  lemma UnitsCoverRow(r: Rows, headDim: nat)
    requires Covers(r.p, headDim)
    ensures Sum(UnitSum(r), r.p.planeDim) == Sum(SlotSum(r), r.p.slots)
  {
    var p := r.p;
    CeilDivRounds(p.slots, p.planeDim);
    hide UnitSum, SlotSum, Row, Table, Sum;
    forall x: nat | p.slots <= x < p.dpu * p.planeDim ensures SlotSum(r)(x) == 0.0 {
      PastTheRow(r, x);
    }
    UnitsAreTable(r, p.planeDim);
    Exchange(ByUnit(r), ByStep(r), p.planeDim, p.dpu);
    StepsAreStraight(r, p.dpu, p.planeDim);
    SumTail(SlotSum(r), p.slots, p.dpu * p.planeDim);
  }

  lemma StepsAreStraight(r: Rows, rows: nat, cols: nat)
    requires cols == r.p.planeDim
    ensures Table(ByStep(r), rows, cols) == Sum(SlotSum(r), rows * cols)
  {
    Flatten(ByStep(r), SlotSum(r), rows, cols);
  }

  lemma SlotsAreDot(r: Rows, headDim: nat)
    requires headDim == r.p.slots * r.p.width
    ensures Sum(SlotSum(r), r.p.slots) == Dot(r.a, r.aBase * r.p.width, r.b, r.bBase * r.p.width, headDim)
  {
    SlotsAreTable(r, r.p.slots);
    Flatten(Terms(r), Products(r), r.p.slots, r.p.width);
    DotIsSum(r, headDim);
  }

  /** The plane's reduction is the dot product of the whole row, whether or not the row divides evenly. */
  lemma PlaneSumIsDot(r: Rows, headDim: nat)
    requires Covers(r.p, headDim)
    ensures Sum(UnitSum(r), r.p.planeDim) == Dot(r.a, r.aBase * r.p.width, r.b, r.bBase * r.p.width, headDim)
  {
    UnitsCoverRow(r, headDim);
    SlotsAreDot(r, headDim);
    hide UnitSum, SlotSum, Sum, Dot;
  }

  // ---- The reduction itself ----

  /** One unit's vector of partial products, over its own slots. */
  method UnitPart(p: Plane, a: seq<real>, aBase: nat, b: seq<real>, bBase: nat, u: nat) returns (part: seq<real>)
    requires p.slots >= 1 && (aBase + p.slots) * p.width <= |a| && (bBase + p.slots) * p.width <= |b|
    ensures |part| == p.width
    ensures forall k :: 0 <= k < p.width ==> part[k] == Row(UnitTerms(Rows(p, a, aBase, b, bBase), u), k, p.dpu)
  {
    hide MaskedLoad, SlotTerm, Flat;
    ghost var r := Rows(p, a, aBase, b, bBase);
    part := seq(p.width, _ => 0.0);
    for i := 0 to p.dpu
      invariant |part| == p.width
      invariant forall k :: 0 <= k < p.width ==> part[k] == Row(UnitTerms(r, u), k, i)
    {
      var slot := Flat(i, p.planeDim, u);
      part := MultiplyAdd(p, part, ReadMasked(p, a, aBase, slot), ReadMasked(p, b, bBase, slot), r, u, i);
    }
  }

  /** One step of a unit: two masked vectors, multiplied element by element. */
  method MultiplyAdd(p: Plane, part: seq<real>, x: seq<real>, y: seq<real>, ghost r: Rows, ghost u: nat, ghost i: nat) returns (next: seq<real>)
    requires r.p == p && |part| == |x| == |y| == p.width
    requires forall k :: 0 <= k < p.width ==> part[k] == Row(UnitTerms(r, u), k, i)
    requires forall k :: 0 <= k < p.width ==> x[k] == MaskedLoad(p, r.a, r.aBase, Flat(i, p.planeDim, u), k)
    requires forall k :: 0 <= k < p.width ==> y[k] == MaskedLoad(p, r.b, r.bBase, Flat(i, p.planeDim, u), k)
    ensures |next| == p.width
    ensures forall k :: 0 <= k < p.width ==> next[k] == Row(UnitTerms(r, u), k, i + 1)
  {
    next := seq(p.width, k requires 0 <= k < p.width => part[k] + x[k] * y[k]);
    forall k | 0 <= k < p.width
      ensures next[k] == Row(UnitTerms(r, u), k, i + 1)
    {
      MaskedProduct(r, Flat(i, p.planeDim, u), k);
    }
  }

  lemma MaskedProduct(r: Rows, slot: nat, k: nat)
    ensures MaskedLoad(r.p, r.a, r.aBase, slot, k) * MaskedLoad(r.p, r.b, r.bBase, slot, k) == SlotTerm(r, slot, k)
  {
  }

  /** Sum a vector's own elements. */
  method HorizontalSum(v: seq<real>, ghost f: (nat, nat) -> real, ghost cols: nat) returns (total: real)
    requires forall k :: 0 <= k < |v| ==> v[k] == Row(f, k, cols)
    ensures total == Table(f, |v|, cols)
  {
    total := 0.0;
    for k := 0 to |v|
      invariant total == Table(f, k, cols)
    {
      total := total + v[k];
    }
  }

  /** The plane reduction: every unit's horizontal sum, added across the plane. */
  method PlaneDot(p: Plane, a: seq<real>, aBase: nat, b: seq<real>, bBase: nat, ghost headDim: nat) returns (dot: real)
    requires Covers(p, headDim)
    requires p.slots >= 1 ==> (aBase + p.slots) * p.width <= |a| && (bBase + p.slots) * p.width <= |b|
    ensures dot == Dot(a, aBase * p.width, b, bBase * p.width, headDim)
  {
    ghost var r := Rows(p, a, aBase, b, bBase);
    dot := 0.0;
    if p.slots == 0 {
      return;
    }
    for u := 0 to p.planeDim
      invariant dot == Sum(UnitSum(r), u)
    {
      var part := UnitPart(p, a, aBase, b, bBase, u);
      var flat := HorizontalSum(part, UnitTerms(r, u), p.dpu);
      dot := dot + flat;
    }
    PlaneSumIsDot(r, headDim);
  }
}
