/** The dense grid textures of Scattering/Texture.hpp. Every texture the
    builders create holds Vector3 values, so the textures are modelled for
    Vector3 only. A Texture1D owns one array of cells; a Texture2D owns a row
    of Texture1D objects, each with its own array; a Texture3D owns a row of
    Texture2D objects. Resolutions never change after construction. */
module Textures {
  import opened MathLib
  import opened Vec3

  /** `static_cast<std::size_t>(d)` for a non-negative d: the integer part. */
  function Truncate(d: real): (i: nat)
    requires d >= 0.0
    ensures i as real <= d < i as real + 1.0
  {
    d.Floor
  }

  /** The index `static_cast<size_t>(u * (n - 1))` that `Sample` reads first.
      For 0 <= u <= 1 it is a valid index, and when it is not the last one,
      its successor is valid too. */
  function LowerCell(n: nat, u: real): (i: nat)
    requires n >= 1 && 0.0 <= u <= 1.0
    ensures i <= n - 1
    ensures i as real <= u * (n - 1) as real < i as real + 1.0
    ensures u == 1.0 ==> i == n - 1
  {
    ScaledFractionBounds(n, u);
    var i := Truncate(u * (n - 1) as real);
    assert i as real <= (n - 1) as real;
    i
  }

  /** u * (n - 1) lies in [0, n - 1] when u does in [0, 1]. */
  lemma ScaledFractionBounds(n: nat, u: real)
    requires n >= 1 && 0.0 <= u <= 1.0
    ensures 0.0 <= u * (n - 1) as real <= (n - 1) as real
  {
    MulMonoLeft(u, 1.0, (n - 1) as real);
    MulNonNegative(u, (n - 1) as real);
  }

  /** The second index `Sample` blends with: the successor of the lower cell,
      or the lower cell itself when that is the last one (no blend). */
  function UpperCell(n: nat, u: real): (i: nat)
    requires n >= 1 && 0.0 <= u <= 1.0
    ensures i <= n - 1
    ensures i == LowerCell(n, u) || i == LowerCell(n, u) + 1
  {
    var i0 := LowerCell(n, u);
    if i0 == n - 1 then i0 else i0 + 1
  }

  /** At a grid point k / (n - 1) the lower cell is k itself. */
  lemma LowerCellAtGridPoint(n: nat, k: nat)
    requires n >= 2 && k < n
    ensures 0.0 <= k as real / (n - 1) as real <= 1.0
    ensures LowerCell(n, k as real / (n - 1) as real) == k
    ensures k as real / (n - 1) as real * (n - 1) as real == k as real
  {
  }

  /** The blend weight `d - i0` of `Sample`, in [0, 1). */
  function BlendWeight(n: nat, u: real): (t: real)
    requires n >= 1 && 0.0 <= u <= 1.0
    ensures 0.0 <= t < 1.0
  {
    u * (n - 1) as real - LowerCell(n, u) as real
  }

  /** `IndexToU`, `IndexToV` and `IndexToW` of a grid with n cells:
      index / n + 1 / (2 n), the centre of cell `index`. */
  function CellCentre(n: nat, index: nat): (r: real)
    requires n > 0
    ensures r * n as real == index as real + 0.5
    ensures index < n ==> 0.0 < r < 1.0
  {
    var r := index as real / n as real + 1.0 / (2.0 * n as real);
    CellCentreBounds(n as real, index as real, r);
    r
  }

  lemma CellCentreBounds(n: real, i: real, r: real)
    requires n >= 1.0 && i >= 0.0 && r == i / n + 1.0 / (2.0 * n)
    ensures r * n == i + 0.5
    ensures i + 1.0 <= n ==> 0.0 < r < 1.0
  {
    assert r * n == i + 0.5;
    if i + 1.0 <= n {
      assert i / n >= 0.0;
      assert 1.0 / (2.0 * n) > 0.0;
      if r >= 1.0 {
        MulMonoLeft(1.0, r, n);
        assert false;
      }
    }
  }

  class Texture1D {
    const uResolution: nat
    const data: array<Vector3>

    predicate Valid() {
      data.Length == uResolution
    }

    /** `Texture1D(uResolution)`: uResolution cells, each a default (zero) Vector3. */
    constructor (uResolution: nat)
      ensures Valid() && this.uResolution == uResolution
      ensures fresh(data)
      ensures forall i :: 0 <= i < data.Length ==> data[i] == Zero
    {
      this.uResolution := uResolution;
      data := new Vector3[uResolution](_ => Zero);
    }

    /** Writing `tex[index] = value` through the mutable `operator[]`. */
    method Set(index: nat, value: Vector3)
      requires Valid() && index < uResolution
      modifies data
      ensures data[..] == old(data[..])[index := value]
    {
      data[index] := value;
    }

    /** `Sample(u)`: the cells sit at u = k / (n - 1); between two of them the
        value is interpolated linearly, and u = 1 returns the last cell. */
    function Sample(u: real): (r: Vector3)
      reads data
      requires Valid() && uResolution >= 1 && 0.0 <= u <= 1.0
      ensures u == 1.0 ==> r == data[uResolution - 1]
      ensures uResolution == 1 ==> r == data[0]
      ensures BetweenVectors(r, data[LowerCell(uResolution, u)], data[UpperCell(uResolution, u)])
    {
      var i0 := LowerCell(uResolution, u);
      if i0 == uResolution - 1 then
        data[i0]
      else
        LerpVector(data[i0], data[i0 + 1], BlendWeight(uResolution, u))
    }

    /** Sampling exactly at the grid point k / (n - 1) returns cell k. */
    lemma SampleAtGridPoint(k: nat)
      requires Valid() && uResolution >= 2 && k < uResolution
      ensures 0.0 <= k as real / (uResolution - 1) as real <= 1.0
      ensures Sample(k as real / (uResolution - 1) as real) == data[k]
    {
      LowerCellAtGridPoint(uResolution, k);
      assert BlendWeight(uResolution, k as real / (uResolution - 1) as real) == 0.0;
    }

    function IndexToU(index: nat): (r: real)
      requires uResolution > 0
      ensures r * uResolution as real == index as real + 0.5
      ensures index < uResolution ==> 0.0 < r < 1.0
    {
      CellCentre(uResolution, index)
    }
  }

  /** The arrays of the rows, which a 2D sample reads. */
  function RowArrays(rows: seq<Texture1D>): set<array<Vector3>> {
    set i | 0 <= i < |rows| :: rows[i].data
  }

  class Texture2D {
    const vResolution: nat
    const rows: seq<Texture1D>
    /** The uResolution every row was created with. */
    ghost const columns: nat

    /** Each row is a valid Texture1D of `columns` cells, and no two rows
        share storage. */
    ghost predicate Valid() {
      && |rows| == vResolution
      && (forall i :: 0 <= i < |rows| ==> rows[i].Valid() && rows[i].uResolution == columns)
      && (forall i, j :: 0 <= i < j < |rows| ==> rows[i].data != rows[j].data)
    }

    /** `Texture2D(uResolution, vResolution)`: vResolution rows, each a fresh
        Texture1D of uResolution zero cells. */
    constructor (uResolution: nat, vResolution: nat)
      ensures Valid() && this.vResolution == vResolution && columns == uResolution
      ensures forall i :: 0 <= i < vResolution ==> fresh(rows[i]) && fresh(rows[i].data)
      ensures forall i, j :: 0 <= i < vResolution && 0 <= j < uResolution ==> rows[i].data[j] == Zero
    {
      var built: seq<Texture1D> := [];
      for i := 0 to vResolution
        invariant |built| == i
        invariant forall k :: 0 <= k < i ==> built[k].Valid() && built[k].uResolution == uResolution
        invariant forall k :: 0 <= k < i ==> fresh(built[k]) && fresh(built[k].data)
        invariant forall k, l :: 0 <= k < l < i ==> built[k].data != built[l].data
        invariant forall k, j :: 0 <= k < i && 0 <= j < uResolution ==> built[k].data[j] == Zero
      {
        var row := new Texture1D(uResolution);
        built := built + [row];
      }
      this.vResolution := vResolution;
      rows := built;
      columns := uResolution;
    }

    /** Writing `tex[i][j] = value`: only cell j of row i changes. */
    method Set(i: nat, j: nat, value: Vector3)
      requires Valid() && i < vResolution && j < columns
      modifies rows[i].data
      ensures rows[i].data[..] == old(rows[i].data[..])[j := value]
      ensures forall k :: 0 <= k < vResolution && k != i ==> rows[k].data[..] == old(rows[k].data[..])
    {
      rows[i].Set(j, value);
    }

    /** `Sample(u, v)`: sample the two rows around v at u and blend them
        linearly; v = 1 uses the last row alone. */
    function Sample(u: real, v: real): (r: Vector3)
      reads RowArrays(rows)
      requires Valid() && vResolution >= 1 && columns >= 1
      requires 0.0 <= u <= 1.0 && 0.0 <= v <= 1.0
      ensures v == 1.0 ==> r == rows[vResolution - 1].Sample(u)
      ensures vResolution == 1 ==> r == rows[0].Sample(u)
      ensures BetweenVectors(r, rows[LowerCell(vResolution, v)].Sample(u), rows[UpperCell(vResolution, v)].Sample(u))
    {
      var i0 := LowerCell(vResolution, v);
      if i0 == vResolution - 1 then
        rows[i0].Sample(u)
      else
        LerpVector(rows[i0].Sample(u), rows[i0 + 1].Sample(u), BlendWeight(vResolution, v))
    }

    /** Sampling exactly at the row grid point k / (vResolution - 1) samples row k. */
    lemma SampleAtGridPoint(u: real, k: nat)
      requires Valid() && vResolution >= 2 && columns >= 1 && k < vResolution && 0.0 <= u <= 1.0
      ensures 0.0 <= k as real / (vResolution - 1) as real <= 1.0
      ensures Sample(u, k as real / (vResolution - 1) as real) == rows[k].Sample(u)
    {
      LowerCellAtGridPoint(vResolution, k);
      assert BlendWeight(vResolution, k as real / (vResolution - 1) as real) == 0.0;
    }

    function IndexToV(index: nat): (r: real)
      requires vResolution > 0
      ensures r * vResolution as real == index as real + 0.5
      ensures index < vResolution ==> 0.0 < r < 1.0
    {
      CellCentre(vResolution, index)
    }

    /** `IndexToU` delegates to row 0, so there must be a row. */
    function IndexToU(index: nat): (r: real)
      requires Valid() && vResolution > 0 && columns > 0
      ensures r * columns as real == index as real + 0.5
      ensures index < columns ==> 0.0 < r < 1.0
    {
      rows[0].IndexToU(index)
    }

    /** `GetUResolution` reads row 0, so there must be a row. */
    function GetUResolution(): (r: nat)
      requires Valid() && vResolution > 0
      ensures r == columns
      ensures forall i :: 0 <= i < vResolution ==> rows[i].uResolution == r
    {
      rows[0].uResolution
    }
  }

  /** The arrays of all rows of all slabs, which a 3D sample reads. */
  function SlabArrays(slabs: seq<Texture2D>): set<array<Vector3>> {
    set i, j | 0 <= i < |slabs| && 0 <= j < |slabs[i].rows| :: slabs[i].rows[j].data
  }

  /** The slabs of a new Texture3D: w fresh u-by-v Texture2Ds of zero
      cells, no two of which share a row's storage. */
  method NewSlabs(uResolution: nat, vResolution: nat, wResolution: nat) returns (built: seq<Texture2D>)
    ensures |built| == wResolution
    ensures forall s :: 0 <= s < wResolution ==>
      && built[s].Valid() && built[s].columns == uResolution && built[s].vResolution == vResolution
      && |built[s].rows| == vResolution
      && (forall k :: 0 <= k < vResolution ==> built[s].rows[k].data.Length == uResolution)
    ensures forall s, k :: 0 <= s < wResolution && 0 <= k < vResolution ==> fresh(built[s].rows[k].data)
    ensures forall s, t, k, l :: 0 <= s < t < wResolution && 0 <= k < vResolution && 0 <= l < vResolution ==>
      built[s].rows[k].data != built[t].rows[l].data
    ensures forall s, k, j :: 0 <= s < wResolution && 0 <= k < vResolution && 0 <= j < uResolution ==>
      built[s].rows[k].data[j] == Zero
  {
    built := [];
    for i := 0 to wResolution
      invariant |built| == i
      invariant forall s :: 0 <= s < i ==>
        built[s].Valid() && built[s].columns == uResolution && built[s].vResolution == vResolution
      invariant forall s, k :: 0 <= s < i && 0 <= k < vResolution ==> fresh(built[s].rows[k].data)
      invariant forall s, t, k, l :: 0 <= s < t < i && 0 <= k < vResolution && 0 <= l < vResolution ==>
        built[s].rows[k].data != built[t].rows[l].data
      invariant forall s, k, j :: 0 <= s < i && 0 <= k < vResolution && 0 <= j < uResolution ==>
        built[s].rows[k].data[j] == Zero
    {
      var slab := new Texture2D(uResolution, vResolution);
      built := built + [slab];
    }
  }

  class Texture3D {
    const wResolution: nat
    const slabs: seq<Texture2D>
    ghost const columns: nat
    ghost const rowCount: nat

    /** Each slab is a valid Texture2D of `rowCount` rows of `columns` cells,
        and no two slabs share a row's storage. */
    ghost predicate Valid() {
      && |slabs| == wResolution
      && (forall i :: 0 <= i < |slabs| ==>
           slabs[i].Valid() && slabs[i].columns == columns && slabs[i].vResolution == rowCount)
      && (forall i, j, k, l :: 0 <= i < j < |slabs| && 0 <= k < rowCount && 0 <= l < rowCount ==>
           slabs[i].rows[k].data != slabs[j].rows[l].data)
    }

    /** `Texture3D(u, v, w)`: w slabs, each a fresh u-by-v Texture2D of zero cells. */
    constructor (uResolution: nat, vResolution: nat, wResolution: nat)
      ensures Valid() && this.wResolution == wResolution
      ensures columns == uResolution && rowCount == vResolution
      ensures forall i, k :: 0 <= i < wResolution && 0 <= k < vResolution ==> fresh(slabs[i].rows[k].data)
      ensures forall i, k, j :: 0 <= i < wResolution && 0 <= k < vResolution && 0 <= j < uResolution ==>
        slabs[i].rows[k].data[j] == Zero
    {
      var built := NewSlabs(uResolution, vResolution, wResolution);
      this.wResolution := wResolution;
      slabs := built;
      columns := uResolution;
      rowCount := vResolution;
    }

    /** Writing `tex[w][v][u] = value`: only cell u of row v of slab w
        changes; every other row of every slab keeps its cells. */
    method Set(w: nat, v: nat, u: nat, value: Vector3)
      requires Valid() && w < wResolution && v < rowCount && u < columns
      modifies slabs[w].rows[v].data
      ensures slabs[w].rows[v].data[..] == old(slabs[w].rows[v].data[..])[u := value]
      ensures forall i, k :: 0 <= i < wResolution && 0 <= k < rowCount && (i, k) != (w, v) ==>
        slabs[i].rows[k].data[..] == old(slabs[i].rows[k].data[..])
    {
      slabs[w].Set(v, u, value);
    }

    /** `Sample(u, v, w)`: sample the two slabs around w at (u, v) and blend
        them linearly; w = 1 uses the last slab alone. */
    function Sample(u: real, v: real, w: real): (r: Vector3)
      reads SlabArrays(slabs)
      requires Valid() && wResolution >= 1 && rowCount >= 1 && columns >= 1
      requires 0.0 <= u <= 1.0 && 0.0 <= v <= 1.0 && 0.0 <= w <= 1.0
      ensures w == 1.0 ==> r == slabs[wResolution - 1].Sample(u, v)
      ensures wResolution == 1 ==> r == slabs[0].Sample(u, v)
      ensures BetweenVectors(r, slabs[LowerCell(wResolution, w)].Sample(u, v),
                                slabs[UpperCell(wResolution, w)].Sample(u, v))
    {
      var i0 := LowerCell(wResolution, w);
      assert RowArrays(slabs[i0].rows) <= SlabArrays(slabs);
      if i0 == wResolution - 1 then
        slabs[i0].Sample(u, v)
      else
        assert RowArrays(slabs[i0 + 1].rows) <= SlabArrays(slabs);
        LerpVector(slabs[i0].Sample(u, v), slabs[i0 + 1].Sample(u, v), BlendWeight(wResolution, w))
    }

    function IndexToW(index: nat): (r: real)
      requires wResolution > 0
      ensures r * wResolution as real == index as real + 0.5
      ensures index < wResolution ==> 0.0 < r < 1.0
    {
      CellCentre(wResolution, index)
    }

    /** `IndexToV` delegates to slab 0. */
    function IndexToV(index: nat): (r: real)
      requires Valid() && wResolution > 0 && rowCount > 0
      ensures r * rowCount as real == index as real + 0.5
      ensures index < rowCount ==> 0.0 < r < 1.0
    {
      slabs[0].IndexToV(index)
    }

    /** `IndexToU` delegates to slab 0. */
    function IndexToU(index: nat): (r: real)
      requires Valid() && wResolution > 0 && rowCount > 0 && columns > 0
      ensures r * columns as real == index as real + 0.5
      ensures index < columns ==> 0.0 < r < 1.0
    {
      slabs[0].IndexToU(index)
    }

    function GetUResolution(): (r: nat)
      requires Valid() && wResolution > 0 && rowCount > 0
      ensures r == columns
    {
      slabs[0].GetUResolution()
    }

    function GetVResolution(): (r: nat)
      requires Valid() && wResolution > 0
      ensures r == rowCount
    {
      slabs[0].vResolution
    }
  }
}
