/** The comparison probe: per component, the largest signed difference
    uTop - uLow over all nodes, floored at 0. */
module Probe {
  import opened Fields
  import opened LayerStore

  /** fmax on non-NaN operands. */
  function Max(a: real, b: real): (r: real)
    ensures r >= a && r >= b
    ensures r == a || r == b
  {
    if a >= b then a else b
  }

  /** The signed difference uTop - uLow of component k at node (i, j). */
  function Diff(L: Layers, n1: nat, n2: nat, k: nat, i: nat, j: nat): real
    requires L.Valid(n1, n2) && k < 3 && i < n1 && j < n2
  {
    L.top[k][i][j] - L.low[k][i][j]
  }

  /** `v` is the maximum of 0 and every difference of component k. */
  predicate IsMaxDiff(L: Layers, n1: nat, n2: nat, k: nat, v: real)
    requires L.Valid(n1, n2) && k < 3
  {
    && v >= 0.0
    && (forall i, j :: 0 <= i < n1 && 0 <= j < n2 ==> v >= Diff(L, n1, n2, k, i, j))
    && (v == 0.0 || exists i, j :: 0 <= i < n1 && 0 <= j < n2 && v == Diff(L, n1, n2, k, i, j))
  }

  /** `res` is what compare returns for the layers: one maximum per component. */
  predicate IsProbe(L: Layers, n1: nat, n2: nat, res: seq<real>)
    requires L.Valid(n1, n2)
  {
    |res| == 3 && forall k :: 0 <= k < 3 ==> IsMaxDiff(L, n1, n2, k, res[k])
  }

  /** The inner two loops of compare for one component. */
  method MaxDiff(L: Layers, n1: nat, n2: nat, k: nat) returns (acc: real)
    requires L.Valid(n1, n2) && k < 3
    ensures IsMaxDiff(L, n1, n2, k, acc)
  {
    acc := 0.0;
    for i := 0 to n1
      invariant acc >= 0.0
      invariant forall ii, jj :: 0 <= ii < i && 0 <= jj < n2 ==> acc >= Diff(L, n1, n2, k, ii, jj)
      invariant acc == 0.0 || exists ii, jj :: 0 <= ii < i && 0 <= jj < n2 && acc == Diff(L, n1, n2, k, ii, jj)
    {
      for j := 0 to n2
        invariant acc >= 0.0
        invariant forall ii, jj :: 0 <= ii < i && 0 <= jj < n2 ==> acc >= Diff(L, n1, n2, k, ii, jj)
        invariant forall jj :: 0 <= jj < j ==> acc >= Diff(L, n1, n2, k, i, jj)
        invariant acc == 0.0 || exists ii, jj :: 0 <= ii <= i && 0 <= jj < n2 && acc == Diff(L, n1, n2, k, ii, jj)
      {
        acc := Max(Diff(L, n1, n2, k, i, j), acc);
      }
    }
  }

  /** compare: one maximum per component. */
  method Compare(L: Layers, n1: nat, n2: nat) returns (res: Vec3)
    requires L.Valid(n1, n2)
    ensures IsProbe(L, n1, n2, res)
  {
    res := [0.0, 0.0, 0.0];
    for k := 0 to 3
      invariant forall kk :: 0 <= kk < k ==> IsMaxDiff(L, n1, n2, kk, res[kk])
    {
      var m := MaxDiff(L, n1, n2, k);
      res := res[k := m];
    }
  }

  /** The probe's result is determined by the layers. */
  lemma ProbeUnique(L: Layers, n1: nat, n2: nat, r1: seq<real>, r2: seq<real>)
    requires L.Valid(n1, n2)
    requires IsProbe(L, n1, n2, r1) && IsProbe(L, n1, n2, r2)
    ensures r1 == r2
  {
  }

  /** The probe is a signed maximum, not an absolute one: it reads 0 exactly
      when no node of the component increased from uLow to uTop. */
  lemma ProbeZeroIffNoIncrease(L: Layers, n1: nat, n2: nat, res: seq<real>, k: nat)
    requires L.Valid(n1, n2) && k < 3
    requires IsProbe(L, n1, n2, res)
    ensures res[k] == 0.0 <==>
      forall i, j :: 0 <= i < n1 && 0 <= j < n2 ==> L.top[k][i][j] <= L.low[k][i][j]
  {
    assert IsMaxDiff(L, n1, n2, k, res[k]);
    if res[k] != 0.0 {
      var i, j :| 0 <= i < n1 && 0 <= j < n2 && res[k] == Diff(L, n1, n2, k, i, j);
      assert L.top[k][i][j] > L.low[k][i][j];
    } else {
      forall i, j | 0 <= i < n1 && 0 <= j < n2
        ensures L.top[k][i][j] <= L.low[k][i][j]
      {
        assert res[k] >= Diff(L, n1, n2, k, i, j);
      }
    }
  }

  /** Right after defineInitCond, compare reads 0 in every component. */
  lemma ProbeAfterInit(phi: Field, n1: nat, n2: nat, res: seq<real>)
    requires Shaped(phi, n1, n2)
    ensures IsProbe(DefineInitCond(phi), n1, n2, res) <==> res == [0.0, 0.0, 0.0]
  {
  }

  /** Right after a rotation, compare reads 0 in every component. */
  lemma ProbeAfterRotate(L: Layers, n1: nat, n2: nat, res: seq<real>)
    requires L.Valid(n1, n2)
    ensures IsProbe(Rotate(L), n1, n2, res) <==> res == [0.0, 0.0, 0.0]
  {
  }
}
