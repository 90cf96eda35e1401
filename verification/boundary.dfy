/** The boundary enforcer: zero-gradient (second-kind) edge copies applied after
    each splitting phase. */
module Boundary {
  import opened Fields
  import opened Outcome
  import opened LayerStore

  /** Copy rule along one line of length n: the first entry takes the second,
      then the last entry takes the one before it. */
  function CopyEdges<T>(line: seq<T>, n: nat): (r: seq<T>)
    requires |line| == n >= 2
    ensures |r| == n
    ensures r[0] == line[1] && r[n - 1] == r[n - 2]
    ensures forall i :: 1 <= i <= n - 2 ==> r[i] == line[i]
  {
    var first := line[0 := line[1]];
    first[n - 1 := first[n - 2]]
  }

  /** Zero-gradient rows hold in every component: row 0 equals row 1 and row
      n1-1 equals row n1-2. */
  predicate NeumannRows(u: Field, n1: nat, n2: nat) {
    && Shaped(u, n1, n2) && n1 >= 2
    && forall k, j :: 0 <= k < 3 && 0 <= j < n2 ==>
      u[k][0][j] == u[k][1][j] && u[k][n1 - 1][j] == u[k][n1 - 2][j]
  }

  /** Zero-gradient columns hold in every component: column 0 equals column 1
      and column n2-1 equals column n2-2. */
  predicate NeumannCols(u: Field, n1: nat, n2: nat) {
    && Shaped(u, n1, n2) && n2 >= 2
    && forall k, i :: 0 <= k < 3 && 0 <= i < n1 ==>
      u[k][i][0] == u[k][i][1] && u[k][i][n2 - 1] == u[k][i][n2 - 2]
  }

  /** defineBorderCondPhase1: the dimension-1 edge rows of one field. */
  function BorderPhase1(u: Field, n1: nat, n2: nat): (r: Field)
    requires Shaped(u, n1, n2) && n1 >= 2
    ensures Shaped(r, n1, n2)
    ensures NeumannRows(r, n1, n2)
    ensures forall k :: 0 <= k < 3 ==> r[k][0] == u[k][1]
    ensures forall k, i :: 0 <= k < 3 && 1 <= i <= n1 - 2 ==> r[k][i] == u[k][i]
  {
    seq(3, k requires 0 <= k < 3 => CopyEdges(u[k], n1))
  }

  /** defineBorderCondPhase2: the dimension-2 edge columns of one field. */
  function BorderPhase2(u: Field, n1: nat, n2: nat): (r: Field)
    requires Shaped(u, n1, n2) && n2 >= 2
    ensures Shaped(r, n1, n2)
    ensures NeumannCols(r, n1, n2)
    ensures forall k, i :: 0 <= k < 3 && 0 <= i < n1 ==> r[k][i][0] == u[k][i][1]
    ensures forall k, i, j :: 0 <= k < 3 && 0 <= i < n1 && 1 <= j <= n2 - 2 ==> r[k][i][j] == u[k][i][j]
  {
    seq(3, k requires 0 <= k < 3 =>
      seq(n1, i requires 0 <= i < n1 => CopyEdges(u[k][i], n2)))
  }

  /** The dimension-1 rule changes exactly what it must: its fixed points are
      the fields whose edge rows already satisfy the zero-gradient condition. */
  lemma BorderPhase1FixedPoints(u: Field, n1: nat, n2: nat)
    requires Shaped(u, n1, n2) && n1 >= 2
    ensures BorderPhase1(u, n1, n2) == u <==> NeumannRows(u, n1, n2)
  {
    var r := BorderPhase1(u, n1, n2);
    if NeumannRows(u, n1, n2) {
      forall k | 0 <= k < 3
        ensures r[k] == u[k]
      {
        forall i | 0 <= i < n1
          ensures r[k][i] == u[k][i]
        {
          forall j | 0 <= j < n2
            ensures r[k][i][j] == u[k][i][j]
          {
            assert u[k][0][j] == u[k][1][j] && u[k][n1 - 1][j] == u[k][n1 - 2][j];
            if i == 0 {
              assert r[k][0] == u[k][1];
            } else if i == n1 - 1 {
              assert r[k][n1 - 1][j] == r[k][n1 - 2][j];
              if n1 == 2 {
                assert r[k][0] == u[k][1];
              } else {
                assert r[k][n1 - 2] == u[k][n1 - 2];
              }
            }
          }
        }
      }
    }
  }

  /** The dimension-2 rule's fixed points are the fields whose edge columns
      already satisfy the zero-gradient condition. */
  lemma BorderPhase2FixedPoints(u: Field, n1: nat, n2: nat)
    requires Shaped(u, n1, n2) && n2 >= 2
    ensures BorderPhase2(u, n1, n2) == u <==> NeumannCols(u, n1, n2)
  {
    var r := BorderPhase2(u, n1, n2);
    if NeumannCols(u, n1, n2) {
      forall k | 0 <= k < 3
        ensures r[k] == u[k]
      {
        forall i | 0 <= i < n1
          ensures r[k][i] == u[k][i]
        {
          forall j | 0 <= j < n2
            ensures r[k][i][j] == u[k][i][j]
          {
            if j == 0 {
              assert r[k][i][0] == u[k][i][1];
            } else if j == n2 - 1 {
              assert r[k][i][n2 - 1] == r[k][i][n2 - 2];
            }
          }
        }
      }
    }
  }

  /** The row rule is idempotent: applying it twice equals applying it once. */
  lemma BorderPhase1Idempotent(u: Field, n1: nat, n2: nat)
    requires Shaped(u, n1, n2) && n1 >= 2
    ensures BorderPhase1(BorderPhase1(u, n1, n2), n1, n2) == BorderPhase1(u, n1, n2)
  {
    BorderPhase1FixedPoints(BorderPhase1(u, n1, n2), n1, n2);
  }

  /** The column rule is idempotent: applying it twice equals applying it once. */
  lemma BorderPhase2Idempotent(u: Field, n1: nat, n2: nat)
    requires Shaped(u, n1, n2) && n2 >= 2
    ensures BorderPhase2(BorderPhase2(u, n1, n2), n1, n2) == BorderPhase2(u, n1, n2)
  {
    BorderPhase2FixedPoints(BorderPhase2(u, n1, n2), n1, n2);
  }

  /** defineBorderCond: phase 0 fixes the rows of uMid, phase 1 the columns of
      uTop, any other phase throws. */
  function DefineBorderCond(L: Layers, phase: nat, n1: nat, n2: nat): (r: Result<Layers>)
    requires L.Valid(n1, n2)
    requires phase == 0 ==> n1 >= 2
    requires phase == 1 ==> n2 >= 2
    ensures r.Ok? <==> phase < 2
    ensures r.Err? ==> r.error == AlarmDefineBorderCond
    ensures r.Ok? ==> r.value.Valid(n1, n2)
    ensures phase == 0 ==>
      && r.value.low == L.low && r.value.top == L.top
      && NeumannRows(r.value.mid, n1, n2)
      && (forall k :: 0 <= k < 3 ==> r.value.mid[k][0] == L.mid[k][1])
      && forall k, i :: 0 <= k < 3 && 1 <= i <= n1 - 2 ==> r.value.mid[k][i] == L.mid[k][i]
    ensures phase == 1 ==>
      && r.value.low == L.low && r.value.mid == L.mid
      && NeumannCols(r.value.top, n1, n2)
      && (forall k, i :: 0 <= k < 3 && 0 <= i < n1 ==> r.value.top[k][i][0] == L.top[k][i][1])
      && forall k, i, j :: 0 <= k < 3 && 0 <= i < n1 && 1 <= j <= n2 - 2 ==>
           r.value.top[k][i][j] == L.top[k][i][j]
  {
    if phase == 0 then
      Ok(L.(mid := BorderPhase1(L.mid, n1, n2)))
    else if phase == 1 then
      Ok(L.(top := BorderPhase2(L.top, n1, n2)))
    else
      Err(AlarmDefineBorderCond)
  }

  /** The loop of defineBorderCondPhase1 for one component: for each column j,
      copy row 1 into row 0, then row n1-2 into row n1-1. */
  method FixRowsLoop(m: Matrix, n1: nat, n2: nat) returns (r: Matrix)
    requires IsMatrix(m, n1, n2) && n1 >= 2
    ensures r == CopyEdges(m, n1)
  {
    ghost var want := CopyEdges(m, n1);
    r := m;
    for j := 0 to n2
      invariant IsMatrix(r, n1, n2)
      invariant forall i, jj :: 0 <= i < n1 && 0 <= jj < n2 ==>
        r[i][jj] == (if jj < j then want[i][jj] else m[i][jj])
    {
      r := r[0 := r[0][j := r[1][j]]];
      r := r[n1 - 1 := r[n1 - 1][j := r[n1 - 2][j]]];
    }
    forall i | 0 <= i < n1
      ensures r[i] == want[i]
    {
    }
  }

  /** defineBorderCondPhase1 as the source loops it: over components, then columns. */
  method EnforcePhase1(u: Field, n1: nat, n2: nat) returns (v: Field)
    requires Shaped(u, n1, n2) && n1 >= 2
    ensures v == BorderPhase1(u, n1, n2)
  {
    v := u;
    for k := 0 to 3
      invariant |v| == 3
      invariant forall kk :: 0 <= kk < k ==> v[kk] == CopyEdges(u[kk], n1)
      invariant forall kk :: k <= kk < 3 ==> v[kk] == u[kk]
    {
      var row := FixRowsLoop(v[k], n1, n2);
      v := v[k := row];
    }
  }

  /** The loop of defineBorderCondPhase2 for one component: for each row i,
      copy column 1 into column 0, then column n2-2 into column n2-1. */
  method FixColsLoop(m: Matrix, n1: nat, n2: nat) returns (r: Matrix)
    requires IsMatrix(m, n1, n2) && n2 >= 2
    ensures |r| == n1
    ensures forall i :: 0 <= i < n1 ==> r[i] == CopyEdges(m[i], n2)
  {
    r := m;
    for i := 0 to n1
      invariant |r| == n1
      invariant forall ii :: 0 <= ii < i ==> r[ii] == CopyEdges(m[ii], n2)
      invariant forall ii :: i <= ii < n1 ==> r[ii] == m[ii]
    {
      var line := r[i];
      line := line[0 := line[1]];
      line := line[n2 - 1 := line[n2 - 2]];
      r := r[i := line];
    }
  }

  /** defineBorderCondPhase2 as the source loops it: over components, then rows. */
  method EnforcePhase2(u: Field, n1: nat, n2: nat) returns (v: Field)
    requires Shaped(u, n1, n2) && n2 >= 2
    ensures v == BorderPhase2(u, n1, n2)
  {
    ghost var want := BorderPhase2(u, n1, n2);
    v := u;
    for k := 0 to 3
      invariant |v| == 3
      invariant forall kk :: 0 <= kk < k ==> v[kk] == want[kk]
      invariant forall kk :: k <= kk < 3 ==> v[kk] == u[kk]
    {
      var m := FixColsLoop(v[k], n1, n2);
      assert m == want[k];
      v := v[k := m];
    }
  }
}
