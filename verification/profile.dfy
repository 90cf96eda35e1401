/** The initial-profile builder: setConst, setCommonCos, the setCos lambda and
    the tag dispatch of definePhi. */
module Profile {
  import opened Fields
  import opened Outcome

  /** The initial-condition type tag. `Other` stands for any value outside the
      four enumerated families, which the dispatch rejects. */
  datatype Tag = Const | CosX | CosY | CosXCosY | Other(code: int)

  /** The initial conditions: tag, constant vector C, magnitude vector M and the
      mode indices alpha (dimension 1) and beta (dimension 2). */
  datatype InitConditions = InitConditions(tag: Tag, c: Vec3, m: Vec3, alpha: nat, beta: nat)

  /** The trigonometry the cosine profiles use; left uninterpreted. */
  datatype Trig = Trig(pi: real, cos: real -> real) {
    /** The factor cos(pi * mode * coord) of one axis. */
    function CosMode(mode: nat, coord: real): real {
      cos(pi * (mode as real) * coord)
    }
  }

  /** Every entry of component k of `f` is c[k]. */
  predicate Uniform(f: Field, c: Vec3, n1: nat, n2: nat) {
    && Shaped(f, n1, n2)
    && forall k, i, j :: 0 <= k < 3 && 0 <= i < n1 && 0 <= j < n2 ==> f[k][i][j] == c[k]
  }

  /** setConst: a 3 x n1 x n2 field whose component k is the constant c[k]. */
  function SetConst(c: Vec3, n1: nat, n2: nat): (r: Field)
    ensures Uniform(r, c, n1, n2)
  {
    seq(3, k requires 0 <= k < 3 => seq(n1, i => seq(n2, j => c[k])))
  }

  /** A uniform field is determined by its constants: SetConst is the only one. */
  lemma UniformIsSetConst(f: Field, c: Vec3, n1: nat, n2: nat)
    ensures Uniform(f, c, n1, n2) <==> f == SetConst(c, n1, n2)
  {
    if Uniform(f, c, n1, n2) {
      var g := SetConst(c, n1, n2);
      forall k | 0 <= k < 3
        ensures f[k] == g[k]
      {
        forall i | 0 <= i < n1
          ensures f[k][i] == g[k][i]
        {
        }
      }
    }
  }

  /** setCommonCos: component k at node (i, j) is M[k] cos(pi alpha x_i) cos(pi beta y_j). */
  function CommonCos(m: Vec3, alpha: nat, beta: nat, g: Grid, t: Trig): (r: Field)
    requires g.Valid()
    ensures Shaped(r, g.n1, g.n2)
  {
    seq(3, k requires 0 <= k < 3 =>
      seq(g.n1, i requires 0 <= i < g.n1 =>
        seq(g.n2, j requires 0 <= j < g.n2 =>
          m[k] * t.CosMode(alpha, g.x[i]) * t.CosMode(beta, g.y[j]))))
  }

  /** A single-axis cosine profile: with beta = 0 and cos(0) = 1 the value at
      node (i, j) is M[k] cos(pi alpha x_i) and does not vary along dimension 2. */
  lemma CommonCosAlongX(m: Vec3, alpha: nat, g: Grid, t: Trig)
    requires g.Valid()
    requires t.cos(0.0) == 1.0
    ensures var r := CommonCos(m, alpha, 0, g, t);
      forall k, i, j :: 0 <= k < 3 && 0 <= i < g.n1 && 0 <= j < g.n2 ==>
        r[k][i][j] == m[k] * t.CosMode(alpha, g.x[i]) && r[k][i][j] == r[k][i][0]
  {
  }

  /** The other single-axis profile: with alpha = 0 and cos(0) = 1 the value at
      node (i, j) is M[k] cos(pi beta y_j) and does not vary along dimension 1. */
  lemma CommonCosAlongY(m: Vec3, beta: nat, g: Grid, t: Trig)
    requires g.Valid()
    requires t.cos(0.0) == 1.0
    ensures var r := CommonCos(m, 0, beta, g, t);
      forall k, i, j :: 0 <= k < 3 && 0 <= i < g.n1 && 0 <= j < g.n2 ==>
        r[k][i][j] == m[k] * t.CosMode(beta, g.y[j]) && r[k][i][j] == r[k][0][j]
  {
  }

  /** Entrywise sum of two fields of the same shape. */
  function Add(a: Field, b: Field, n1: nat, n2: nat): (r: Field)
    requires Shaped(a, n1, n2) && Shaped(b, n1, n2)
    ensures Shaped(r, n1, n2)
  {
    seq(3, k requires 0 <= k < 3 =>
      seq(n1, i requires 0 <= i < n1 =>
        seq(n2, j requires 0 <= j < n2 => a[k][i][j] + b[k][i][j])))
  }

  /** Adding `b` leaves `a` as it is exactly when `b` is zero at every node. */
  lemma AddIsLeftIffZero(a: Field, b: Field, n1: nat, n2: nat)
    requires Shaped(a, n1, n2) && Shaped(b, n1, n2)
    ensures Add(a, b, n1, n2) == a
        <==> forall k, i, j :: 0 <= k < 3 && 0 <= i < n1 && 0 <= j < n2 ==> b[k][i][j] == 0.0
  {
    var s := Add(a, b, n1, n2);
    if forall k, i, j :: 0 <= k < 3 && 0 <= i < n1 && 0 <= j < n2 ==> b[k][i][j] == 0.0 {
      forall k | 0 <= k < 3
        ensures s[k] == a[k]
      {
        forall i | 0 <= i < n1
          ensures s[k][i] == a[k][i]
        {
        }
      }
    } else {
      var k, i, j :| 0 <= k < 3 && 0 <= i < n1 && 0 <= j < n2 && b[k][i][j] != 0.0;
      assert s[k][i][j] != a[k][i][j];
    }
  }

  /** The sum C + M cos cos that the setCos lambda builds into its local result:
      component k at node (i, j) is the constant c[k] plus the cosine term. */
  function CosSum(c: Vec3, m: Vec3, alpha: nat, beta: nat, g: Grid, t: Trig): (r: Field)
    requires g.Valid()
    ensures Shaped(r, g.n1, g.n2)
    ensures forall k, i, j :: 0 <= k < 3 && 0 <= i < g.n1 && 0 <= j < g.n2 ==>
      r[k][i][j] == c[k] + CommonCos(m, alpha, beta, g, t)[k][i][j]
  {
    Add(SetConst(c, g.n1, g.n2), CommonCos(m, alpha, beta, g, t), g.n1, g.n2)
  }

  /** The setCos lambda as written: it computes CosSum and then returns C. */
  function SetCos(c: Vec3, m: Vec3, alpha: nat, beta: nat, g: Grid, t: Trig): (r: Field)
    requires g.Valid()
    ensures Uniform(r, c, g.n1, g.n2)
  {
    var C := SetConst(c, g.n1, g.n2);
    var res := CosSum(c, m, alpha, beta, g, t);
    C
  }

  /** The profile setCos returns does not depend on the magnitudes, the mode
      indices or the trigonometry. */
  lemma SetCosIgnoresCosineTerm(c: Vec3, m1: Vec3, m2: Vec3, a1: nat, a2: nat, b1: nat, b2: nat,
                                g: Grid, t1: Trig, t2: Trig)
    requires g.Valid()
    ensures SetCos(c, m1, a1, b1, g, t1) == SetCos(c, m2, a2, b2, g, t2)
  {
  }

  /** setCos returns the sum it computes exactly when the cosine term vanishes
      at every node. */
  lemma SetCosIsSumIffCosineVanishes(c: Vec3, m: Vec3, alpha: nat, beta: nat, g: Grid, t: Trig)
    requires g.Valid()
    ensures SetCos(c, m, alpha, beta, g, t) == CosSum(c, m, alpha, beta, g, t)
        <==> forall k, i, j :: 0 <= k < 3 && 0 <= i < g.n1 && 0 <= j < g.n2 ==>
               CommonCos(m, alpha, beta, g, t)[k][i][j] == 0.0
  {
    AddIsLeftIffZero(SetConst(c, g.n1, g.n2), CommonCos(m, alpha, beta, g, t), g.n1, g.n2);
  }

  /** definePhi: dispatch on the tag. The three cosine families go through setCos;
      an unknown tag throws. */
  function DefinePhi(cond: InitConditions, g: Grid, t: Trig): (r: Result<Field>)
    requires g.Valid()
    ensures r.Ok? <==> !cond.tag.Other?
    ensures r.Err? ==> r.error == AlarmDefinePhi
    ensures r.Ok? ==> Uniform(r.value, cond.c, g.n1, g.n2)
  {
    match cond.tag
    case Const => Ok(SetConst(cond.c, g.n1, g.n2))
    case CosX => Ok(SetCos(cond.c, cond.m, cond.alpha, 0, g, t))
    case CosY => Ok(SetCos(cond.c, cond.m, 0, cond.beta, g, t))
    case CosXCosY => Ok(SetCos(cond.c, cond.m, cond.alpha, cond.beta, g, t))
    case Other(_) => Err(AlarmDefinePhi)
  }

  /** Every cosine family yields exactly the constant profile of C. */
  lemma CosinePhiIsConstPhi(cond: InitConditions, g: Grid, t: Trig)
    requires g.Valid()
    requires cond.tag in {CosX, CosY, CosXCosY}
    ensures DefinePhi(cond, g, t) == DefinePhi(cond.(tag := Const), g, t)
    ensures DefinePhi(cond, g, t) == Ok(SetConst(cond.c, g.n1, g.n2))
  {
  }
}
