/** Grid geometry and the shape of the three-component fields the driver stores. */
module Fields {

  /** Index of one of the three coupled field components. */
  type Component = k: nat | k < 3

  /** One parameter per component (the constant vector C, the magnitude vector M,
      the result of the comparison probe). */
  type Vec3 = v: seq<real> | |v| == 3 witness [0.0, 0.0, 0.0]

  /** The values of one component on the grid: m[i][j] at node (x_i, y_j). */
  type Matrix = seq<seq<real>>

  /** A full field: f[k][i][j] for component k at node (i, j). */
  type Field = seq<Matrix>

  /** Grid sizes (grid[0], grid[1], grid[2] in the driver) and node coordinates. */
  datatype Grid = Grid(n1: nat, n2: nat, nt: nat, x: seq<real>, y: seq<real>) {

    /** The node coordinate sequences are sized to the grid. */
    predicate Valid() {
      |x| == n1 && |y| == n2
    }
  }

  predicate IsMatrix(m: Matrix, n1: nat, n2: nat) {
    |m| == n1 && forall i :: 0 <= i < n1 ==> |m[i]| == n2
  }

  /** Exactly three components, each n1 x n2. */
  predicate Shaped(f: Field, n1: nat, n2: nat) {
    |f| == 3 && forall k :: 0 <= k < 3 ==> IsMatrix(f[k], n1, n2)
  }
}
