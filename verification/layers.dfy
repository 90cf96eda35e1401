/** The triple-buffered layer store: uLow (start of step), uMid (after the
    dimension-1 phase) and uTop (after the dimension-2 phase). */
module LayerStore {
  import opened Fields

  datatype Layers = Layers(low: Field, mid: Field, top: Field) {

    /** All three buffers are sized to the grid. */
    predicate Valid(n1: nat, n2: nat) {
      Shaped(low, n1, n2) && Shaped(mid, n1, n2) && Shaped(top, n1, n2)
    }
  }

  /** defineInitCond: layer 0 of every buffer is the initial profile, so the
      store is grid-sized exactly when phi is. */
  function DefineInitCond(phi: Field): (r: Layers)
    ensures r.low == phi && r.mid == phi && r.top == phi
    ensures forall n1: nat, n2: nat :: r.Valid(n1, n2) <==> Shaped(phi, n1, n2)
  {
    Layers(phi, phi, phi)
  }

  /** End of a time step: uLow takes the value of uTop; uMid and uTop stay,
      and a grid-sized store stays grid-sized. */
  function Rotate(L: Layers): (r: Layers)
    ensures r.low == L.top && r.mid == L.mid && r.top == L.top
    ensures forall n1: nat, n2: nat :: L.Valid(n1, n2) ==> r.Valid(n1, n2)
  {
    L.(low := L.top)
  }
}
