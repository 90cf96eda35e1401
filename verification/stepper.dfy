/** The control skeleton of execute: initialise the layers from phi, then for
    every time layer s < grid[2] write uLow, run the two splitting phases
    (source term, sweep coefficients, line sweep, boundary rule), write uMid
    and rotate. The numerical collaborators are uninterpreted. */
module Stepper {
  import opened Fields
  import opened LayerStore
  import opened Boundary
  import opened Profile

  /** The steps execute performs, in the order they can occur. */
  datatype Op =
    | WriteMain                    // fwrite(uLow, s, MAIN_LAYER)
    | DefineF(phase: nat)          // source term of the phase
    | DefineLayersParams(phase: nat)  // sweep coefficients of the phase
    | Sweep(phase: nat)            // line solves: writes uMid (phase 0) or uTop (phase 1)
    | Border(phase: nat)           // defineBorderCond(phase)
    | WriteHalf                    // fwrite(uMid, s, HALF_LAYER)
    | RotateLayers                 // uLow = uTop

  /** One step of the run: the time layer it belongs to, what it does, and the
      layers as they stand when it starts. */
  datatype Event = Event(s: nat, op: Op, seen: Layers)

  /** The operations of one time layer, in order. */
  const StepOps: seq<Op> := [
    WriteMain,
    DefineF(0), DefineLayersParams(0), Sweep(0), Border(0),
    DefineF(1), DefineLayersParams(1), Sweep(1), Border(1),
    WriteHalf, RotateLayers
  ]

  /** The collaborators of a phase, as one function of the phase and the layers:
      defineF and defineLayersParams read the layers, and the sweep produces the
      new uMid (phase 0) or uTop (phase 1). */
  type Solver = (nat, Layers) -> Field

  /** The sweep writes a field of the grid's shape. */
  ghost predicate ShapePreserving(solve: Solver, n1: nat, n2: nat) {
    forall p: nat, L: Layers :: L.Valid(n1, n2) ==> Shaped(solve(p, L), n1, n2)
  }

  /** Grid sizes the boundary rules can work on. */
  ghost predicate Runnable(solve: Solver, n1: nat, n2: nat) {
    n1 >= 2 && n2 >= 2 && ShapePreserving(solve, n1, n2)
  }

  /** One pass of the inner loop of execute for the given phase. */
  function Phase(s: nat, phase: nat, L: Layers, solve: Solver, n1: nat, n2: nat): (r: (seq<Event>, Layers))
    requires phase < 2 && L.Valid(n1, n2) && Runnable(solve, n1, n2)
    ensures r.1.Valid(n1, n2)
    ensures |r.0| == 4
    ensures forall i :: 0 <= i < 4 ==> r.0[i].s == s && r.0[i].op == StepOps[1 + 4 * phase + i]
    ensures r.0[0].seen == L && r.0[1].seen == L && r.0[2].seen == L
    ensures phase == 0 ==> r.0[3].seen == L.(mid := solve(0, L))
    ensures phase == 1 ==> r.0[3].seen == L.(top := solve(1, L))
    ensures forall i :: 0 <= i < 4 ==> r.0[i].seen.Valid(n1, n2)
    ensures phase == 0 ==> r.1.low == L.low && r.1.top == L.top && NeumannRows(r.1.mid, n1, n2)
    ensures phase == 1 ==> r.1.low == L.low && r.1.mid == L.mid && NeumannCols(r.1.top, n1, n2)
    ensures phase == 0 ==> r.1.mid == BorderPhase1(solve(0, L), n1, n2)
    ensures phase == 1 ==> r.1.top == BorderPhase2(solve(1, L), n1, n2)
  {
    var solved := if phase == 0 then L.(mid := solve(0, L)) else L.(top := solve(1, L));
    var fixed := DefineBorderCond(solved, phase, n1, n2).value;
    ([Event(s, DefineF(phase), L), Event(s, DefineLayersParams(phase), L),
      Event(s, Sweep(phase), L), Event(s, Border(phase), solved)],
     fixed)
  }

  /** The events of one time layer s: the operations of StepOps in order,
      each recording the layers as they stand when it runs. Phase 0's
      defineF, coefficients and sweep see the layers the block started from,
      its border step sees uMid replaced by the sweep's output, and the rule
      leaves uMid as the row rule applied to that output. Phase 1 does the
      same with uTop and the column rule, starting from phase 0's result. So
      at the half-layer write uMid satisfies the row rule and uTop the column
      rule, and the rotation sees exactly those layers. */
  predicate StepBlock(block: seq<Event>, s: nat, solve: Solver, n1: nat, n2: nat) {
    && |block| == |StepOps|
    && (forall i :: 0 <= i < |StepOps| ==> block[i].s == s && block[i].op == StepOps[i])
    // phase 0
    && block[1].seen == block[0].seen && block[2].seen == block[0].seen && block[3].seen == block[0].seen
    && block[4].seen == block[0].seen.(mid := solve(0, block[0].seen))
    && block[5].seen.low == block[0].seen.low && block[5].seen.top == block[0].seen.top
    && Shaped(solve(0, block[0].seen), n1, n2) && n1 >= 2
    && block[5].seen.mid == BorderPhase1(solve(0, block[0].seen), n1, n2)
    // phase 1
    && block[6].seen == block[5].seen && block[7].seen == block[5].seen
    && block[8].seen == block[5].seen.(top := solve(1, block[5].seen))
    && block[9].seen.low == block[5].seen.low && block[9].seen.mid == block[5].seen.mid
    && Shaped(solve(1, block[5].seen), n1, n2) && n2 >= 2
    && block[9].seen.top == BorderPhase2(solve(1, block[5].seen), n1, n2)
    // half-layer write and rotation
    && block[10].seen == block[9].seen
    && NeumannRows(block[5].seen.mid, n1, n2)
    && NeumannRows(block[9].seen.mid, n1, n2)
    && NeumannCols(block[9].seen.top, n1, n2)
  }

  /** What one iteration of the outer loop does, started from layers L and
      returning its events and the layers it leaves: the events form the
      block of layer s; uLow is written first, as it stood at the start; and
      the iteration ends by rotating, so that the new uLow is the uTop it
      produced. */
  predicate IsStep(s: nat, L: Layers, r: (seq<Event>, Layers), solve: Solver, n1: nat, n2: nat) {
    && StepBlock(r.0, s, solve, n1, n2)
    && r.0[0].seen == L
    && r.1 == Rotate(r.0[10].seen)
    && r.1.Valid(n1, n2)
  }

  /** One iteration of the outer loop of execute, for time layer s. */
  function Step(s: nat, L: Layers, solve: Solver, n1: nat, n2: nat): (r: (seq<Event>, Layers))
    requires L.Valid(n1, n2) && Runnable(solve, n1, n2)
    ensures IsStep(s, L, r, solve, n1, n2)
  {
    var (e0, L0) := Phase(s, 0, L, solve, n1, n2);
    var (e1, L1) := Phase(s, 1, L0, solve, n1, n2);
    ([Event(s, WriteMain, L)] + e0 + e1 + [Event(s, WriteHalf, L1), Event(s, RotateLayers, L1)],
     Rotate(L1))
  }

  /** A time step as the outer loop sees it: the events it emits and the layers
      it leaves behind. */
  type StepFn = (nat, Layers) --> (seq<Event>, Layers)

  /** What the outer loop itself needs of its step: it accepts grid-sized
      layers, emits one block of events and leaves grid-sized, rotated layers. */
  ghost predicate Closed(step: StepFn, n1: nat, n2: nat) {
    forall s: nat, L: Layers :: L.Valid(n1, n2) ==>
      && step.requires(s, L)
      && |step(s, L).0| == |StepOps|
      && step(s, L).1.Valid(n1, n2)
      && step(s, L).1.low == step(s, L).1.top
  }

  /** The step accepts grid-sized layers and behaves as IsStep says for the
      given solver. */
  ghost predicate WellBehaved(step: StepFn, solve: Solver, n1: nat, n2: nat) {
    && Closed(step, n1, n2)
    && forall s: nat, L: Layers :: L.Valid(n1, n2) ==> IsStep(s, L, step(s, L), solve, n1, n2)
  }

  /** The step execute performs, for a fixed solver and grid. */
  function StepOf(solve: Solver, n1: nat, n2: nat): (step: StepFn)
    requires Runnable(solve, n1, n2)
    ensures WellBehaved(step, solve, n1, n2)
  {
    (s: nat, L: Layers) requires L.Valid(n1, n2) => Step(s, L, solve, n1, n2)
  }

  /** Time layers s .. s+count-1 of the outer loop. */
  function Run(s: nat, count: nat, L: Layers, step: StepFn, n1: nat, n2: nat): (r: (seq<Event>, Layers))
    requires L.Valid(n1, n2) && Closed(step, n1, n2)
    ensures r.1.Valid(n1, n2)
    ensures |r.0| == 11 * count
    ensures count == 0 ==> r.1 == L
    ensures count > 0 ==> r.1.low == r.1.top
    decreases count
  {
    if count == 0 then
      ([], L)
    else
      var first := step(s, L);
      var rest := Run(s + 1, count - 1, first.1, step, n1, n2);
      (first.0 + rest.0, rest.1)
  }

  /** execute: initialise the layers from phi and run grid[2] time layers. */
  function Execute(phi: Field, g: Grid, solve: Solver): (r: (seq<Event>, Layers))
    requires Shaped(phi, g.n1, g.n2) && Runnable(solve, g.n1, g.n2)
    ensures |r.0| == 11 * g.nt
    ensures g.nt == 0 ==> r.1 == Layers(phi, phi, phi)
    ensures g.nt > 0 ==> r.1.low == r.1.top
  {
    Run(0, g.nt, DefineInitCond(phi), StepOf(solve, g.n1, g.n2), g.n1, g.n2)
  }

  /** Running count layers splits into the first t and the remaining count - t. */
  lemma {:induction false} RunSplit(s: nat, count: nat, t: nat, L: Layers, step: StepFn, n1: nat, n2: nat)
    requires L.Valid(n1, n2) && Closed(step, n1, n2) && t <= count
    ensures Run(s, count, L, step, n1, n2).0
        == Run(s, t, L, step, n1, n2).0
           + Run(s + t, count - t, Run(s, t, L, step, n1, n2).1, step, n1, n2).0
    ensures Run(s, count, L, step, n1, n2).1
        == Run(s + t, count - t, Run(s, t, L, step, n1, n2).1, step, n1, n2).1
    decreases t
  {
    if t > 0 {
      var first := step(s, L);
      var whole := Run(s, count, L, step, n1, n2);
      var later := Run(s + 1, count - 1, first.1, step, n1, n2);
      var prefix := Run(s, t, L, step, n1, n2);
      var head := Run(s + 1, t - 1, first.1, step, n1, n2);
      assert whole == (first.0 + later.0, later.1);
      assert prefix == (first.0 + head.0, head.1);
      RunSplit(s + 1, count - 1, t - 1, first.1, step, n1, n2);
      var tail := Run(s + t, count - t, head.1, step, n1, n2);
      assert later == (head.0 + tail.0, tail.1);
      assert whole.0 == first.0 + (head.0 + tail.0);
    }
  }

  /** Block t of the trace is exactly the events of step s + t, started from the
      layers left by the t steps before it; the steps after it start from the
      layers it leaves. */
  lemma RunBlock(s: nat, count: nat, t: nat, L: Layers, step: StepFn, n1: nat, n2: nat)
    requires L.Valid(n1, n2) && Closed(step, n1, n2) && t < count
    ensures Run(s, count, L, step, n1, n2).0[11 * t .. 11 * (t + 1)]
         == step(s + t, Run(s, t, L, step, n1, n2).1).0
    ensures Run(s, t + 1, L, step, n1, n2).1 == step(s + t, Run(s, t, L, step, n1, n2).1).1
  {
    var before := Run(s, t, L, step, n1, n2);
    RunSplit(s, count, t, L, step, n1, n2);
    RunSplit(s, t + 1, t, L, step, n1, n2);
    var rest := Run(s + t, count - t, before.1, step, n1, n2).0;
    assert rest[..11] == step(s + t, before.1).0;
  }

  /** Every block of the trace is one step's events: block t is the block of
      time layer s + t. */
  lemma RunSchedule(s: nat, count: nat, L: Layers, step: StepFn, solve: Solver, n1: nat, n2: nat, t: nat)
    requires L.Valid(n1, n2) && WellBehaved(step, solve, n1, n2) && t < count
    ensures StepBlock(Run(s, count, L, step, n1, n2).0[11 * t .. 11 * (t + 1)], s + t, solve, n1, n2)
  {
    var before := Run(s, t, L, step, n1, n2).1;
    RunBlock(s, count, t, L, step, n1, n2);
    assert IsStep(s + t, before, step(s + t, before), solve, n1, n2);
  }

  /** The first event of the trace writes the starting layers' uLow. */
  lemma RunStart(s: nat, count: nat, L: Layers, step: StepFn, solve: Solver, n1: nat, n2: nat)
    requires L.Valid(n1, n2) && WellBehaved(step, solve, n1, n2) && 0 < count
    ensures Run(s, count, L, step, n1, n2).0[0] == Event(s, WriteMain, L)
  {
    var trace := Run(s, count, L, step, n1, n2).0;
    RunBlock(s, count, 0, L, step, n1, n2);
    assert IsStep(s, L, step(s, L), solve, n1, n2);
    assert trace[0] == trace[0 .. 11][0];
  }

  /** Block t + 1 starts from the layers of block t's half-layer write with
      uLow replaced by uTop: its uLow is the uTop that block t's phase 1
      produced, and uMid and uTop carry over unchanged. */
  lemma RunRotation(s: nat, count: nat, L: Layers, step: StepFn, solve: Solver, n1: nat, n2: nat, t: nat)
    requires L.Valid(n1, n2) && WellBehaved(step, solve, n1, n2) && t + 1 < count
    ensures var trace := Run(s, count, L, step, n1, n2).0;
      trace[11 * (t + 1)].seen == trace[11 * t + 9].seen.(low := trace[11 * t + 9].seen.top)
  {
    var trace := Run(s, count, L, step, n1, n2).0;
    var before := Run(s, t, L, step, n1, n2).1;
    var after := Run(s, t + 1, L, step, n1, n2).1;
    RunBlock(s, count, t, L, step, n1, n2);
    RunBlock(s, count, t + 1, L, step, n1, n2);
    assert IsStep(s + t, before, step(s + t, before), solve, n1, n2);
    assert IsStep(s + t + 1, after, step(s + t + 1, after), solve, n1, n2);
    assert trace[11 * t + 9] == trace[11 * t .. 11 * (t + 1)][9];
    assert trace[11 * t + 10] == trace[11 * t .. 11 * (t + 1)][10];
    assert trace[11 * (t + 1)] == trace[11 * (t + 1) .. 11 * (t + 2)][0];
  }

  /** The schedule of execute: grid[2] blocks of eleven events, and block t
      is the block of time layer t (StepBlock): it performs StepOps in order,
      phase 0 sets uMid to the row rule applied to the sweep's output, phase 1
      starts from that uMid and sets uTop to the column rule applied to the
      sweep's output, and at the half-layer write uMid satisfies the row rule
      and uTop the column rule. */
  lemma ExecuteSchedule(phi: Field, g: Grid, solve: Solver, t: nat)
    requires Shaped(phi, g.n1, g.n2) && Runnable(solve, g.n1, g.n2) && t < g.nt
    ensures StepBlock(Execute(phi, g, solve).0[11 * t .. 11 * (t + 1)], t, solve, g.n1, g.n2)
  {
    var L := DefineInitCond(phi);
    var step := StepOf(solve, g.n1, g.n2);
    assert Execute(phi, g, solve).0 == Run(0, g.nt, L, step, g.n1, g.n2).0;
    RunSchedule(0, g.nt, L, step, solve, g.n1, g.n2, t);
  }

  /** execute starts from phi: its first event writes uLow while all three
      layers equal phi. */
  lemma ExecuteStartsFromPhi(phi: Field, g: Grid, solve: Solver)
    requires Shaped(phi, g.n1, g.n2) && Runnable(solve, g.n1, g.n2) && 0 < g.nt
    ensures Execute(phi, g, solve).0[0] == Event(0, WriteMain, Layers(phi, phi, phi))
  {
    var L := DefineInitCond(phi);
    var step := StepOf(solve, g.n1, g.n2);
    assert Execute(phi, g, solve).0 == Run(0, g.nt, L, step, g.n1, g.n2).0;
    RunStart(0, g.nt, L, step, solve, g.n1, g.n2);
  }

  /** Rotation in execute: layer t + 1 starts from the layers of layer t's
      half-layer write (event 11t + 9) with uLow replaced by uTop; uMid and
      uTop carry over unchanged. */
  lemma ExecuteRotation(phi: Field, g: Grid, solve: Solver, t: nat)
    requires Shaped(phi, g.n1, g.n2) && Runnable(solve, g.n1, g.n2) && t + 1 < g.nt
    ensures var trace := Execute(phi, g, solve).0;
      trace[11 * (t + 1)].seen == trace[11 * t + 9].seen.(low := trace[11 * t + 9].seen.top)
  {
    var L := DefineInitCond(phi);
    var step := StepOf(solve, g.n1, g.n2);
    assert Execute(phi, g, solve).0 == Run(0, g.nt, L, step, g.n1, g.n2).0;
    RunRotation(0, g.nt, L, step, solve, g.n1, g.n2, t);
  }

  /** The layers execute leaves are those of the last time layer's half-layer
      write, rotated: uLow takes uTop, and uMid and uTop are what the last
      layer's two phases produced. */
  lemma ExecuteFinal(phi: Field, g: Grid, solve: Solver)
    requires Shaped(phi, g.n1, g.n2) && Runnable(solve, g.n1, g.n2) && 0 < g.nt
    ensures var r := Execute(phi, g, solve);
      r.1 == r.0[11 * g.nt - 2].seen.(low := r.0[11 * g.nt - 2].seen.top)
  {
    var L := DefineInitCond(phi);
    var step := StepOf(solve, g.n1, g.n2);
    var t := g.nt - 1;
    var trace := Run(0, g.nt, L, step, g.n1, g.n2).0;
    var before := Run(0, t, L, step, g.n1, g.n2).1;
    assert Execute(phi, g, solve) == Run(0, g.nt, L, step, g.n1, g.n2);
    RunBlock(0, g.nt, t, L, step, g.n1, g.n2);
    assert IsStep(t, before, step(t, before), solve, g.n1, g.n2);
    assert trace[11 * t + 9] == trace[11 * t .. 11 * (t + 1)][9];
  }

  /** The identity sweep: phase 0 leaves uMid and phase 1 leaves uTop as they are. */
  function KeepSolver(): Solver {
    (p: nat, L: Layers) => if p == 0 then L.mid else L.top
  }

  /** With the identity sweep, three equal layers whose edges already satisfy
      both zero-gradient rules are left unchanged by a time step. */
  lemma SteadyStep(s: nat, u: Field, n1: nat, n2: nat)
    requires NeumannRows(u, n1, n2) && NeumannCols(u, n1, n2)
    ensures Runnable(KeepSolver(), n1, n2)
    ensures StepOf(KeepSolver(), n1, n2)(s, Layers(u, u, u)).1 == Layers(u, u, u)
  {
    BorderPhase1FixedPoints(u, n1, n2);
    BorderPhase2FixedPoints(u, n1, n2);
    var L := Layers(u, u, u);
    assert StepOf(KeepSolver(), n1, n2)(s, L) == Step(s, L, KeepSolver(), n1, n2);
  }

  /** Layers that every step leaves as they are stay so over any number of layers. */
  lemma {:induction false} RunFixedPoint(s: nat, count: nat, L: Layers, step: StepFn, n1: nat, n2: nat)
    requires L.Valid(n1, n2) && Closed(step, n1, n2)
    requires forall t: nat :: step(t, L).1 == L
    ensures Run(s, count, L, step, n1, n2).1 == L
    decreases count
  {
    if count > 0 {
      assert step(s, L).1 == L;
      RunFixedPoint(s + 1, count - 1, L, step, n1, n2);
    }
  }

  /** A constant initial profile is a steady state of execute under the identity
      sweep: after every layer, uLow, uMid and uTop all still equal setConst(C). */
  lemma ExecuteConstantSteady(c: Vec3, g: Grid)
    requires g.n1 >= 2 && g.n2 >= 2
    ensures Runnable(KeepSolver(), g.n1, g.n2)
    ensures var phi := SetConst(c, g.n1, g.n2);
      Execute(phi, g, KeepSolver()).1 == Layers(phi, phi, phi)
  {
    var phi := SetConst(c, g.n1, g.n2);
    assert NeumannRows(phi, g.n1, g.n2) && NeumannCols(phi, g.n1, g.n2);
    var L := Layers(phi, phi, phi);
    var step := StepOf(KeepSolver(), g.n1, g.n2);
    forall t: nat
      ensures step(t, L).1 == L
    {
      SteadyStep(t, phi, g.n1, g.n2);
    }
    RunFixedPoint(0, g.nt, L, step, g.n1, g.n2);
  }
}
