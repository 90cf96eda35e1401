# Time-stepping driver of a two-dimensional splitting scheme, in Dafny

This project models `Task`, the driver class of a locally-one-dimensional
(alternating-direction) finite-difference solver. The solver works on three
coupled scalar components on an `n1 x n2` grid. The driver decides the
structure of a run, and this project models that structure:

- the **initial profile** `phi`: `setConst`, `setCommonCos`, the `setCos`
  lambda, and the tag dispatch of `definePhi` (module `Profile`);
- the **layer store**: the three buffers `uLow`, `uMid` and `uTop`, set
  from `phi` by `defineInitCond` and rotated by `uLow = uTop` at the end of
  each time layer (module `LayerStore`);
- the **boundary rules**: the two zero-gradient copy rules of
  `defineBorderCondPhase1/2` and the phase dispatch of `defineBorderCond`
  (module `Boundary`);
- the **comparison probe** `compare` (module `Probe`);
- the **control skeleton of `execute`**, modelled as a trace of events
  over uninterpreted numerical collaborators (module `Stepper`).

The modules `Fields` and `Outcome` hold the shared data model: fields are
`seq<seq<seq<real>>>` indexed `[k][i][j]` with the shape predicate
`Shaped`, and the driver's two exceptions are the `Err` side of a
`Result`.

Cell values are `real`. The cosine and `pi` form an uninterpreted `Trig`
parameter, because the cosine term never reaches `phi` (see below). The
collaborators `defineF`, `defineLayersParams` and the line sweep form one
`Solver` parameter. It maps a phase and the current layers to the new
`uMid` (phase 0) or the new `uTop` (phase 1). The two `fwrite` calls are
`WriteMain` and `WriteHalf` events. Each event records the layers as they
stand when it runs.

Behaviour reproduced as written:

- **`setCos` returns `C`.** The lambda builds `C + M cos cos` into a local
  result and then returns `C`. So every cosine family (`CosX`, `CosY`,
  `CosXCosY`) yields the constant profile. This is proved
  (`Profile.CosinePhiIsConstPhi`), and the model does not correct it.
- **`compare` is a signed maximum.** It returns the maximum of 0 and every
  `uTop - uLow` difference, not an absolute norm. Its result is 0 exactly
  when no node increased (`Probe.ProbeZeroIffNoIncrease`).

Consequences of the code that a reader might not expect:

- `getNorm` prints the probe under the label `||u(i)[s] - u(i)[s]||`
  (`Task.h:169`), as if it were a norm. The value is the signed maximum
  above, so a layer that only decreased prints 0.
- A `CosX` profile with `C = 0` and `M = 1` gives `phi = 0` everywhere,
  not the cosine, because `setCos` returns `C`
  (`Profile.CosinePhiIsConstPhi`).
- The boundary rules index rows `1` and `n1 - 2` (`Task.h:48, 51`) and
  columns `1` and `n2 - 2` (`Task.h:64, 67`). So phase 0 needs only
  `n1 >= 2` and phase 1 only `n2 >= 2`, and the model requires no more.
  Smaller sizes make the unsigned `n - 2` wrap around in the source.

## Model

| member | source | states |
|---|---|---|
| `Profile.SetConst` | graduatework/task/interfaces/Task.h:16-23 | The result has exactly 3 components of `n1 x n2` entries, and every entry of component k equals `c[k]`. |
| `Profile.UniformIsSetConst` | graduatework/task/interfaces/Task.h:16-23 | A field is uniform with constants `c` if and only if it equals `setConst(c)`, so the uniform fill is unique. |
| `Profile.CommonCos` | graduatework/task/interfaces/Task.h:25-38 | Only the shape: the result has 3 components of `n1 x n2` entries. Its values are stated by the two lemmas below. |
| `Profile.CommonCosAlongX` | graduatework/task/interfaces/Task.h:25-38 | With `beta = 0` and `cos(0) = 1`, entry (k, i, j) is `M[k] cos(pi alpha x_i)`, so it depends on `x_i` only and is constant along each row. |
| `Profile.CommonCosAlongY` | graduatework/task/interfaces/Task.h:25-38 | With `alpha = 0` and `cos(0) = 1`, entry (k, i, j) is `M[k] cos(pi beta y_j)`, so it depends on `y_j` only and is constant along each column. |
| `Profile.Add` | graduatework/task/interfaces/Task.h:113-120 | Only the shape: the sum of two `n1 x n2` fields has the same shape. Its values are stated by `Profile.AddIsLeftIffZero` and `Profile.CosSum`. |
| `Profile.AddIsLeftIffZero` | graduatework/task/interfaces/Task.h:113-120 | Adding `b` to `a` gives back `a` if and only if `b` is 0 at every node. |
| `Profile.CosSum` | graduatework/task/interfaces/Task.h:109-120 | The local result of the lambda has the grid's shape, and entry (k, i, j) is the constant `C[k]` plus the `setCommonCos` entry at that node. |
| `Profile.SetCos` | graduatework/task/interfaces/Task.h:106-123 | The lambda's result is the uniform field of `C` at every node, whatever `M`, alpha, beta and the trigonometry are. |
| `Profile.SetCosIgnoresCosineTerm` | graduatework/task/interfaces/Task.h:106-123 | Two calls of `setCos` with the same `C` return the same field, even when `M`, alpha, beta, `pi` or `cos` differ. |
| `Profile.SetCosIsSumIffCosineVanishes` | graduatework/task/interfaces/Task.h:112-122 | The returned field equals the computed sum `C + M cos cos` if and only if the cosine term is 0 at every node. |
| `Profile.DefinePhi` | graduatework/task/interfaces/Task.h:125-145 | The dispatch succeeds exactly for the four known tags. An unknown tag throws `ALARM_DEFINE_PHI`. On success `phi` is uniform with the constants `C`. |
| `Profile.CosinePhiIsConstPhi` | graduatework/task/interfaces/Task.h:131-141 | For `CosX`, `CosY` and `CosXCosY`, `definePhi` gives the same `phi` as the `Const` tag, namely `setConst(C)`. |
| `Boundary.CopyEdges` | graduatework/task/interfaces/Task.h:46-52 | The line copy rule: the first entry takes the second, the last entry equals the one before it, and the inner entries are unchanged. |
| `Boundary.BorderPhase1` | graduatework/task/interfaces/Task.h:40-54 | In every component, row 0 becomes row 1 and row `n1-1` equals row `n1-2`. Rows `1..n1-2` are unchanged and the shape is kept. |
| `Boundary.BorderPhase2` | graduatework/task/interfaces/Task.h:56-70 | In every component and row, column 0 becomes column 1 and column `n2-1` equals column `n2-2`. Columns `1..n2-2` are unchanged. |
| `Boundary.BorderPhase1FixedPoints` | graduatework/task/interfaces/Task.h:40-54 | The phase-1 rule leaves a field unchanged if and only if its edge rows already satisfy the zero-gradient condition. |
| `Boundary.BorderPhase2FixedPoints` | graduatework/task/interfaces/Task.h:56-70 | The phase-2 rule leaves a field unchanged if and only if its edge columns already satisfy the zero-gradient condition. |
| `Boundary.BorderPhase1Idempotent` | graduatework/task/interfaces/Task.h:40-54 | Applying the row rule twice gives the same field as applying it once. It needs only `n1 >= 2`. |
| `Boundary.BorderPhase2Idempotent` | graduatework/task/interfaces/Task.h:56-70 | Applying the column rule twice gives the same field as applying it once. It needs only `n2 >= 2`. |
| `Boundary.DefineBorderCond` | graduatework/task/interfaces/Task.h:90-101 | Phase 0 sets row 0 of `uMid` to the old row 1, keeps rows `1..n1-2`, and makes row `n1-1` equal row `n1-2`. Phase 1 does the same to the columns of `uTop`. Each phase leaves the other two layers untouched. Any phase from 2 up throws `ALARM_DEFINE_BORDER_COND`. |
| `Boundary.FixRowsLoop` | graduatework/task/interfaces/Task.h:46-52 | The column-by-column loop over one component computes the phase-1 copy rule. |
| `Boundary.EnforcePhase1` | graduatework/task/interfaces/Task.h:40-54 | The nested loops of `defineBorderCondPhase1` compute `BorderPhase1`. |
| `Boundary.FixColsLoop` | graduatework/task/interfaces/Task.h:62-68 | The row-by-row loop over one component applies the copy rule to every row. |
| `Boundary.EnforcePhase2` | graduatework/task/interfaces/Task.h:56-70 | The nested loops of `defineBorderCondPhase2` compute `BorderPhase2`. |
| `Probe.Max` | graduatework/task/interfaces/Task.h:153 | `fmax` on non-NaN operands: the result is at least each operand and equals one of them. |
| `Probe.MaxDiff` | graduatework/task/interfaces/Task.h:151-155 | For one component, the result is at least 0 and at least every `uTop - uLow` difference. It is either 0 or one of those differences. |
| `Probe.Compare` | graduatework/task/interfaces/Task.h:148-159 | `compare` returns 3 values, and value k is the maximum of 0 and all differences of component k. |
| `Probe.ProbeUnique` | graduatework/task/interfaces/Task.h:148-159 | The layers fully determine the result of `compare`. |
| `Probe.ProbeZeroIffNoIncrease` | graduatework/task/interfaces/Task.h:148-159 | A component's result is 0 if and only if no node increased from `uLow` to `uTop`, so the maximum is signed, not absolute. |
| `Probe.ProbeAfterInit` | graduatework/task/interfaces/Task.h:83-88 | Right after `defineInitCond`, `compare` returns `(0, 0, 0)` and nothing else. |
| `Probe.ProbeAfterRotate` | graduatework/task/interfaces/Task.h:195 | Right after `uLow = uTop`, `compare` returns `(0, 0, 0)` and nothing else. |
| `LayerStore.DefineInitCond` | graduatework/task/interfaces/Task.h:83-88 | All three buffers become `phi`, so the store is grid-sized exactly when `phi` is. Its consequences are `Stepper.ExecuteStartsFromPhi` and `Probe.ProbeAfterInit`. |
| `LayerStore.Rotate` | graduatework/task/interfaces/Task.h:195 | `uLow` takes `uTop`, `uMid` and `uTop` are kept, and a grid-sized store stays grid-sized. `Stepper.ExecuteRotation`, `Stepper.ExecuteFinal` and `Probe.ProbeAfterRotate` build on it. |
| `Stepper.Phase` | graduatework/task/interfaces/Task.h:183-190 | One phase emits `defineF`, `defineLayersParams`, sweep and border, in that order. The first three see the incoming layers. The border step sees them with the sweep's output in place. Phase 0 changes only `uMid`, which becomes the row rule applied to the sweep's output. Phase 1 changes only `uTop`, which becomes the column rule applied to the sweep's output. |
| `Stepper.Step` | graduatework/task/interfaces/Task.h:179-196 | One time layer emits the 11 operations in order. It writes the incoming `uLow` first. Phase 1 starts from the `uMid` phase 0 produced: the row rule applied to the sweep's output on the incoming layers. The new `uTop` is the column rule applied to the sweep's output on those layers. At the half-layer write, `uMid` satisfies the row rule and `uTop` the column rule. The rotation sees exactly the layers of the half-layer write, and the layer ends with `uLow := uTop` on them. |
| `Stepper.StepOf` | graduatework/task/interfaces/Task.h:179-196 | The loop body of `execute`, for a fixed solver, behaves as `Step` promises on every grid-sized input, including the data flow from that solver's outputs into `uMid` and `uTop`. |
| `Stepper.Run` | graduatework/task/interfaces/Task.h:179-196 | `count` time layers emit `11 * count` events. After at least one layer, `uLow` equals `uTop`, and with no layers the input layers are kept. |
| `Stepper.Execute` | graduatework/task/interfaces/Task.h:175-196 | `execute` runs exactly `grid[2]` layers (`11 * grid[2]` events). With no layers, all three buffers are `phi`. Otherwise the final `uLow` equals the final `uTop`. |
| `Stepper.RunSplit` | graduatework/task/interfaces/Task.h:179-196 | Running `count` layers is running the first `t` and then the remaining `count - t` from where they left off. |
| `Stepper.ExecuteSchedule` | graduatework/task/interfaces/Task.h:179-196 | Block t of the trace (events `11t` to `11t+10`) belongs to layer t and performs the 11 operations in order. In that block, `uMid` becomes the row rule applied to the sweep's output on the layers the block started from. Phase 1 starts from that `uMid`, and `uTop` becomes the column rule applied to the sweep's output on the layers phase 1 started from. At the half-layer write, `uMid` satisfies the row rule and `uTop` the column rule. Each event records the layers as they stand when it runs, and the rotation sees the layers of the half-layer write. |
| `Stepper.ExecuteStartsFromPhi` | graduatework/task/interfaces/Task.h:175-180 | The first event of `execute` writes `uLow` of layer 0, with all three layers equal to `phi`. |
| `Stepper.ExecuteRotation` | graduatework/task/interfaces/Task.h:179-196 | Layer t+1 starts from the layers of layer t's half-layer write (event `11t+9`) with `uLow` replaced by `uTop`: its `uLow` is the `uTop` that layer t's phase 1 produced, and `uMid` and `uTop` carry over unchanged. |
| `Stepper.ExecuteFinal` | graduatework/task/interfaces/Task.h:179-196 | With at least one layer, `execute` ends with the layers of the last layer's half-layer write, with `uLow` replaced by `uTop`. |
| `Stepper.SteadyStep` | graduatework/task/interfaces/Task.h:179-196 | With the identity sweep, three equal layers whose edges already satisfy both rules stay unchanged by a time layer. |
| `Stepper.ExecuteConstantSteady` | graduatework/task/interfaces/Task.h:175-196 | With a constant profile and the identity sweep, every layer count ends with `uLow`, `uMid` and `uTop` all equal to `setConst(C)`. |

## Left out

- Cosine values, `pi` and floating point: `cos` and `pi` are an uninterpreted parameter and values are `real`. Double rounding and the NaN behaviour of `fmax` are not modelled.
- `defineF`, `defineLayersParams` and `executeSerialSweepLayers`: these live in `System`, which is not part of this model. They appear only as events and as one uninterpreted `Solver` function. The commented-out parallel sweep is left out.
- `FWork::fwrite` and `fread`: file persistence is not part of this model. The writes are trace events that carry the layer written. The `fread` calls are commented out in the source.
- `Stepper.Execute`: exceptions from the collaborators (a failed solve or write) are not modelled. The `Solver` is total, so the trace always runs all `grid[2]` layers. The model also requires `n1, n2 >= 2` and a grid-sized solver when `grid[2] = 0`, although `execute` then only runs `defineInitCond` and accepts any grid.
- `Stepper.Phase`: the model assumes that the sweep of phase 0 writes `uMid` and the sweep of phase 1 writes `uTop`, and that `defineF` and `defineLayersParams` change no buffer. `System` is not part of this model, and `Task.h` does not show which buffers they write. The boundary rules that follow (`Task.h:48-51, 64-67`) only ever touch those two buffers.
- `Stepper.Solver`: the collaborators are one fixed function of the phase and the layers. It has no time-layer argument and no state of its own, so a `defineF` that depends on the time or on state `System` keeps between calls is not expressed. No proved property depends on this.
- `Profile.CommonCos`: its contract states only the shape, not the entry `M[k] cos(pi alpha x_i) cos(pi beta y_j)`. The cosine is uninterpreted, so the values are stated only in the single-axis cases `Profile.CommonCosAlongX` and `Profile.CommonCosAlongY`. The value never reaches `phi`.
- `Profile.Add`: its contract states only the shape. The entrywise sum is stated through `Profile.CosSum` and `Profile.AddIsLeftIffZero`.
- `Stepper.Runnable`: the model requires the solver to return grid-sized fields. The source assumes this without checking it.
- `getNorm`: it only prints to standard output, and its call in `execute` is commented out.
- Constructor plumbing: the multiple-inheritance constructor and the `AppConstansts` message strings are not modelled. The constructor's `definePhi` call is modelled as `DefinePhi`.
- `definePhi` first resizes `phi` to zeros. On the throwing path the model returns only the error and does not model that partly built `phi`, because the exception aborts construction.
- Node coordinates: only their sizes matter (`Grid.Valid`), because they reach only the discarded cosine term.
