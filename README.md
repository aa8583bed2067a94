# Fractal renderer host logic in Dafny

This project models the host side of a Unity fractal viewer: three compute-shader engines and a scene component switcher.

- `Julia_01` is the Julia-set engine.
- `FractalNewton` is the Newton-basin engine.
- `Mandelbrot_02` is the Mandelbrot engine.
- `Component_Switcher` turns one engine on at a time.

Each engine is a small state machine around one `needsUpdate` flag:

- Key handlers change the camera or colour parameters and set the flag.
- The render hook `OnRenderImage` recomputes the cached image only when it is stale, then clears the flag.
- The render hook presents (blits) the cached target on every frame.
- A recompute decides whether to reallocate the render target and the gradient lookup texture. It then refills the lookup and dispatches the kernel over a grid sized by truncating division.

The three engines differ in these decisions, and the model keeps every difference.

## Layout

| file | module | what it holds |
|---|---|---|
| `unity.dfy` | `Unity` | Abstract Unity handles and a one-frame input snapshot. `RenderTexture` has a size, a depth and a released flag. `GradientTexture` is a lookup whose texels record the gradient position each one was sampled at. `Dispatch` is one recorded kernel launch. |
| `numerics.dfy` | `Numerics` | `Mathf.Clamp`, `Mathf.RoundToInt`, the truncating grid division, the iteration-budget key and the zoom step. |
| `gradient.dfy` | `Gradient` | The gradient position each lookup texel is sampled at, for the `iterationsPerGroup`-wide lookup and for the fixed 256-wide Newton lookup. |
| `julia.dfy` | `Julia` | The `Julia01` class, and the specification functions that give each handler's and each `Update`'s effect on the parameters. |
| `newton.dfy` | `Newton` | The `FractalNewton` class and its specification functions. |
| `mandelbrot.dfy` | `Mandelbrot` | The `Mandelbrot02` class and its specification functions. |
| `switcher.dfy` | `Switcher` | The `ComponentSwitcher` class over an array of behaviours. |

Each engine class has the source's fields plus two ghost logs:

- `dispatches` records every kernel launch: kernel name, target, lookup, grid and parameters.
- `presented` records the target every blit presents.

`Valid()` holds the inspector ranges of the counters and a coherence clause: when `needsUpdate` is false, the last dispatch used the current target, the current lookup and the current parameters, and the lookup's texels are the sample positions they should be.

Each handler method is proved against a pure function on a parameter record, for example `Params() == AfterZoom(old(Params()), ...)`. Field-specific `modifies` clauses give each handler's footprint. `Update` is proved against the composition of those functions, and lemmas state what that composition preserves.

## Model

| member | source | states |
|---|---|---|
| Unity.IsShift | Assets/Fractal_01/Julia_01.cs:160 | Shift counts as held when Left Shift or Right Shift is held. |
| Numerics.Clamp | Assets/Fractal_01/Julia_01.cs:174 | The result lies in [min, max], equals the value when the value is in range, and is the point of the range nearest the value. |
| Numerics.RoundToInt | Assets/Fractal_01/Julia_01.cs:166 | The result is within 0.5 of the input, and is even when the input lies exactly half-way between two integers. |
| Numerics.RoundToIntOfInteger | Assets/Fractal_01/Julia_01.cs:166 | Rounding an integer gives the same integer back. |
| Numerics.RoundToIntMonotone | Assets/Fractal_01/Julia_01.cs:166 | Rounding preserves order. |
| Numerics.GroupsFor | Assets/Fractal_01/Julia_01.cs:105 | The groups of a grid cover at most `size` pixels and leave fewer than one group's width uncovered (truncating division). |
| Numerics.FullHdGrids | Assets/Fractal_01/FractalNewton.cs:81 | For 1920x1080, 8x8 groups give (240, 135) and tile the target exactly. 32x32 groups give (60, 33) and leave 24 rows undispatched. |
| Numerics.AdjustedIterations | Assets/Fractal_01/Julia_01.cs:162-168 | After an adjust key, the iteration budget lies in [1, 256] whatever the rounded value was. |
| Numerics.IterationRate | Assets/Fractal_01/FractalNewton.cs:115-116 | The budget changes by 100 * value per second with Shift held and by 400 * value without, so it has the sign of the key's value. |
| Numerics.ZoomStep | Assets/Fractal_01/Julia_01.cs:215-217 | One zoom call multiplies `pixel_size` by 1 + direction * rate. With direction 0 or rate 0 it leaves `pixel_size` unchanged. |
| Numerics.ZoomRate | Assets/Fractal_01/Julia_01.cs:214-215 | The zoom rate of `Julia_01` and `FractalNewton` lies in [0, 4 * deltaTime]. It reaches 1 at a quarter-second frame without Shift and at a frame of 1/0.6 seconds with Shift. |
| Numerics.UnroundedDirection | Assets/Fractal_01/FractalNewton.cs:115-116 | Before rounding, the new budget moves in the direction of the key's value, and stays put in a zero-length frame. |
| Numerics.RoundedClampedOrder | Assets/Fractal_01/FractalNewton.cs:117 | Rounding and clamping to [1, 256] keep an in-range budget on the same side of the unrounded value. |
| Numerics.AdjustedIterationsDirection | Assets/Fractal_01/FractalNewton.cs:113-119 | From an in-range budget, the up key never lowers it and the down key never raises it. A zero-length frame changes nothing. |
| Numerics.ZoomStepSign | Assets/Fractal_01/Julia_01.cs:212-220 | A zoom multiplies `pixel_size` by 1 + direction * rate. A positive `pixel_size` stays positive exactly when that factor is positive. |
| Gradient.GroupSample | Assets/Fractal_01/Julia_01.cs:34-35 | Texel i of an n-wide lookup is sampled in (0, 1]. Texel 0 is sampled at t = 1, and texel i > 0 at i / (n - 1). |
| Gradient.GroupLutShape | Assets/Fractal_01/Mandelbrot_02.cs:25-33 | An n-wide lookup has n texels, all in (0, 1]. The first and last texels are both sampled at t = 1. The texels from 1 on rise strictly. |
| Gradient.NewtonSample | Assets/Fractal_01/FractalNewton.cs:42 | Texel i of the Newton lookup is sampled at i / 255, which lies in [0, 1]. |
| Gradient.NewtonLutShape | Assets/Fractal_01/FractalNewton.cs:40-44 | The Newton lookup has 256 texels that rise strictly from t = 0 at texel 0 to t = 1 at texel 255. |
| Julia.Initial | Assets/Fractal_01/Julia_01.cs:12-25 | The field initialisers lie in their inspector ranges, and `pixel_size` spans 4 units over the screen height. |
| Julia.Defaults | Assets/Fractal_01/Julia_01.cs:146-157 | The R table lies in the inspector ranges. It differs from the initialisers only in the centre (0.2744, 0.0057) and the budget 64. |
| Julia.ShiftAmount | Assets/Fractal_01/Julia_01.cs:190-192 | The distance one `Shift` call moves the Julia constant is never negative while `pixel_size` and the frame time are non-negative. |
| Julia.MoveAmount | Assets/Fractal_01/Julia_01.cs:202-204 | The distance one `Move` call pans the view is never negative while `pixel_size` and the frame time are non-negative. |
| Julia.NextNumGroups | Assets/Fractal_01/Julia_01.cs:170-176 | The group count after B or N lies in [1, 10], and equals old + value * (1 with Shift, else 2) whenever that is in range. |
| Julia.AfterShift | Assets/Fractal_01/Julia_01.cs:188-198 | `Shift` changes only the two shift offsets. |
| Julia.AfterMove | Assets/Fractal_01/Julia_01.cs:200-210 | `Move` changes only the view centre. |
| Julia.AfterZoom | Assets/Fractal_01/Julia_01.cs:212-220 | `Zoom` changes only `pixel_size`. |
| Julia.AfterPower | Assets/Fractal_01/Julia_01.cs:178-186 | `Power` changes only the exponent. |
| Julia.AfterIterationPerGroup | Assets/Fractal_01/Julia_01.cs:162-168 | `IterationPerGroup` changes only the budget, which lands in [1, 256]. |
| Julia.AfterNumGroups | Assets/Fractal_01/Julia_01.cs:170-176 | `NumGroups` changes only the group count, which lands in [1, 10]. |
| Julia.ShiftKeys | Assets/Fractal_01/Julia_01.cs:124-127 | The W, A, S, D keys change only the shift offsets. |
| Julia.MoveKeys | Assets/Fractal_01/Julia_01.cs:129-132 | The arrow keys change only the view centre. |
| Julia.ZoomAndPowerKeys | Assets/Fractal_01/Julia_01.cs:134-138 | Q, E, Z and X change only `pixel_size` and the exponent. |
| Julia.CountKeys | Assets/Fractal_01/Julia_01.cs:140-144 | C, V, B and N change only the two counters and keep both in their ranges. |
| Julia.AfterUpdate | Assets/Fractal_01/Julia_01.cs:122-158 | One `Update` is defined as the key groups in source order (W/A/S/D, arrows, Q/E/Z/X, C/V/B/N), with R overriding everything with the default table. Its properties are the three lemmas below. |
| Julia.UpdateKeepsDomains | Assets/Fractal_01/Julia_01.cs:122-158 | No frame of input takes the budget out of [1, 256] or the group count out of [1, 10]. |
| Julia.ResetWins | Assets/Fractal_01/Julia_01.cs:146-157 | A frame with R pressed ends in exactly the default table, whatever else was held. A second such frame changes nothing, and the defaults are in range. |
| Julia.IdleUpdate | Assets/Fractal_01/Julia_01.cs:122-158 | A frame with none of the engine's keys leaves every parameter as it was. |
| Julia.ZoomInCollapse | Assets/Fractal_01/Julia_01.cs:212-220 | One zoom-in frame keeps `pixel_size` positive iff the zoom rate is below 1. A quarter-second frame without Shift takes it to exactly 0. |
| Julia.Julia01.constructor | Assets/Fractal_01/Julia_01.cs:7-25 | The field initialisers. The cache starts stale, with no target and no lookup. |
| Julia.Julia01.UpdateGradient | Assets/Fractal_01/Julia_01.cs:30-38 | After the loop, every texel holds the sample position `GroupSample` gives for it. |
| Julia.Julia01.UpdateRenderTexture | Assets/Fractal_01/Julia_01.cs:41-106 | Releases and reallocates the target (fresh, of the requested size, depth 24) iff it was absent or its size differed, and otherwise reuses it. Recreates the lookup iff it was absent or its width differed from `iterationsPerGroup`, and refills it. Records one "Julia" dispatch of (width/32, height/32) with the current parameters, which leaves the cache clean. |
| Julia.Julia01.OnRenderImage | Assets/Fractal_01/Julia_01.cs:112-120 | Recomputes iff the flag was set, and otherwise leaves target, lookup and dispatch log untouched. Clears the flag and presents the live target on every call. |
| Julia.Julia01.OnValidate | Assets/Fractal_01/Julia_01.cs:109 | An inspector edit marks the cache stale. |
| Julia.Julia01.Shift | Assets/Fractal_01/Julia_01.cs:188-198 | Sets the flag. The parameters become `AfterShift` of the old ones, and the frame names only the touched fields. |
| Julia.Julia01.Move | Assets/Fractal_01/Julia_01.cs:200-210 | Sets the flag. The parameters become `AfterMove` of the old ones. |
| Julia.Julia01.Zoom | Assets/Fractal_01/Julia_01.cs:212-220 | Sets the flag. The parameters become `AfterZoom` of the old ones. |
| Julia.Julia01.Power | Assets/Fractal_01/Julia_01.cs:178-186 | Sets the flag. The parameters become `AfterPower` of the old ones. |
| Julia.Julia01.IterationPerGroup | Assets/Fractal_01/Julia_01.cs:162-168 | Sets the flag and keeps the engine valid. The budget stays in [1, 256]. |
| Julia.Julia01.NumGroups | Assets/Fractal_01/Julia_01.cs:170-176 | Sets the flag and keeps the engine valid. The group count stays in [1, 10]. |
| Julia.Julia01.Reset | Assets/Fractal_01/Julia_01.cs:146-157 | Sets the flag and writes exactly the default table. |
| Julia.Julia01.PollShiftKeys | Assets/Fractal_01/Julia_01.cs:124-127 | The parameters become `ShiftKeys` of the old ones. The flag is set iff it was set or one of the keys is held. |
| Julia.Julia01.PollMoveKeys | Assets/Fractal_01/Julia_01.cs:129-132 | The parameters become `MoveKeys` of the old ones. The flag is set iff it was set or an arrow key is held. |
| Julia.Julia01.PollZoomAndPowerKeys | Assets/Fractal_01/Julia_01.cs:134-138 | The parameters become `ZoomAndPowerKeys` of the old ones. The flag is set iff it was set or one of the keys is held. |
| Julia.Julia01.PollCountKeys | Assets/Fractal_01/Julia_01.cs:140-144 | The parameters become `CountKeys` of the old ones. The flag is set iff it was set or one of the keys is used. |
| Julia.Julia01.Update | Assets/Fractal_01/Julia_01.cs:122-158 | The parameters become `AfterUpdate` of the old ones, and the render cache is outside the frame. The flag ends set iff it was set or the frame touched any handler. |
| Julia.StaticFrames | Assets/Fractal_01/Julia_01.cs:112-120 | Two frames with no input between them dispatch at most once and present the same target twice. |
| Newton.Initial | Assets/Fractal_01/FractalNewton.cs:8-17 | The field initialisers: the budget 64 lies in [1, 256], and `pixel_size` spans 4 units over the screen height. |
| Newton.MoveAmount | Assets/Fractal_01/FractalNewton.cs:123-125 | The distance one `Move` call pans the view is never negative while `pixel_size` and the frame time are non-negative. |
| Newton.AfterReset | Assets/Fractal_01/FractalNewton.cs:100-108 | The R key writes centre 0 and 0, `pixel_size` = 4 / screen height, budget 64 and epsilon 0.01. It leaves `useBasins` alone. |
| Newton.ResetIdempotent | Assets/Fractal_01/FractalNewton.cs:100-108 | Resetting twice equals resetting once. A reset of the initial state differs from it only in epsilon, because the initial 0.001 is not restored. |
| Newton.AfterMove | Assets/Fractal_01/FractalNewton.cs:121-131 | `Move` changes only the view centre. |
| Newton.AfterZoom | Assets/Fractal_01/FractalNewton.cs:133-141 | `Zoom` changes only `pixel_size`. |
| Newton.AfterMaxIterations | Assets/Fractal_01/FractalNewton.cs:113-119 | `MaxIterations` changes only the budget, which lands in [1, 256]. |
| Newton.MoveKeys | Assets/Fractal_01/FractalNewton.cs:89-92 | The arrow keys and W, A, S, D change only the view centre. |
| Newton.ZoomAndIterationKeys | Assets/Fractal_01/FractalNewton.cs:94-98 | Q, E, C and V change only `pixel_size` and the budget, and keep the budget in [1, 256]. |
| Newton.AfterUpdate | Assets/Fractal_01/FractalNewton.cs:87-109 | One `Update` is defined as the move keys, then Q/E/C/V, then R, which resets on top of what the keys did. Its properties are in `Newton.UpdateFootprint`. |
| Newton.UpdateFootprint | Assets/Fractal_01/FractalNewton.cs:87-109 | No frame changes `useBasins`. Only a reset frame changes epsilon. The budget stays in [1, 256]. |
| Newton.FractalNewton.constructor | Assets/Fractal_01/FractalNewton.cs:6-21 | The field initialisers. The cache starts stale, with no target and no lookup. |
| Newton.FractalNewton.UpdateGradient | Assets/Fractal_01/FractalNewton.cs:35-46 | The lookup is recreated iff it is absent or not 256 wide. Afterwards it is 256 wide and every texel holds `NewtonSample` of its index. |
| Newton.FractalNewton.UpdateRenderTexture | Assets/Fractal_01/FractalNewton.cs:48-82 | Releases any old target and allocates a fresh one of exactly the requested size (depth 0), refreshes the 256-wide lookup, and records one "Newton" dispatch of (width/8, height/8) with the current parameters, which leaves the cache clean. |
| Newton.FractalNewton.Stale | Assets/Fractal_01/FractalNewton.cs:26 | The recompute condition: the flag is set, there is no target, or the target's width or height differs from the source's. |
| Newton.FractalNewton.OnRenderImage | Assets/Fractal_01/FractalNewton.cs:24-33 | Recomputes iff the flag is set, the target is missing, or the target's size differs from the source's. Otherwise it leaves the cache untouched. Clears the flag and presents a live target that always has the source's size. |
| Newton.FractalNewton.OnValidate | Assets/Fractal_01/FractalNewton.cs:85 | An inspector edit marks the cache stale. |
| Newton.FractalNewton.MaxIterations | Assets/Fractal_01/FractalNewton.cs:113-119 | Sets the flag and keeps the engine valid. The budget stays in [1, 256]. |
| Newton.FractalNewton.Move | Assets/Fractal_01/FractalNewton.cs:121-131 | Sets the flag. The parameters become `AfterMove` of the old ones. |
| Newton.FractalNewton.Zoom | Assets/Fractal_01/FractalNewton.cs:133-141 | Sets the flag. The parameters become `AfterZoom` of the old ones. |
| Newton.FractalNewton.Reset | Assets/Fractal_01/FractalNewton.cs:100-108 | Sets the flag. The parameters become `AfterReset` of the old ones. |
| Newton.FractalNewton.PollMoveKeys | Assets/Fractal_01/FractalNewton.cs:89-92 | The parameters become `MoveKeys` of the old ones. The flag is set iff it was set or a move key is held. |
| Newton.FractalNewton.PollZoomAndIterationKeys | Assets/Fractal_01/FractalNewton.cs:94-98 | The parameters become `ZoomAndIterationKeys` of the old ones. The flag is set iff it was set or one of the keys is held. |
| Newton.FractalNewton.Update | Assets/Fractal_01/FractalNewton.cs:87-109 | The parameters become `AfterUpdate` of the old ones, with `useBasins` and the cache outside the frame. The flag ends set iff it was set or the frame touched any handler. |
| Newton.StaticFrames | Assets/Fractal_01/FractalNewton.cs:24-33 | Two same-size frames with no input between them dispatch at most once and present the same target twice. |
| Mandelbrot.Initial | Assets/Fractal_01/Mandelbrot_02.cs:10-19 | The field initialisers lie in their inspector ranges, and `pixel_size` spans 4 units over the screen height. |
| Mandelbrot.MoveAmount | Assets/Fractal_01/Mandelbrot_02.cs:115-116 | The distance one `Move` call pans the view is never negative while `pixel_size` and the frame time are non-negative. |
| Mandelbrot.AfterCenterOnMouse | Assets/Fractal_01/Mandelbrot_02.cs:101-110 | A click changes only the view centre. A click on the (truncated) screen centre changes nothing. |
| Mandelbrot.AfterMove | Assets/Fractal_01/Mandelbrot_02.cs:113-122 | `Move` changes only the view centre. |
| Mandelbrot.AfterZoom | Assets/Fractal_01/Mandelbrot_02.cs:124-129 | `Zoom` changes only `pixel_size`. |
| Mandelbrot.MoveKeys | Assets/Fractal_01/Mandelbrot_02.cs:89-92 | The arrow keys change only the view centre. |
| Mandelbrot.ZoomAndMouse | Assets/Fractal_01/Mandelbrot_02.cs:94-97 | Left Shift, Left Control and a left click change only the view centre and `pixel_size`. |
| Mandelbrot.AfterUpdate | Assets/Fractal_01/Mandelbrot_02.cs:87-99 | One `Update` is defined as the arrow keys, then Left Shift and Left Control, then a left click. Its properties are in `Mandelbrot.UpdateKeepsColourSetup`. |
| Mandelbrot.UpdateKeepsColourSetup | Assets/Fractal_01/Mandelbrot_02.cs:87-99 | No frame changes `iterationsPerGroup` or `numGroups`. A frame with none of the engine's inputs changes nothing. |
| Mandelbrot.ZoomInCollapse | Assets/Fractal_01/Mandelbrot_02.cs:124-129 | One zoom-in frame (Left Shift) keeps `pixel_size` positive iff the frame is shorter than one second. A one-second frame takes it to exactly 0. |
| Mandelbrot.Mandelbrot02.constructor | Assets/Fractal_01/Mandelbrot_02.cs:7-22 | The field initialisers. The cache starts stale, with no target and no lookup. |
| Mandelbrot.Mandelbrot02.UpdateGradient | Assets/Fractal_01/Mandelbrot_02.cs:25-33 | After the loop, every texel holds the sample position `GroupSample` gives for it. |
| Mandelbrot.Mandelbrot02.UpdateRenderTexture | Assets/Fractal_01/Mandelbrot_02.cs:36-68 | Allocates a depth-24 target of the requested size only when there is none, and otherwise keeps the old target whatever its size. Recreates the lookup iff it is absent or its width differs from `iterationsPerGroup`. Records one "Mandelbrot" dispatch of (width/32, height/32) with the current parameters. |
| Mandelbrot.Mandelbrot02.OnRenderImage | Assets/Fractal_01/Mandelbrot_02.cs:77-85 | Recomputes iff the flag was set, with no size check. Once a target exists it is kept. Clears the flag and presents the target on every call. |
| Mandelbrot.Mandelbrot02.OnValidate | Assets/Fractal_01/Mandelbrot_02.cs:71-74 | An inspector edit marks the cache stale. |
| Mandelbrot.Mandelbrot02.CenterOnMouse | Assets/Fractal_01/Mandelbrot_02.cs:101-110 | Sets the flag. The parameters become `AfterCenterOnMouse` of the old ones, and the frame names only the centre. |
| Mandelbrot.Mandelbrot02.Move | Assets/Fractal_01/Mandelbrot_02.cs:113-122 | Sets the flag. The parameters become `AfterMove` of the old ones. |
| Mandelbrot.Mandelbrot02.Zoom | Assets/Fractal_01/Mandelbrot_02.cs:124-129 | Sets the flag. The parameters become `AfterZoom` of the old ones. |
| Mandelbrot.Mandelbrot02.PollMoveKeys | Assets/Fractal_01/Mandelbrot_02.cs:89-92 | The parameters become `MoveKeys` of the old ones. The flag is set iff it was set or an arrow key is held. |
| Mandelbrot.Mandelbrot02.Update | Assets/Fractal_01/Mandelbrot_02.cs:87-99 | The parameters become `AfterUpdate` of the old ones, with the colour setup and the cache outside the frame. The flag ends set iff it was set or any input was used. |
| Mandelbrot.ResizedFrames | Assets/Fractal_01/Mandelbrot_02.cs:36-45 | A first frame and a later frame of a different size both present the target of the first frame's size. |
| Switcher.LastIndex | Assets/Fractal_01/Component_Switcher.cs:23-26 | The result holds the element, and no later position does. This is the write that decides an aliased behaviour's flag. |
| Switcher.LastIndexSnoc | Assets/Fractal_01/Component_Switcher.cs:23-26 | One more loop step moves an element's last position only if it writes that same element. |
| Switcher.KeyIndices | Assets/Fractal_01/Component_Switcher.cs:9-15 | The indices `Update` activates are in [0, n), strictly increasing, and exactly those whose key went down. |
| Switcher.HighestKeyDown | Assets/Fractal_01/Component_Switcher.cs:9-15 | The result is a key that went down, in [1, m], with no higher key down, or 0 when none in 1..m did. |
| Switcher.LastActivatedIsHighest | Assets/Fractal_01/Component_Switcher.cs:9-15 | Some index is activated iff some key went down, and the last one activated belongs to the highest key. |
| Switcher.ComponentSwitcher.ActivateOnly | Assets/Fractal_01/Component_Switcher.cs:21-27 | The array keeps its length and its elements; only `enabled` flags change. Each behaviour ends enabled iff its last array position is the index. With distinct elements, exactly element k is enabled, and none when k is out of range. A second call changes no flag. |
| Switcher.ComponentSwitcher.Update | Assets/Fractal_01/Component_Switcher.cs:7-19 | Activates the keys' indices in increasing order, so the highest key that went down decides the outcome. With no key down, no flag changes. |

In every engine, the cache is clean after a recompute (`Clean()`): the lookup holds exactly the sample positions its sample function gives, and the last dispatch used the current target, lookup and parameters.

## Behaviours of the source worth knowing

- The dispatch grid uses truncating division (`width / 32`, `width / 8`). At 1080 rows, the 32x32 engines leave the top 24 rows undispatched (`Numerics.FullHdGrids`).
- `pixel_size` has no lower bound in any engine (`Numerics.ZoomStepSign`).
  - In `Julia_01` and `FractalNewton`, a Q (zoom-in) frame of a quarter second or longer without Shift makes it 0 or negative (`Julia.ZoomInCollapse`, `Numerics.ZoomRate`).
  - In `Mandelbrot_02`, a Left Shift (zoom-in) frame of one second or longer does the same, because its step is the frame time itself (`Mandelbrot.ZoomInCollapse`).
- `Julia_01` starts with `iterationsPerGroup = 256`, while its reset writes 64.
- `FractalNewton` starts with `epsilon = 0.001`, while its reset writes 0.01 (`Newton.ResetIdempotent`).
- `Mandelbrot_02` never resizes its target after the first allocation (`Mandelbrot.ResizedFrames`).

## Left out

- Doubles and floats are exact reals. Float rounding, the float literals 0.2f, 0.1f and 0.15f widened to double, and the float `newValue` of the budget keys are not modelled.
- The head/tail double-to-float splitting of the kernel uniforms is left out. It is floating-point rounding behaviour. The recorded dispatch holds the parameter record instead of the individual `SetVector`/`SetFloat`/`SetInt`/`SetBool` uniforms. Julia's screen-size uniforms and Mandelbrot's float casts are not recorded.
- The compute kernel, `FindKernel`, `Create`, `enableRandomWrite` and `Graphics.Blit` are foreign Unity calls. They are modelled only as the `dispatches` and `presented` logs.
- Gradient colours (`gradient.Evaluate`), the `SetPixel` row argument (row 1 on a one-row texture in two engines, row 0 in Newton), `Apply` and the Newton texture format are left out. The model records only the gradient position each texel is sampled at.
- `Input`, `Screen` and `Time` polling become parameters: an `Input` snapshot (keys held, keys pressed this frame, left click, mouse position) and a `Frame` (delta time, screen size).
- `Update` of each engine is split into poll helpers of a few keys each. They run the same handlers in the same order.
- Julia.Julia01.constructor, Newton.FractalNewton.constructor, Mandelbrot.Mandelbrot02.constructor: require a positive screen height, and so do both resets and the `Update` methods that call them. With a zero height the source computes 4.0 / 0 as an infinite `pixel_size`, which reals cannot represent.
- Allocation failure and zero-size render textures are not modelled. Every allocation succeeds.
- A replaced gradient texture is not destroyed in the source. The model does not track its lifetime either.
- Serialized inspector edits are left out. Only their `OnValidate` effect of marking the cache stale is modelled, and inspector values are assumed to lie in their `[Range]` bounds.
- `[ExecuteAlways]` on `FractalNewton` and the `shader` and `gradient` references being unset are not modelled.
- The Escape key's `Application.Quit` in the switcher is process control.
- Switcher.ComponentSwitcher.Update: number keys are a set of integers. For 10 or more components the source asks Unity for a key named "10", which Unity does not know, and the model does not capture that failure.
- Null entries in the switcher's array, and the `OnEnable`/`OnDisable` callbacks that toggling `enabled` triggers, are not modelled.
