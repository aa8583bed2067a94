/** Julia_01: the Julia-set engine. Key handlers change the camera and colour
    parameters and mark the cached image stale; the render hook recomputes
    only when it is stale and presents the cached target on every frame. */
module Julia {
  import opened Unity
  import opened Numerics
  import opened Gradient

  /** The parameters the Julia kernel receives. */
  datatype JuliaParams = JuliaParams(
    imgReal: real, imgImag: real,
    shiftHorizontal: real, shiftVertical: real,
    pixelSize: real, power: real,
    iterationsPerGroup: int, numGroups: int)

  /** The iteration and group counts lie in their inspector ranges. */
  predicate InDomain(p: JuliaParams) {
    1 <= p.iterationsPerGroup <= 256 && 1 <= p.numGroups <= 10
  }

  /** The field initialisers. */
  function Initial(screenHeight: nat): (r: JuliaParams)
    requires screenHeight > 0
    ensures InDomain(r) && r.pixelSize * screenHeight as real == 4.0
  {
    JuliaParams(0.0, 0.0, 0.0, 0.0, 4.0 / screenHeight as real, 2.0, 256, 1)
  }

  /** The table the R key writes. */
  function Defaults(screenHeight: nat): (r: JuliaParams)
    requires screenHeight > 0
    ensures InDomain(r) && r.pixelSize * screenHeight as real == 4.0
    ensures r == Initial(screenHeight).(imgReal := 0.2744, imgImag := 0.0057, iterationsPerGroup := 64)
  {
    JuliaParams(0.2744, 0.0057, 0.0, 0.0, 4.0 / screenHeight as real, 2.0, 64, 1)
  }

  /** World distance one `Shift` call moves the Julia constant: an eighth of
      `Screen.height / 32` pixels per second (truncated), a fifth with Shift. */
  function ShiftAmount(pixelSize: real, shiftHeld: bool, frame: Frame): (r: real)
    ensures pixelSize >= 0.0 && frame.deltaTime >= 0.0 ==> r >= 0.0
  {
    var distance := (frame.screenHeight / 32) as real * pixelSize;
    ProductNonNegative((frame.screenHeight / 32) as real, pixelSize);
    ProductNonNegative(distance, frame.deltaTime);
    distance * frame.deltaTime * 8.0 * (if shiftHeld then 0.2 else 1.0)
  }

  /** World distance one `Move` call pans the view, a tenth with Shift. */
  function MoveAmount(pixelSize: real, shiftHeld: bool, frame: Frame): (r: real)
    ensures pixelSize >= 0.0 && frame.deltaTime >= 0.0 ==> r >= 0.0
  {
    var distance := (frame.screenHeight / 32) as real * pixelSize;
    ProductNonNegative((frame.screenHeight / 32) as real, pixelSize);
    ProductNonNegative(distance, frame.deltaTime);
    distance * frame.deltaTime * 4.0 * (if shiftHeld then 0.1 else 1.0)
  }

  /** `NumGroups(value)`: one key press steps the group count by 2 (by 1 with
      Shift), clamped to [1, 10]. */
  function NextNumGroups(current: int, value: int, shiftHeld: bool): (r: int)
    ensures 1 <= r <= 10
    ensures var stepped := current + value * (if shiftHeld then 1 else 2);
            1 <= stepped <= 10 ==> r == stepped
  {
    Clamp(current + value * (if shiftHeld then 1 else 2), 1, 10)
  }

  /** Effect of `Shift(horizontal, vertical)`: only the shift offsets change. */
  function AfterShift(p: JuliaParams, horizontal: real, vertical: real, shiftHeld: bool, frame: Frame): (r: JuliaParams)
    ensures r == p.(shiftHorizontal := r.shiftHorizontal, shiftVertical := r.shiftVertical)
  {
    var amount := ShiftAmount(p.pixelSize, shiftHeld, frame);
    p.(shiftHorizontal := p.shiftHorizontal + horizontal * amount,
       shiftVertical := p.shiftVertical + vertical * amount)
  }

  /** Effect of `Move(real, imag)`: only the view centre changes. */
  function AfterMove(p: JuliaParams, re: real, im: real, shiftHeld: bool, frame: Frame): (r: JuliaParams)
    ensures r == p.(imgReal := r.imgReal, imgImag := r.imgImag)
  {
    var amount := MoveAmount(p.pixelSize, shiftHeld, frame);
    p.(imgReal := p.imgReal + re * amount, imgImag := p.imgImag + im * amount)
  }

  /** Effect of `Zoom(direction)`: only `pixel_size` changes. */
  function AfterZoom(p: JuliaParams, direction: int, shiftHeld: bool, frame: Frame): (r: JuliaParams)
    ensures r == p.(pixelSize := r.pixelSize)
  {
    p.(pixelSize := ZoomStep(p.pixelSize, direction, ZoomRate(shiftHeld, frame.deltaTime)))
  }

  /** Effect of `Power(pow)`: only the exponent changes, by 2 per second (0.4
      with Shift). */
  function AfterPower(p: JuliaParams, pow: real, shiftHeld: bool, frame: Frame): (r: JuliaParams)
    ensures r == p.(power := r.power)
  {
    p.(power := p.power + pow * frame.deltaTime * (if shiftHeld then 0.2 else 1.0) * 2.0)
  }

  /** Effect of `IterationPerGroup(value)`: only the budget changes, and it
      lands in [1, 256] whatever it was and whatever the rounding gave. */
  function AfterIterationPerGroup(p: JuliaParams, value: int, shiftHeld: bool, frame: Frame): (r: JuliaParams)
    ensures r == p.(iterationsPerGroup := r.iterationsPerGroup)
    ensures 1 <= r.iterationsPerGroup <= 256
  {
    p.(iterationsPerGroup := AdjustedIterations(p.iterationsPerGroup, value, shiftHeld, frame.deltaTime))
  }

  /** Effect of `NumGroups(value)`: only the group count changes, and it lands
      in [1, 10]. */
  function AfterNumGroups(p: JuliaParams, value: int, shiftHeld: bool): (r: JuliaParams)
    ensures r == p.(numGroups := r.numGroups)
    ensures 1 <= r.numGroups <= 10
  {
    p.(numGroups := NextNumGroups(p.numGroups, value, shiftHeld))
  }

  predicate ShiftKeysHeld(input: Input) {
    A in input.held || D in input.held || W in input.held || S in input.held
  }

  predicate MoveKeysHeld(input: Input) {
    LeftArrow in input.held || RightArrow in input.held || UpArrow in input.held || DownArrow in input.held
  }

  predicate ZoomAndPowerKeysHeld(input: Input) {
    Q in input.held || E in input.held || Z in input.held || X in input.held
  }

  predicate CountKeysUsed(input: Input) {
    var h, k := input.held, input.pressed;
    C in h || KeypadPlus in h || V in h || KeypadMinus in h
    || B in k || KeypadMultiply in k || N in k || KeypadDivide in k
  }

  /** Whether `Update` calls any handler in this frame. */
  predicate Touches(input: Input) {
    ShiftKeysHeld(input) || MoveKeysHeld(input) || ZoomAndPowerKeysHeld(input) || CountKeysUsed(input)
    || R in input.pressed
  }

  /** The W, A, S, D keys: `Shift` in the order the source polls them. */
  function ShiftKeys(p: JuliaParams, input: Input, frame: Frame): (r: JuliaParams)
    ensures r == p.(shiftHorizontal := r.shiftHorizontal, shiftVertical := r.shiftVertical)
  {
    var s, h := IsShift(input), input.held;
    var p1 := if A in h then AfterShift(p, -1.0, 0.0, s, frame) else p;
    var p2 := if D in h then AfterShift(p1, 1.0, 0.0, s, frame) else p1;
    var p3 := if W in h then AfterShift(p2, 0.0, 1.0, s, frame) else p2;
    if S in h then AfterShift(p3, 0.0, -1.0, s, frame) else p3
  }

  /** The arrow keys: `Move`. */
  function MoveKeys(p: JuliaParams, input: Input, frame: Frame): (r: JuliaParams)
    ensures r == p.(imgReal := r.imgReal, imgImag := r.imgImag)
  {
    var s, h := IsShift(input), input.held;
    var p1 := if LeftArrow in h then AfterMove(p, -1.0, 0.0, s, frame) else p;
    var p2 := if RightArrow in h then AfterMove(p1, 1.0, 0.0, s, frame) else p1;
    var p3 := if UpArrow in h then AfterMove(p2, 0.0, 1.0, s, frame) else p2;
    if DownArrow in h then AfterMove(p3, 0.0, -1.0, s, frame) else p3
  }

  /** Q zooms in, E zooms out, Z and X lower and raise the power. */
  function ZoomAndPowerKeys(p: JuliaParams, input: Input, frame: Frame): (r: JuliaParams)
    ensures r == p.(pixelSize := r.pixelSize, power := r.power)
  {
    var s, h := IsShift(input), input.held;
    var p1 := if Q in h then AfterZoom(p, -1, s, frame) else p;
    var p2 := if E in h then AfterZoom(p1, 1, s, frame) else p1;
    var p3 := if Z in h then AfterPower(p2, -1.0, s, frame) else p2;
    if X in h then AfterPower(p3, 1.0, s, frame) else p3
  }

  /** C/V (held) adjust the budget, B/N (pressed) step the group count. */
  function CountKeys(p: JuliaParams, input: Input, frame: Frame): (r: JuliaParams)
    requires InDomain(p)
    ensures r == p.(iterationsPerGroup := r.iterationsPerGroup, numGroups := r.numGroups)
    ensures InDomain(r)
  {
    var s, h, k := IsShift(input), input.held, input.pressed;
    var p1 := if C in h || KeypadPlus in h then AfterIterationPerGroup(p, 1, s, frame) else p;
    var p2 := if V in h || KeypadMinus in h then AfterIterationPerGroup(p1, -1, s, frame) else p1;
    var p3 := if B in k || KeypadMultiply in k then AfterNumGroups(p2, 1, s) else p2;
    if N in k || KeypadDivide in k then AfterNumGroups(p3, -1, s) else p3
  }

  /** The parameters after one `Update`: the handlers in the order the source
      polls their keys, then the R key's reset. */
  function AfterUpdate(p: JuliaParams, input: Input, frame: Frame): JuliaParams
    requires InDomain(p) && frame.screenHeight > 0
  {
    var p1 := CountKeys(ZoomAndPowerKeys(MoveKeys(ShiftKeys(p, input, frame), input, frame), input, frame), input, frame);
    if R in input.pressed then Defaults(frame.screenHeight) else p1
  }

  /** No sequence of key presses takes the counts out of their ranges. */
  lemma UpdateKeepsDomains(p: JuliaParams, input: Input, frame: Frame)
    requires InDomain(p) && frame.screenHeight > 0
    ensures InDomain(AfterUpdate(p, input, frame))
  {
  }

  /** The R key overrides every other key of its frame and writes the default
      table, so a second reset frame changes nothing more. */
  lemma ResetWins(p: JuliaParams, input: Input, frame: Frame)
    requires InDomain(p) && R in input.pressed && frame.screenHeight > 0
    ensures AfterUpdate(p, input, frame) == Defaults(frame.screenHeight)
    ensures AfterUpdate(AfterUpdate(p, input, frame), input, frame) == AfterUpdate(p, input, frame)
    ensures InDomain(Defaults(frame.screenHeight))
  {
  }

  /** A frame with none of the engine's keys leaves the parameters as they
      were. */
  lemma IdleUpdate(p: JuliaParams, input: Input, frame: Frame)
    requires InDomain(p) && !Touches(input) && frame.screenHeight > 0
    ensures AfterUpdate(p, input, frame) == p
  {
  }

  /** Holding Q (zoom in) for one frame keeps `pixel_size` positive only while
      the frame is shorter than a quarter second (with Shift, 1/0.6 s); a
      quarter-second frame without Shift takes it to exactly 0. */
  lemma ZoomInCollapse(p: JuliaParams, shiftHeld: bool, frame: Frame)
    requires p.pixelSize > 0.0 && frame.deltaTime >= 0.0
    ensures AfterZoom(p, -1, shiftHeld, frame).pixelSize > 0.0 <==> ZoomRate(shiftHeld, frame.deltaTime) < 1.0
    ensures !shiftHeld && frame.deltaTime == 0.25 ==> AfterZoom(p, -1, shiftHeld, frame).pixelSize == 0.0
  {
    ZoomStepSign(p.pixelSize, -1, ZoomRate(shiftHeld, frame.deltaTime));
  }

  class Julia01 {
    var imgReal: real
    var imgImag: real
    var shiftHorizontal: real
    var shiftVertical: real
    var pixelSize: real
    var power: real
    var iterationsPerGroup: int
    var numGroups: int

    var needsUpdate: bool
    var renderTexture: RenderTexture?
    var gradientTexture: GradientTexture?

    /** Every `shader.Dispatch` and every `Graphics.Blit` source, in order. */
    ghost var dispatches: seq<Dispatch<JuliaParams>>
    ghost var presented: seq<RenderTexture>

    function Params(): JuliaParams
      reads this
    {
      JuliaParams(imgReal, imgImag, shiftHorizontal, shiftVertical, pixelSize, power,
                  iterationsPerGroup, numGroups)
    }

    /** The objects the engine owns. */
    ghost function Repr(): set<object>
      reads this
    {
      {this}
      + (if renderTexture != null then {renderTexture} else {})
      + (if gradientTexture != null then {gradientTexture, gradientTexture.texels} else {})
    }

    /** The cache is up to date: the last dispatch drew the current parameters
        into the current target with the current lookup, and the lookup has
        one texel per iteration step. */
    ghost predicate Clean()
      reads this, Repr()
    {
      && renderTexture != null && gradientTexture != null
      && gradientTexture.width == iterationsPerGroup
      && gradientTexture.texels[..] == GroupLut(iterationsPerGroup)
      && |dispatches| > 0
      && dispatches[|dispatches| - 1].target == renderTexture
      && dispatches[|dispatches| - 1].lut == gradientTexture
      && dispatches[|dispatches| - 1].params == Params()
    }

    ghost predicate Valid()
      reads this, Repr()
    {
      && InDomain(Params())
      && (renderTexture != null ==> !renderTexture.released)
      && (gradientTexture != null ==> gradientTexture.Valid())
      && (!needsUpdate ==> Clean())
    }

    constructor (screenHeight: nat)
      requires screenHeight > 0
      ensures Valid() && fresh(Repr())
      ensures Params() == Initial(screenHeight) && needsUpdate
      ensures renderTexture == null && gradientTexture == null
      ensures dispatches == [] && presented == []
    {
      imgReal, imgImag := 0.0, 0.0;
      shiftHorizontal, shiftVertical := 0.0, 0.0;
      pixelSize := 4.0 / screenHeight as real;
      power := 2.0;
      iterationsPerGroup, numGroups := 256, 1;
      needsUpdate := true;
      renderTexture, gradientTexture := null, null;
      dispatches, presented := [], [];
    }

    /** What one recompute does to the cache, for `UpdateRenderTexture` and
        for the render hook that calls it. */
    twostate predicate Recomputed(width: nat, height: nat, oldTarget: RenderTexture?, oldLut: GradientTexture?)
      reads this, oldTarget, Repr()
    {
      var reallocate := oldTarget == null || oldTarget.width != width || oldTarget.height != height;
      && (reallocate ==> && fresh(renderTexture) && renderTexture != null
                         && renderTexture.width == width && renderTexture.height == height
                         && renderTexture.depth == 24
                         && (oldTarget != null ==> oldTarget.released))
      && (!reallocate ==> renderTexture == oldTarget)
      && (oldLut == null || oldLut.width != iterationsPerGroup ==> fresh(gradientTexture))
      && (oldLut != null && oldLut.width == iterationsPerGroup ==> gradientTexture == oldLut)
      && renderTexture != null && gradientTexture != null
      && dispatches == old(dispatches) + [Dispatch("Julia", renderTexture, gradientTexture,
                                                  GroupsFor(width, 32), GroupsFor(height, 32), Params())]
    }

    /** `UpdateGradient`: sample the gradient once per texel. */
    method UpdateGradient()
      requires gradientTexture != null && gradientTexture.Valid()
      requires gradientTexture.width == iterationsPerGroup
      modifies gradientTexture.texels
      ensures gradientTexture.texels[..] == GroupLut(iterationsPerGroup)
    {
      var texels, n := gradientTexture.texels, iterationsPerGroup;
      for i := 0 to n
        invariant forall j :: 0 <= j < i ==> texels[j] == GroupSample(j, n)
      {
        texels[i] := GroupSample(i, n);
      }
    }

    /** `UpdateRenderTexture(width, height)`: reallocate the target on a size
        change, recreate the lookup on a width change, refill the lookup and
        dispatch a (width/32) x (height/32) grid. */
    method UpdateRenderTexture(width: nat, height: nat)
      requires Valid()
      modifies Repr()
      ensures Valid() && Clean() && fresh(Repr() - old(Repr()))
      ensures Recomputed(width, height, old(renderTexture), old(gradientTexture))
      ensures Params() == old(Params()) && needsUpdate == old(needsUpdate) && presented == old(presented)
    {
      if renderTexture == null || renderTexture.width != width || renderTexture.height != height {
        if renderTexture != null {
          renderTexture.Release();
        }
        renderTexture := new RenderTexture(width, height, 24);
      }
      if gradientTexture == null || iterationsPerGroup != gradientTexture.width {
        gradientTexture := new GradientTexture(iterationsPerGroup);
      }
      UpdateGradient();
      dispatches := dispatches + [Dispatch("Julia", renderTexture, gradientTexture,
                                           GroupsFor(width, 32), GroupsFor(height, 32), Params())];
    }

    /** `OnRenderImage(source, destination)`: recompute iff stale, then blit
        the cached target. */
    method OnRenderImage(sourceWidth: nat, sourceHeight: nat)
      requires Valid()
      modifies Repr()
      ensures Valid() && !needsUpdate && fresh(Repr() - old(Repr()))
      ensures Params() == old(Params())
      ensures old(needsUpdate) ==> Recomputed(sourceWidth, sourceHeight, old(renderTexture), old(gradientTexture))
      ensures !old(needsUpdate) ==> && renderTexture == old(renderTexture)
                                    && gradientTexture == old(gradientTexture)
                                    && dispatches == old(dispatches)
      ensures renderTexture != null && !renderTexture.released
      ensures presented == old(presented) + [renderTexture]
    {
      if needsUpdate {
        UpdateRenderTexture(sourceWidth, sourceHeight);
        needsUpdate := false;
      }
      presented := presented + [renderTexture];
    }

    /** `OnValidate`: an inspector edit marks the cache stale. */
    method OnValidate()
      requires Valid()
      modifies this`needsUpdate
      ensures Valid() && needsUpdate
    {
      needsUpdate := true;
    }

    method Shift(horizontal: real, vertical: real, shiftHeld: bool, frame: Frame)
      requires Valid()
      modifies this`shiftHorizontal, this`shiftVertical, this`needsUpdate
      ensures Valid() && needsUpdate
      ensures Params() == AfterShift(old(Params()), horizontal, vertical, shiftHeld, frame)
    {
      var amount := ShiftAmount(pixelSize, shiftHeld, frame);
      shiftHorizontal := shiftHorizontal + horizontal * amount;
      shiftVertical := shiftVertical + vertical * amount;
      needsUpdate := true;
    }

    method Move(re: real, im: real, shiftHeld: bool, frame: Frame)
      requires Valid()
      modifies this`imgReal, this`imgImag, this`needsUpdate
      ensures Valid() && needsUpdate
      ensures Params() == AfterMove(old(Params()), re, im, shiftHeld, frame)
    {
      var amount := MoveAmount(pixelSize, shiftHeld, frame);
      imgReal := imgReal + re * amount;
      imgImag := imgImag + im * amount;
      needsUpdate := true;
    }

    method Zoom(direction: int, shiftHeld: bool, frame: Frame)
      requires Valid()
      modifies this`pixelSize, this`needsUpdate
      ensures Valid() && needsUpdate
      ensures Params() == AfterZoom(old(Params()), direction, shiftHeld, frame)
    {
      pixelSize := ZoomStep(pixelSize, direction, ZoomRate(shiftHeld, frame.deltaTime));
      needsUpdate := true;
    }

    method Power(pow: real, shiftHeld: bool, frame: Frame)
      requires Valid()
      modifies this`power, this`needsUpdate
      ensures Valid() && needsUpdate
      ensures Params() == AfterPower(old(Params()), pow, shiftHeld, frame)
    {
      var modifier := if shiftHeld then 0.2 else 1.0;
      power := power + pow * frame.deltaTime * modifier * 2.0;
      needsUpdate := true;
    }

    method IterationPerGroup(value: int, shiftHeld: bool, frame: Frame)
      requires Valid()
      modifies this`iterationsPerGroup, this`needsUpdate
      ensures Valid() && needsUpdate
      ensures Params() == AfterIterationPerGroup(old(Params()), value, shiftHeld, frame)
    {
      iterationsPerGroup := AdjustedIterations(iterationsPerGroup, value, shiftHeld, frame.deltaTime);
      needsUpdate := true;
    }

    method NumGroups(value: int, shiftHeld: bool)
      requires Valid()
      modifies this`numGroups, this`needsUpdate
      ensures Valid() && needsUpdate
      ensures Params() == AfterNumGroups(old(Params()), value, shiftHeld)
    {
      numGroups := NextNumGroups(numGroups, value, shiftHeld);
      needsUpdate := true;
    }

    /** The R key's branch of `Update`. */
    method Reset(frame: Frame)
      requires Valid() && frame.screenHeight > 0
      modifies this`imgReal, this`imgImag, this`shiftHorizontal, this`shiftVertical,
               this`pixelSize, this`power, this`iterationsPerGroup, this`numGroups, this`needsUpdate
      ensures Valid() && needsUpdate
      ensures Params() == Defaults(frame.screenHeight)
    {
      imgReal, imgImag := 0.2744, 0.0057;
      shiftHorizontal, shiftVertical := 0.0, 0.0;
      pixelSize := 4.0 / frame.screenHeight as real;
      power := 2.0;
      iterationsPerGroup, numGroups := 64, 1;
      needsUpdate := true;
    }

    /** The W, A, S, D part of `Update`. */
    method PollShiftKeys(input: Input, frame: Frame)
      requires Valid()
      modifies this`shiftHorizontal, this`shiftVertical, this`needsUpdate
      ensures Valid()
      ensures Params() == ShiftKeys(old(Params()), input, frame)
      ensures needsUpdate == (old(needsUpdate) || ShiftKeysHeld(input))
    {
      var s, h := IsShift(input), input.held;
      if A in h { Shift(-1.0, 0.0, s, frame); }
      if D in h { Shift(1.0, 0.0, s, frame); }
      if W in h { Shift(0.0, 1.0, s, frame); }
      if S in h { Shift(0.0, -1.0, s, frame); }
    }

    /** The arrow-key part of `Update`. */
    method PollMoveKeys(input: Input, frame: Frame)
      requires Valid()
      modifies this`imgReal, this`imgImag, this`needsUpdate
      ensures Valid()
      ensures Params() == MoveKeys(old(Params()), input, frame)
      ensures needsUpdate == (old(needsUpdate) || MoveKeysHeld(input))
    {
      var s, h := IsShift(input), input.held;
      if LeftArrow in h { Move(-1.0, 0.0, s, frame); }
      if RightArrow in h { Move(1.0, 0.0, s, frame); }
      if UpArrow in h { Move(0.0, 1.0, s, frame); }
      if DownArrow in h { Move(0.0, -1.0, s, frame); }
    }

    /** The Q, E, Z, X part of `Update`. */
    method PollZoomAndPowerKeys(input: Input, frame: Frame)
      requires Valid()
      modifies this`pixelSize, this`power, this`needsUpdate
      ensures Valid()
      ensures Params() == ZoomAndPowerKeys(old(Params()), input, frame)
      ensures needsUpdate == (old(needsUpdate) || ZoomAndPowerKeysHeld(input))
    {
      var s, h := IsShift(input), input.held;
      if Q in h { Zoom(-1, s, frame); }
      if E in h { Zoom(1, s, frame); }
      if Z in h { Power(-1.0, s, frame); }
      if X in h { Power(1.0, s, frame); }
    }

    /** The C, V, B, N part of `Update`. */
    method PollCountKeys(input: Input, frame: Frame)
      requires Valid()
      modifies this`iterationsPerGroup, this`numGroups, this`needsUpdate
      ensures Valid()
      ensures Params() == CountKeys(old(Params()), input, frame)
      ensures needsUpdate == (old(needsUpdate) || CountKeysUsed(input))
    {
      var s, h, k := IsShift(input), input.held, input.pressed;
      if C in h || KeypadPlus in h { IterationPerGroup(1, s, frame); }
      if V in h || KeypadMinus in h { IterationPerGroup(-1, s, frame); }
      if B in k || KeypadMultiply in k { NumGroups(1, s); }
      if N in k || KeypadDivide in k { NumGroups(-1, s); }
    }

    /** `Update`: poll the keys and call the handlers in the source's order;
        the render cache is not touched. */
    method Update(input: Input, frame: Frame)
      requires Valid() && frame.screenHeight > 0
      modifies this`imgReal, this`imgImag, this`shiftHorizontal, this`shiftVertical,
               this`pixelSize, this`power, this`iterationsPerGroup, this`numGroups, this`needsUpdate
      ensures Valid()
      ensures Params() == AfterUpdate(old(Params()), input, frame)
      ensures needsUpdate == (old(needsUpdate) || Touches(input))
    {
      PollShiftKeys(input, frame);
      PollMoveKeys(input, frame);
      PollZoomAndPowerKeys(input, frame);
      PollCountKeys(input, frame);
      if R in input.pressed { Reset(frame); }
    }
  }

  /** Two frames with no input between them: the second one dispatches
      nothing and presents the same target as the first. */
  method StaticFrames(engine: Julia01, width: nat, height: nat)
    requires engine.Valid()
    modifies engine.Repr()
    ensures engine.Valid() && !engine.needsUpdate
    ensures |engine.dispatches| <= |old(engine.dispatches)| + 1
    ensures |engine.presented| == |old(engine.presented)| + 2
    ensures engine.presented[|engine.presented| - 1] == engine.presented[|engine.presented| - 2]
  {
    engine.OnRenderImage(width, height);
    engine.OnRenderImage(width, height);
  }
}
