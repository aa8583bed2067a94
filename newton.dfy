/** FractalNewton: the Newton-basin engine. Unlike the other two engines it
    also recomputes when its target is missing or has the wrong size, it
    reallocates the target on every recompute, and its gradient lookup has a
    fixed 256 texels. */
module Newton {
  import opened Unity
  import opened Numerics
  import opened Gradient

  /** The parameters the Newton kernel receives. */
  datatype NewtonParams = NewtonParams(
    imgReal: real, imgImag: real, pixelSize: real,
    maxIterations: int, epsilon: real, useBasins: bool)

  /** The field initialisers. */
  function Initial(screenHeight: nat): (r: NewtonParams)
    requires screenHeight > 0
    ensures 1 <= r.maxIterations <= 256 && r.pixelSize * screenHeight as real == 4.0
  {
    NewtonParams(0.0, 0.0, 4.0 / screenHeight as real, 64, 0.001, true)
  }

  /** The R key's branch of `Update`: it writes the view, the budget and
      `epsilon`, and leaves `useBasins` alone. */
  function AfterReset(p: NewtonParams, screenHeight: nat): (r: NewtonParams)
    requires screenHeight > 0
    ensures r.useBasins == p.useBasins
    ensures r.imgReal == 0.0 && r.imgImag == 0.0 && r.pixelSize * screenHeight as real == 4.0
    ensures r.maxIterations == 64 && r.epsilon == 0.01
  {
    p.(imgReal := 0.0, imgImag := 0.0, pixelSize := 4.0 / screenHeight as real,
       maxIterations := 64, epsilon := 0.01)
  }

  /** Resetting twice is resetting once, and a reset does not give back the
      initial `epsilon` of 0.001: it writes 0.01. */
  lemma ResetIdempotent(p: NewtonParams, screenHeight: nat)
    requires screenHeight > 0
    ensures AfterReset(AfterReset(p, screenHeight), screenHeight) == AfterReset(p, screenHeight)
    ensures AfterReset(Initial(screenHeight), screenHeight) != Initial(screenHeight)
    ensures AfterReset(Initial(screenHeight), screenHeight) == Initial(screenHeight).(epsilon := 0.01)
  {
  }

  /** World distance one `Move` call pans the view: `Screen.height / 2`
      (truncated) pixels times 3 per second, a fifth with Shift. */
  function MoveAmount(pixelSize: real, shiftHeld: bool, frame: Frame): (r: real)
    ensures pixelSize >= 0.0 && frame.deltaTime >= 0.0 ==> r >= 0.0
  {
    var distance := (frame.screenHeight / 2) as real * pixelSize;
    ProductNonNegative((frame.screenHeight / 2) as real, pixelSize);
    ProductNonNegative(distance, frame.deltaTime);
    distance * frame.deltaTime * 3.0 * (if shiftHeld then 0.2 else 1.0)
  }

  /** Effect of `Move(real, imag)`: only the view centre changes. */
  function AfterMove(p: NewtonParams, re: real, im: real, shiftHeld: bool, frame: Frame): (r: NewtonParams)
    ensures r == p.(imgReal := r.imgReal, imgImag := r.imgImag)
  {
    var amount := MoveAmount(p.pixelSize, shiftHeld, frame);
    p.(imgReal := p.imgReal + re * amount, imgImag := p.imgImag + im * amount)
  }

  /** Effect of `Zoom(direction)`: only `pixel_size` changes. */
  function AfterZoom(p: NewtonParams, direction: int, shiftHeld: bool, frame: Frame): (r: NewtonParams)
    ensures r == p.(pixelSize := r.pixelSize)
  {
    p.(pixelSize := ZoomStep(p.pixelSize, direction, ZoomRate(shiftHeld, frame.deltaTime)))
  }

  /** Effect of `MaxIterations(value)`: only the budget changes, and it lands
      in [1, 256] whatever the rounding gave. */
  function AfterMaxIterations(p: NewtonParams, value: int, shiftHeld: bool, frame: Frame): (r: NewtonParams)
    ensures r == p.(maxIterations := r.maxIterations)
    ensures 1 <= r.maxIterations <= 256
  {
    p.(maxIterations := AdjustedIterations(p.maxIterations, value, shiftHeld, frame.deltaTime))
  }

  predicate MoveKeysHeld(input: Input) {
    var h := input.held;
    LeftArrow in h || A in h || RightArrow in h || D in h || UpArrow in h || W in h || DownArrow in h || S in h
  }

  predicate ZoomAndIterationKeysHeld(input: Input) {
    var h := input.held;
    Q in h || E in h || C in h || KeypadPlus in h || V in h || KeypadMinus in h
  }

  /** Whether `Update` calls any handler in this frame. */
  predicate Touches(input: Input) {
    MoveKeysHeld(input) || ZoomAndIterationKeysHeld(input) || R in input.pressed
  }

  /** The arrow keys and W, A, S, D: `Move`. */
  function MoveKeys(p: NewtonParams, input: Input, frame: Frame): (r: NewtonParams)
    ensures r == p.(imgReal := r.imgReal, imgImag := r.imgImag)
  {
    var s, h := IsShift(input), input.held;
    var p1 := if LeftArrow in h || A in h then AfterMove(p, -1.0, 0.0, s, frame) else p;
    var p2 := if RightArrow in h || D in h then AfterMove(p1, 1.0, 0.0, s, frame) else p1;
    var p3 := if UpArrow in h || W in h then AfterMove(p2, 0.0, 1.0, s, frame) else p2;
    if DownArrow in h || S in h then AfterMove(p3, 0.0, -1.0, s, frame) else p3
  }

  /** Q and E zoom, C and V adjust the budget. */
  function ZoomAndIterationKeys(p: NewtonParams, input: Input, frame: Frame): (r: NewtonParams)
    requires 1 <= p.maxIterations <= 256
    ensures r == p.(pixelSize := r.pixelSize, maxIterations := r.maxIterations)
    ensures 1 <= r.maxIterations <= 256
  {
    var s, h := IsShift(input), input.held;
    var p1 := if Q in h then AfterZoom(p, -1, s, frame) else p;
    var p2 := if E in h then AfterZoom(p1, 1, s, frame) else p1;
    var p3 := if C in h || KeypadPlus in h then AfterMaxIterations(p2, 1, s, frame) else p2;
    if V in h || KeypadMinus in h then AfterMaxIterations(p3, -1, s, frame) else p3
  }

  /** The parameters after one `Update`. */
  function AfterUpdate(p: NewtonParams, input: Input, frame: Frame): NewtonParams
    requires 1 <= p.maxIterations <= 256 && frame.screenHeight > 0
  {
    var p1 := ZoomAndIterationKeys(MoveKeys(p, input, frame), input, frame);
    if R in input.pressed then AfterReset(p1, frame.screenHeight) else p1
  }

  /** No key changes `epsilon` or `useBasins` except the reset, which writes
      `epsilon` and still leaves `useBasins`; the budget stays in [1, 256]. */
  lemma UpdateFootprint(p: NewtonParams, input: Input, frame: Frame)
    requires 1 <= p.maxIterations <= 256 && frame.screenHeight > 0
    ensures AfterUpdate(p, input, frame).useBasins == p.useBasins
    ensures R !in input.pressed ==> AfterUpdate(p, input, frame).epsilon == p.epsilon
    ensures 1 <= AfterUpdate(p, input, frame).maxIterations <= 256
  {
  }

  class FractalNewton {
    var useBasins: bool
    var imgReal: real
    var imgImag: real
    var pixelSize: real
    var maxIterations: int
    var epsilon: real

    var gradientTexture: GradientTexture?
    var renderTexture: RenderTexture?
    var needsUpdate: bool

    /** Every `shader.Dispatch` and every `Graphics.Blit` source, in order. */
    ghost var dispatches: seq<Dispatch<NewtonParams>>
    ghost var presented: seq<RenderTexture>

    function Params(): NewtonParams
      reads this
    {
      NewtonParams(imgReal, imgImag, pixelSize, maxIterations, epsilon, useBasins)
    }

    /** The objects the engine owns. */
    ghost function Repr(): set<object>
      reads this
    {
      {this}
      + (if renderTexture != null then {renderTexture} else {})
      + (if gradientTexture != null then {gradientTexture, gradientTexture.texels} else {})
    }

    /** The cache is up to date: the last dispatch drew the current parameters
        into the current target with the 256-texel lookup. */
    ghost predicate Clean()
      reads this, Repr()
    {
      && renderTexture != null && gradientTexture != null
      && gradientTexture.width == 256
      && gradientTexture.texels[..] == NewtonLut()
      && |dispatches| > 0
      && dispatches[|dispatches| - 1].target == renderTexture
      && dispatches[|dispatches| - 1].lut == gradientTexture
      && dispatches[|dispatches| - 1].params == Params()
    }

    ghost predicate Valid()
      reads this, Repr()
    {
      && 1 <= maxIterations <= 256
      && (renderTexture != null ==> !renderTexture.released)
      && (gradientTexture != null ==> gradientTexture.Valid())
      && (!needsUpdate ==> Clean())
    }

    constructor (screenHeight: nat)
      requires screenHeight > 0
      ensures Valid() && fresh(Repr())
      ensures Params() == Initial(screenHeight) && needsUpdate
      ensures renderTexture == null && gradientTexture == null
      ensures dispatches == [] && presented == []
    {
      useBasins := true;
      imgReal, imgImag := 0.0, 0.0;
      pixelSize := 4.0 / screenHeight as real;
      maxIterations := 64;
      epsilon := 0.001;
      gradientTexture, renderTexture := null, null;
      needsUpdate := true;
      dispatches, presented := [], [];
    }

    /** Whether the render hook must recompute: the flag, a missing target or
        a target whose size differs from the source's. */
    predicate Stale(sourceWidth: nat, sourceHeight: nat)
      reads this
    {
      needsUpdate || renderTexture == null
      || renderTexture.width != sourceWidth || renderTexture.height != sourceHeight
    }

    /** What one recompute does to the cache. */
    twostate predicate Recomputed(width: nat, height: nat, oldTarget: RenderTexture?, oldLut: GradientTexture?)
      reads this, oldTarget, Repr()
    {
      && renderTexture != null && fresh(renderTexture)
      && renderTexture.width == width && renderTexture.height == height && renderTexture.depth == 0
      && (oldTarget != null ==> oldTarget.released)
      && gradientTexture != null
      && (oldLut == null || oldLut.width != 256 ==> fresh(gradientTexture))
      && (oldLut != null && oldLut.width == 256 ==> gradientTexture == oldLut)
      && dispatches == old(dispatches) + [Dispatch("Newton", renderTexture, gradientTexture,
                                                  GroupsFor(width, 8), GroupsFor(height, 8), Params())]
    }

    /** `UpdateGradient`: make sure the lookup is 256 wide, then sample the
        gradient at i/255 for each texel. */
    method UpdateGradient()
      requires gradientTexture != null ==> gradientTexture.Valid()
      modifies this`gradientTexture, if gradientTexture != null then {gradientTexture.texels} else {}
      ensures gradientTexture != null && gradientTexture.Valid() && gradientTexture.width == 256
      ensures old(gradientTexture) == null || old(gradientTexture).width != 256 ==> fresh(gradientTexture)
      ensures old(gradientTexture) != null && old(gradientTexture).width == 256 ==> gradientTexture == old(gradientTexture)
      ensures fresh(gradientTexture.texels) || gradientTexture.texels in old(Repr())
      ensures gradientTexture.texels[..] == NewtonLut()
    {
      if gradientTexture == null || gradientTexture.width != 256 {
        gradientTexture := new GradientTexture(256);
      }
      var texels := gradientTexture.texels;
      for i := 0 to 256
        modifies texels
        invariant forall j :: 0 <= j < i ==> texels[j] == NewtonSample(j)
      {
        texels[i] := NewtonSample(i);
      }
    }

    /** `UpdateRenderTexture(width, height)`: release the old target, allocate
        a fresh one of the requested size, refresh the lookup and dispatch a
        (width/8) x (height/8) grid. */
    method UpdateRenderTexture(width: nat, height: nat)
      requires Valid()
      modifies Repr()
      ensures Valid() && Clean() && fresh(Repr() - old(Repr()))
      ensures Recomputed(width, height, old(renderTexture), old(gradientTexture))
      ensures Params() == old(Params()) && needsUpdate == old(needsUpdate) && presented == old(presented)
    {
      if renderTexture != null {
        renderTexture.Release();
      }
      renderTexture := new RenderTexture(width, height, 0);
      UpdateGradient();
      dispatches := dispatches + [Dispatch("Newton", renderTexture, gradientTexture,
                                           GroupsFor(width, 8), GroupsFor(height, 8), Params())];
    }

    /** `OnRenderImage(src, dest)`: recompute when stale, then blit the cached
        target, which therefore always has the source's size. */
    method OnRenderImage(sourceWidth: nat, sourceHeight: nat)
      requires Valid()
      modifies Repr()
      ensures Valid() && !needsUpdate && fresh(Repr() - old(Repr()))
      ensures Params() == old(Params())
      ensures old(Stale(sourceWidth, sourceHeight)) ==>
                Recomputed(sourceWidth, sourceHeight, old(renderTexture), old(gradientTexture))
      ensures !old(Stale(sourceWidth, sourceHeight)) ==>
                && renderTexture == old(renderTexture)
                && gradientTexture == old(gradientTexture)
                && dispatches == old(dispatches)
      ensures renderTexture != null && !renderTexture.released
      ensures renderTexture.width == sourceWidth && renderTexture.height == sourceHeight
      ensures presented == old(presented) + [renderTexture]
    {
      if needsUpdate || renderTexture == null
         || renderTexture.width != sourceWidth || renderTexture.height != sourceHeight {
        UpdateRenderTexture(sourceWidth, sourceHeight);
        needsUpdate := false;
      }
      presented := presented + [renderTexture];
    }

    /** `OnValidate`: an inspector edit marks the cache stale. */
    method OnValidate()
      requires Valid()
      modifies this`needsUpdate
      ensures Valid() && needsUpdate
    {
      needsUpdate := true;
    }

    method MaxIterations(value: int, shiftHeld: bool, frame: Frame)
      requires Valid()
      modifies this`maxIterations, this`needsUpdate
      ensures Valid() && needsUpdate
      ensures Params() == AfterMaxIterations(old(Params()), value, shiftHeld, frame)
    {
      maxIterations := AdjustedIterations(maxIterations, value, shiftHeld, frame.deltaTime);
      needsUpdate := true;
    }

    method Move(re: real, im: real, shiftHeld: bool, frame: Frame)
      requires Valid()
      modifies this`imgReal, this`imgImag, this`needsUpdate
      ensures Valid() && needsUpdate
      ensures Params() == AfterMove(old(Params()), re, im, shiftHeld, frame)
    {
      var amount := MoveAmount(pixelSize, shiftHeld, frame);
      imgReal := imgReal + re * amount;
      imgImag := imgImag + im * amount;
      needsUpdate := true;
    }

    method Zoom(direction: int, shiftHeld: bool, frame: Frame)
      requires Valid()
      modifies this`pixelSize, this`needsUpdate
      ensures Valid() && needsUpdate
      ensures Params() == AfterZoom(old(Params()), direction, shiftHeld, frame)
    {
      pixelSize := ZoomStep(pixelSize, direction, ZoomRate(shiftHeld, frame.deltaTime));
      needsUpdate := true;
    }

    /** The R key's branch of `Update`. */
    method Reset(frame: Frame)
      requires Valid() && frame.screenHeight > 0
      modifies this`imgReal, this`imgImag, this`pixelSize, this`maxIterations, this`epsilon, this`needsUpdate
      ensures Valid() && needsUpdate
      ensures Params() == AfterReset(old(Params()), frame.screenHeight)
    {
      imgReal, imgImag := 0.0, 0.0;
      pixelSize := 4.0 / frame.screenHeight as real;
      maxIterations := 64;
      epsilon := 0.01;
      needsUpdate := true;
    }

    /** The arrow-key and W, A, S, D part of `Update`. */
    method PollMoveKeys(input: Input, frame: Frame)
      requires Valid()
      modifies this`imgReal, this`imgImag, this`needsUpdate
      ensures Valid()
      ensures Params() == MoveKeys(old(Params()), input, frame)
      ensures needsUpdate == (old(needsUpdate) || MoveKeysHeld(input))
    {
      var s, h := IsShift(input), input.held;
      if LeftArrow in h || A in h { Move(-1.0, 0.0, s, frame); }
      if RightArrow in h || D in h { Move(1.0, 0.0, s, frame); }
      if UpArrow in h || W in h { Move(0.0, 1.0, s, frame); }
      if DownArrow in h || S in h { Move(0.0, -1.0, s, frame); }
    }

    /** The Q, E, C, V part of `Update`. */
    method PollZoomAndIterationKeys(input: Input, frame: Frame)
      requires Valid()
      modifies this`pixelSize, this`maxIterations, this`needsUpdate
      ensures Valid()
      ensures Params() == ZoomAndIterationKeys(old(Params()), input, frame)
      ensures needsUpdate == (old(needsUpdate) || ZoomAndIterationKeysHeld(input))
    {
      var s, h := IsShift(input), input.held;
      if Q in h { Zoom(-1, s, frame); }
      if E in h { Zoom(1, s, frame); }
      if C in h || KeypadPlus in h { MaxIterations(1, s, frame); }
      if V in h || KeypadMinus in h { MaxIterations(-1, s, frame); }
    }

    /** `Update`: poll the keys and call the handlers in the source's order;
        the render cache and `useBasins` are not touched. */
    method Update(input: Input, frame: Frame)
      requires Valid() && frame.screenHeight > 0
      modifies this`imgReal, this`imgImag, this`pixelSize, this`maxIterations, this`epsilon, this`needsUpdate
      ensures Valid()
      ensures Params() == AfterUpdate(old(Params()), input, frame)
      ensures needsUpdate == (old(needsUpdate) || Touches(input))
    {
      PollMoveKeys(input, frame);
      PollZoomAndIterationKeys(input, frame);
      if R in input.pressed { Reset(frame); }
    }
  }

  /** Two frames of the same size with no input between them: the second
      one dispatches nothing and presents the same target. */
  method StaticFrames(engine: FractalNewton, width: nat, height: nat)
    requires engine.Valid()
    modifies engine.Repr()
    ensures engine.Valid() && !engine.needsUpdate
    ensures |engine.dispatches| <= |old(engine.dispatches)| + 1
    ensures |engine.presented| == |old(engine.presented)| + 2
    ensures engine.presented[|engine.presented| - 1] == engine.presented[|engine.presented| - 2]
  {
    engine.OnRenderImage(width, height);
    engine.OnRenderImage(width, height);
  }
}
