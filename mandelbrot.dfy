/** Mandelbrot_02: the Mandelbrot engine. It recomputes only when its flag is
    set, allocates its target once and never resizes it, has no reset key,
    and no key changes its colour setup. */
module Mandelbrot {
  import opened Unity
  import opened Numerics
  import opened Gradient

  /** The parameters the Mandelbrot kernel receives (the source sends the
      doubles as plain single-precision casts, with no head/tail split). */
  datatype MandelbrotParams = MandelbrotParams(
    imgReal: real, imgImag: real, pixelSize: real,
    iterationsPerGroup: int, numGroups: int)

  /** The field initialisers. */
  function Initial(screenHeight: nat): (r: MandelbrotParams)
    requires screenHeight > 0
    ensures 1 <= r.iterationsPerGroup <= 256 && 1 <= r.numGroups <= 10
    ensures r.pixelSize * screenHeight as real == 4.0
  {
    MandelbrotParams(0.0, 0.0, 4.0 / screenHeight as real, 256, 1)
  }

  /** Effect of `CenterOnMouse`: the point under the cursor, at its offset
      from the (truncated) screen centre times `pixel_size`, becomes the view
      centre; only the view centre changes. */
  function AfterCenterOnMouse(p: MandelbrotParams, mouseX: real, mouseY: real, frame: Frame): (r: MandelbrotParams)
    ensures r == p.(imgReal := r.imgReal, imgImag := r.imgImag)
    ensures mouseX == (frame.screenWidth / 2) as real && mouseY == (frame.screenHeight / 2) as real ==> r == p
  {
    var dx := mouseX - (frame.screenWidth / 2) as real;
    var dy := mouseY - (frame.screenHeight / 2) as real;
    p.(imgReal := p.imgReal + dx * p.pixelSize, imgImag := p.imgImag + dy * p.pixelSize)
  }

  /** World distance one `Move` call pans the view: `Screen.height / 8`
      (truncated) pixels times 2 per second. */
  function MoveAmount(pixelSize: real, frame: Frame): (r: real)
    ensures pixelSize >= 0.0 && frame.deltaTime >= 0.0 ==> r >= 0.0
  {
    var distance := (frame.screenHeight / 8) as real * pixelSize;
    ProductNonNegative((frame.screenHeight / 8) as real, pixelSize);
    ProductNonNegative(distance, frame.deltaTime);
    distance * frame.deltaTime * 2.0
  }

  /** Effect of `Move(real, imag)`: only the view centre changes. */
  function AfterMove(p: MandelbrotParams, re: real, im: real, frame: Frame): (r: MandelbrotParams)
    ensures r == p.(imgReal := r.imgReal, imgImag := r.imgImag)
  {
    var amount := MoveAmount(p.pixelSize, frame);
    p.(imgReal := p.imgReal + re * amount, imgImag := p.imgImag + im * amount)
  }

  /** Effect of `Zoom(direction)`: only `pixel_size` changes, by the frame
      time as a fraction of itself (`Mathf.Min` of one value is that value). */
  function AfterZoom(p: MandelbrotParams, direction: int, frame: Frame): (r: MandelbrotParams)
    ensures r == p.(pixelSize := r.pixelSize)
  {
    p.(pixelSize := ZoomStep(p.pixelSize, direction, frame.deltaTime))
  }

  predicate MoveKeysHeld(input: Input) {
    LeftArrow in input.held || RightArrow in input.held || UpArrow in input.held || DownArrow in input.held
  }

  /** Whether `Update` calls any handler in this frame. */
  predicate Touches(input: Input) {
    MoveKeysHeld(input) || LeftShift in input.held || LeftControl in input.held || input.mouseDown
  }

  /** The arrow keys: `Move`. */
  function MoveKeys(p: MandelbrotParams, input: Input, frame: Frame): (r: MandelbrotParams)
    ensures r == p.(imgReal := r.imgReal, imgImag := r.imgImag)
  {
    var h := input.held;
    var p1 := if LeftArrow in h then AfterMove(p, -1.0, 0.0, frame) else p;
    var p2 := if RightArrow in h then AfterMove(p1, 1.0, 0.0, frame) else p1;
    var p3 := if UpArrow in h then AfterMove(p2, 0.0, 1.0, frame) else p2;
    if DownArrow in h then AfterMove(p3, 0.0, -1.0, frame) else p3
  }

  /** Left Shift zooms in, Left Control zooms out, a left click recentres. */
  function ZoomAndMouse(p: MandelbrotParams, input: Input, frame: Frame): (r: MandelbrotParams)
    ensures r == p.(imgReal := r.imgReal, imgImag := r.imgImag, pixelSize := r.pixelSize)
  {
    var p1 := if LeftShift in input.held then AfterZoom(p, -1, frame) else p;
    var p2 := if LeftControl in input.held then AfterZoom(p1, 1, frame) else p1;
    if input.mouseDown then AfterCenterOnMouse(p2, input.mouseX, input.mouseY, frame) else p2
  }

  /** The parameters after one `Update`. */
  function AfterUpdate(p: MandelbrotParams, input: Input, frame: Frame): MandelbrotParams {
    ZoomAndMouse(MoveKeys(p, input, frame), input, frame)
  }

  /** No input changes the colour setup: `iterationsPerGroup` and `numGroups`
      come out of every `Update` as they went in. */
  lemma UpdateKeepsColourSetup(p: MandelbrotParams, input: Input, frame: Frame)
    ensures AfterUpdate(p, input, frame).iterationsPerGroup == p.iterationsPerGroup
    ensures AfterUpdate(p, input, frame).numGroups == p.numGroups
    ensures !Touches(input) ==> AfterUpdate(p, input, frame) == p
  {
  }

  /** Holding Left Shift (zoom in) for one frame keeps `pixel_size` positive
      only while the frame is shorter than one second; a one-second frame
      takes it to exactly 0. */
  lemma ZoomInCollapse(p: MandelbrotParams, frame: Frame)
    requires p.pixelSize > 0.0
    ensures AfterZoom(p, -1, frame).pixelSize > 0.0 <==> frame.deltaTime < 1.0
    ensures frame.deltaTime == 1.0 ==> AfterZoom(p, -1, frame).pixelSize == 0.0
  {
    ZoomStepSign(p.pixelSize, -1, frame.deltaTime);
  }

  class Mandelbrot02 {
    var renderTexture: RenderTexture?
    var needsUpdate: bool

    var imgReal: real
    var imgImag: real
    var pixelSize: real

    var iterationsPerGroup: int
    var numGroups: int

    var gradientTexture: GradientTexture?

    /** Every `shader.Dispatch` and every `Graphics.Blit` source, in order. */
    ghost var dispatches: seq<Dispatch<MandelbrotParams>>
    ghost var presented: seq<RenderTexture>

    function Params(): MandelbrotParams
      reads this
    {
      MandelbrotParams(imgReal, imgImag, pixelSize, iterationsPerGroup, numGroups)
    }

    /** The objects the engine owns. */
    ghost function Repr(): set<object>
      reads this
    {
      {this}
      + (if renderTexture != null then {renderTexture} else {})
      + (if gradientTexture != null then {gradientTexture, gradientTexture.texels} else {})
    }

    /** The cache is up to date: the last dispatch drew the current parameters
        into the current target with the current lookup. */
    ghost predicate Clean()
      reads this, Repr()
    {
      && renderTexture != null && gradientTexture != null
      && gradientTexture.width == iterationsPerGroup
      && gradientTexture.texels[..] == GroupLut(iterationsPerGroup)
      && |dispatches| > 0
      && dispatches[|dispatches| - 1].target == renderTexture
      && dispatches[|dispatches| - 1].lut == gradientTexture
      && dispatches[|dispatches| - 1].params == Params()
    }

    ghost predicate Valid()
      reads this, Repr()
    {
      && 1 <= iterationsPerGroup <= 256 && 1 <= numGroups <= 10
      && (renderTexture != null ==> !renderTexture.released)
      && (gradientTexture != null ==> gradientTexture.Valid())
      && (!needsUpdate ==> Clean())
    }

    constructor (screenHeight: nat)
      requires screenHeight > 0
      ensures Valid() && fresh(Repr())
      ensures Params() == Initial(screenHeight) && needsUpdate
      ensures renderTexture == null && gradientTexture == null
      ensures dispatches == [] && presented == []
    {
      renderTexture := null;
      needsUpdate := true;
      imgReal, imgImag := 0.0, 0.0;
      pixelSize := 4.0 / screenHeight as real;
      iterationsPerGroup, numGroups := 256, 1;
      gradientTexture := null;
      dispatches, presented := [], [];
    }

    /** What one recompute does to the cache. */
    twostate predicate Recomputed(width: nat, height: nat, oldTarget: RenderTexture?, oldLut: GradientTexture?)
      reads this, Repr()
    {
      && renderTexture != null && gradientTexture != null
      && (oldTarget == null ==> && fresh(renderTexture)
                                && renderTexture.width == width && renderTexture.height == height
                                && renderTexture.depth == 24)
      && (oldTarget != null ==> renderTexture == oldTarget)
      && (oldLut == null || oldLut.width != iterationsPerGroup ==> fresh(gradientTexture))
      && (oldLut != null && oldLut.width == iterationsPerGroup ==> gradientTexture == oldLut)
      && dispatches == old(dispatches) + [Dispatch("Mandelbrot", renderTexture, gradientTexture,
                                                  GroupsFor(width, 32), GroupsFor(height, 32), Params())]
    }

    /** `UpdateGradient`: sample the gradient once per texel. */
    method UpdateGradient()
      requires gradientTexture != null && gradientTexture.Valid()
      requires gradientTexture.width == iterationsPerGroup
      modifies gradientTexture.texels
      ensures gradientTexture.texels[..] == GroupLut(iterationsPerGroup)
    {
      var texels, n := gradientTexture.texels, iterationsPerGroup;
      for i := 0 to n
        invariant forall j :: 0 <= j < i ==> texels[j] == GroupSample(j, n)
      {
        texels[i] := GroupSample(i, n);
      }
    }

    /** `UpdateRenderTexture(width, height)`: allocate the target only if
        there is none, recreate the lookup on a width change, refill it and
        dispatch a (width/32) x (height/32) grid, sized from the source even
        when the target kept an older size. */
    method UpdateRenderTexture(width: nat, height: nat)
      requires Valid()
      modifies Repr()
      ensures Valid() && Clean() && fresh(Repr() - old(Repr()))
      ensures Recomputed(width, height, old(renderTexture), old(gradientTexture))
      ensures Params() == old(Params()) && needsUpdate == old(needsUpdate) && presented == old(presented)
    {
      if renderTexture == null {
        renderTexture := new RenderTexture(width, height, 24);
      }
      if gradientTexture == null || iterationsPerGroup != gradientTexture.width {
        gradientTexture := new GradientTexture(iterationsPerGroup);
      }
      UpdateGradient();
      dispatches := dispatches + [Dispatch("Mandelbrot", renderTexture, gradientTexture,
                                           GroupsFor(width, 32), GroupsFor(height, 32), Params())];
    }

    /** `OnRenderImage(source, destination)`: recompute iff the flag is set
        (there is no size check), then blit the cached target. Once a target
        exists it is the one presented for the engine's whole life. */
    method OnRenderImage(sourceWidth: nat, sourceHeight: nat)
      requires Valid()
      modifies Repr()
      ensures Valid() && !needsUpdate && fresh(Repr() - old(Repr()))
      ensures Params() == old(Params())
      ensures old(needsUpdate) ==> Recomputed(sourceWidth, sourceHeight, old(renderTexture), old(gradientTexture))
      ensures !old(needsUpdate) ==> && renderTexture == old(renderTexture)
                                    && gradientTexture == old(gradientTexture)
                                    && dispatches == old(dispatches)
      ensures old(renderTexture) != null ==> renderTexture == old(renderTexture)
      ensures renderTexture != null && !renderTexture.released
      ensures presented == old(presented) + [renderTexture]
    {
      if needsUpdate {
        UpdateRenderTexture(sourceWidth, sourceHeight);
        needsUpdate := false;
      }
      presented := presented + [renderTexture];
    }

    /** `OnValidate`: an inspector edit marks the cache stale. */
    method OnValidate()
      requires Valid()
      modifies this`needsUpdate
      ensures Valid() && needsUpdate
    {
      needsUpdate := true;
    }

    method CenterOnMouse(mouseX: real, mouseY: real, frame: Frame)
      requires Valid()
      modifies this`imgReal, this`imgImag, this`needsUpdate
      ensures Valid() && needsUpdate
      ensures Params() == AfterCenterOnMouse(old(Params()), mouseX, mouseY, frame)
    {
      var dx := mouseX - (frame.screenWidth / 2) as real;
      var dy := mouseY - (frame.screenHeight / 2) as real;
      imgReal := imgReal + dx * pixelSize;
      imgImag := imgImag + dy * pixelSize;
      needsUpdate := true;
    }

    method Move(re: real, im: real, frame: Frame)
      requires Valid()
      modifies this`imgReal, this`imgImag, this`needsUpdate
      ensures Valid() && needsUpdate
      ensures Params() == AfterMove(old(Params()), re, im, frame)
    {
      var amount := MoveAmount(pixelSize, frame);
      imgReal := imgReal + re * amount;
      imgImag := imgImag + im * amount;
      needsUpdate := true;
    }

    method Zoom(direction: int, frame: Frame)
      requires Valid()
      modifies this`pixelSize, this`needsUpdate
      ensures Valid() && needsUpdate
      ensures Params() == AfterZoom(old(Params()), direction, frame)
    {
      pixelSize := ZoomStep(pixelSize, direction, frame.deltaTime);
      needsUpdate := true;
    }

    /** The arrow-key part of `Update`. */
    method PollMoveKeys(input: Input, frame: Frame)
      requires Valid()
      modifies this`imgReal, this`imgImag, this`needsUpdate
      ensures Valid()
      ensures Params() == MoveKeys(old(Params()), input, frame)
      ensures needsUpdate == (old(needsUpdate) || MoveKeysHeld(input))
    {
      var h := input.held;
      if LeftArrow in h { Move(-1.0, 0.0, frame); }
      if RightArrow in h { Move(1.0, 0.0, frame); }
      if UpArrow in h { Move(0.0, 1.0, frame); }
      if DownArrow in h { Move(0.0, -1.0, frame); }
    }

    /** `Update`: poll the keys and the mouse and call the handlers in the
        source's order. Its frame leaves out the colour setup and the cache. */
    method Update(input: Input, frame: Frame)
      requires Valid()
      modifies this`imgReal, this`imgImag, this`pixelSize, this`needsUpdate
      ensures Valid()
      ensures Params() == AfterUpdate(old(Params()), input, frame)
      ensures needsUpdate == (old(needsUpdate) || Touches(input))
    {
      PollMoveKeys(input, frame);
      if LeftShift in input.held { Zoom(-1, frame); }
      if LeftControl in input.held { Zoom(1, frame); }
      if input.mouseDown { CenterOnMouse(input.mouseX, input.mouseY, frame); }
    }
  }

  /** A later frame of a different size keeps the first target: after any
      number of frames the presented target still has the size of the frame
      that first allocated it. */
  method ResizedFrames(engine: Mandelbrot02, width: nat, height: nat, newWidth: nat, newHeight: nat)
    requires engine.Valid() && engine.renderTexture == null
    modifies engine.Repr()
    ensures engine.Valid()
    ensures engine.renderTexture != null
    ensures engine.renderTexture.width == width && engine.renderTexture.height == height
    ensures |engine.presented| >= 2
    ensures engine.presented[|engine.presented| - 1] == engine.presented[|engine.presented| - 2]
  {
    engine.OnRenderImage(width, height);
    engine.OnValidate();
    engine.OnRenderImage(newWidth, newHeight);
  }
}
