/** Abstractions of the Unity engine objects and of the per-frame input that the
    fractal engines read. Only what the engines' control logic observes is kept:
    the size of a texture, whether it was released, which gradient position each
    lookup texel was sampled at, and which keys are down in this frame. */
module Unity {

  /** A GPU render target (`RenderTexture`). Its size and depth-buffer bits are
      fixed when it is allocated; `released` records that `Release()` has freed
      its GPU memory. */
  class RenderTexture {
    const width: nat
    const height: nat
    const depth: nat
    var released: bool

    /** `new RenderTexture(width, height, depth)` followed by `Create()`. */
    constructor (width: nat, height: nat, depth: nat)
      ensures this.width == width && this.height == height && this.depth == depth
      ensures !released
    {
      this.width := width;
      this.height := height;
      this.depth := depth;
      released := false;
    }

    method Release()
      modifies this
      ensures released
    {
      released := true;
    }
  }

  /** A one-row gradient lookup texture (`Texture2D(width, 1)`). Texel `i` holds
      the gradient position `t` at which `gradient.Evaluate(t)` was sampled for
      it; the colours themselves are not modelled. */
  class GradientTexture {
    const width: nat
    const texels: array<real>

    predicate Valid() {
      texels.Length == width
    }

    constructor (width: nat)
      ensures this.width == width && Valid() && fresh(texels)
    {
      this.width := width;
      texels := new real[width];
    }
  }

  /** A scene component whose `enabled` flag the switcher toggles. */
  class Behaviour {
    var enabled: bool

    constructor (enabled: bool)
      ensures this.enabled == enabled
    {
      this.enabled := enabled;
    }
  }

  /** The keys the engines poll. */
  datatype Key =
    | LeftArrow | RightArrow | UpArrow | DownArrow
    | A | D | W | S | Q | E | Z | X | C | V | B | N | R
    | KeypadPlus | KeypadMinus | KeypadMultiply | KeypadDivide
    | LeftShift | RightShift | LeftControl

  /** One frame's snapshot of `Input`: `held` answers `GetKey`, `pressed`
      answers `GetKeyDown`, `mouseDown` answers `GetMouseButtonDown(0)`, and
      (`mouseX`, `mouseY`) is `Input.mousePosition`. */
  datatype Input = Input(held: set<Key>, pressed: set<Key>, mouseDown: bool, mouseX: real, mouseY: real)

  /** One frame's `Time.deltaTime` and `Screen` size. */
  datatype Frame = Frame(deltaTime: real, screenWidth: nat, screenHeight: nat)

  /** `IsShift()`: either shift key is held. */
  predicate IsShift(input: Input) {
    LeftShift in input.held || RightShift in input.held
  }

  /** One `shader.Dispatch` call: the kernel name, the textures bound as its
      output and its gradient lookup, the thread-group grid, and the parameter
      set the kernel received (without the head/tail split of the doubles). */
  datatype Dispatch<P> = Dispatch(kernel: string, target: RenderTexture, lut: GradientTexture,
                                  groupsX: nat, groupsY: nat, params: P)
}
