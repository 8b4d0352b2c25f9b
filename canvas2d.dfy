/**
 * The slice of the browser's 2-D canvas API that the watermark drives.
 *
 * A rendering context is modelled by the state its drawing calls depend on
 * (current transform, global alpha, font, fill style), the stack that `save`
 * and `restore` push and pop, and a log of every call made on it. The two
 * drawing calls record the state they render with, so what a tile looks like
 * can be read off the log. Rasterisation itself is not modelled.
 */
module Canvas2D {

  /** A handle on an image element. */
  type ImageId = nat

  /** A measured or assigned size in whole pixels. */
  datatype Size = Size(width: nat, height: nat)

  /** One transformation step; rotations stay in degrees. */
  datatype Xform = Translate(dx: int, dy: int) | Rotate(degrees: int)

  /** The drawing state that `save` stores and `restore` brings back. */
  datatype DrawState = DrawState(transform: seq<Xform>, globalAlpha: real, font: string, fillStyle: string)

  /** The state of a fresh context: identity transform, opaque, the platform's default font and colour. */
  const InitialState: DrawState := DrawState([], 1.0, "10px sans-serif", "#000000")

  /** One call on a context, as logged. Drawing calls carry the state they draw with. */
  datatype Cmd =
    | Save
    | Restore
    | Transform(op: Xform)
    | SetFont(font: string)
    | SetFillStyle(style: string)
    | SetGlobalAlpha(alpha: real)
    | FillText(text: string, x: int, y: int, at: DrawState)
    | DrawImage(image: ImageId, x: int, y: int, width: nat, height: nat, at: DrawState)
    | ClearRect(left: int, top: int, width: nat, height: nat)
    | BeginPath
  {
    /** True of the calls that put pixels on the canvas. */
    predicate IsDraw()
    {
      FillText? || DrawImage?
    }
  }

  /** The part of a context that calls change: the current state and the save stack. */
  datatype Config = Config(state: DrawState, stack: seq<DrawState>)

  /** What one call does to the current state and the save stack. */
  function Step(c: Config, cmd: Cmd): Config
  {
    match cmd
    case Save => Config(c.state, c.stack + [c.state])
    case Restore =>
      // restoring with an empty stack does nothing
      if c.stack == [] then c else Config(c.stack[|c.stack| - 1], c.stack[..|c.stack| - 1])
    case Transform(op) => c.(state := c.state.(transform := c.state.transform + [op]))
    case SetFont(f) => c.(state := c.state.(font := f))
    case SetFillStyle(s) => c.(state := c.state.(fillStyle := s))
    case SetGlobalAlpha(a) => c.(state := c.state.(globalAlpha := a))
    case FillText(_, _, _, _) => c
    case DrawImage(_, _, _, _, _, _) => c
    case ClearRect(_, _, _, _) => c
    case BeginPath => c
  }

  /** Replays a sequence of calls from a given configuration. */
  function Run(c: Config, cmds: seq<Cmd>): Config
    decreases |cmds|
  {
    if cmds == [] then c else Run(Step(c, cmds[0]), cmds[1..])
  }

  /** Replaying two logs one after the other is replaying their concatenation. */
  lemma {:induction false} RunAppend(c: Config, a: seq<Cmd>, b: seq<Cmd>)
    ensures Run(c, a + b) == Run(Run(c, a), b)
    decreases |a|
  {
    if a == [] {
      assert a + b == b;
    } else {
      assert (a + b)[0] == a[0];
      assert (a + b)[1..] == a[1..] + b;
      RunAppend(Step(c, a[0]), a[1..], b);
    }
  }

  /** Replaying from position i is one step and then replaying from i + 1. */
  lemma RunAt(c: Config, cmds: seq<Cmd>, i: nat)
    requires i < |cmds|
    ensures Run(c, cmds[i..]) == Run(Step(c, cmds[i]), cmds[i + 1..])
  {
    assert cmds[i..][1..] == cmds[i + 1..];
  }

  /** Kinds of calls, for counting them in a log. */
  datatype Kind =
    | SaveKind | RestoreKind | TransformKind | FontKind | FillStyleKind | AlphaKind
    | TextKind | ImageKind | ClearKind | PathKind

  function KindOf(c: Cmd): Kind
  {
    match c
    case Save => SaveKind
    case Restore => RestoreKind
    case Transform(_) => TransformKind
    case SetFont(_) => FontKind
    case SetFillStyle(_) => FillStyleKind
    case SetGlobalAlpha(_) => AlphaKind
    case FillText(_, _, _, _) => TextKind
    case DrawImage(_, _, _, _, _, _) => ImageKind
    case ClearRect(_, _, _, _) => ClearKind
    case BeginPath => PathKind
  }

  /** The number of calls of kind `k` in a log. */
  function Count(cmds: seq<Cmd>, k: Kind): nat
    decreases |cmds|
  {
    if cmds == [] then 0 else (if KindOf(cmds[0]) == k then 1 else 0) + Count(cmds[1..], k)
  }

  /** Counting from position i is counting call i and then counting from i + 1. */
  lemma CountAt(cmds: seq<Cmd>, i: nat, k: Kind)
    requires i < |cmds|
    ensures Count(cmds[i..], k) == (if KindOf(cmds[i]) == k then 1 else 0) + Count(cmds[i + 1..], k)
  {
    assert cmds[i..][1..] == cmds[i + 1..];
  }

  /** Counting distributes over concatenation. */
  lemma {:induction false} CountAppend(a: seq<Cmd>, b: seq<Cmd>, k: Kind)
    ensures Count(a + b, k) == Count(a, k) + Count(b, k)
    decreases |a|
  {
    if a == [] {
      assert a + b == b;
    } else {
      assert (a + b)[0] == a[0];
      assert (a + b)[1..] == a[1..] + b;
      CountAppend(a[1..], b, k);
    }
  }

  /**
   * A 2-D rendering context. Every method appends its call to `log` and
   * changes the state and the save stack as `Step` says.
   */
  class Context2D {
    var state: DrawState
    var stack: seq<DrawState>
    var log: seq<Cmd>

    /** The current state and save stack. */
    function Current(): Config
      reads this
    {
      Config(state, stack)
    }

    constructor ()
      ensures state == InitialState && stack == [] && log == []
    {
      state, stack, log := InitialState, [], [];
    }

    method Save()
      modifies this
      ensures log == old(log) + [Cmd.Save]
      ensures Current() == Step(old(Current()), Cmd.Save)
    {
      stack := stack + [state];
      log := log + [Cmd.Save];
    }

    method Restore()
      modifies this
      ensures log == old(log) + [Cmd.Restore]
      ensures Current() == Step(old(Current()), Cmd.Restore)
    {
      if stack != [] {
        state := stack[|stack| - 1];
        stack := stack[..|stack| - 1];
      }
      log := log + [Cmd.Restore];
    }

    method Translate(x: int, y: int)
      modifies this
      ensures log == old(log) + [Transform(Xform.Translate(x, y))]
      ensures Current() == Step(old(Current()), Transform(Xform.Translate(x, y)))
    {
      state := state.(transform := state.transform + [Xform.Translate(x, y)]);
      log := log + [Transform(Xform.Translate(x, y))];
    }

    method Rotate(degrees: int)
      modifies this
      ensures log == old(log) + [Transform(Xform.Rotate(degrees))]
      ensures Current() == Step(old(Current()), Transform(Xform.Rotate(degrees)))
    {
      state := state.(transform := state.transform + [Xform.Rotate(degrees)]);
      log := log + [Transform(Xform.Rotate(degrees))];
    }

    /** Assigning `context.font`. */
    method SetFont(font: string)
      modifies this
      ensures log == old(log) + [Cmd.SetFont(font)]
      ensures Current() == Step(old(Current()), Cmd.SetFont(font))
    {
      state := state.(font := font);
      log := log + [Cmd.SetFont(font)];
    }

    /** Assigning `context.fillStyle`. */
    method SetFillStyle(style: string)
      modifies this
      ensures log == old(log) + [Cmd.SetFillStyle(style)]
      ensures Current() == Step(old(Current()), Cmd.SetFillStyle(style))
    {
      state := state.(fillStyle := style);
      log := log + [Cmd.SetFillStyle(style)];
    }

    /** Assigning `context.globalAlpha`. */
    method SetGlobalAlpha(alpha: real)
      modifies this
      ensures log == old(log) + [Cmd.SetGlobalAlpha(alpha)]
      ensures Current() == Step(old(Current()), Cmd.SetGlobalAlpha(alpha))
    {
      state := state.(globalAlpha := alpha);
      log := log + [Cmd.SetGlobalAlpha(alpha)];
    }

    method FillText(text: string, x: int, y: int)
      modifies this
      ensures log == old(log) + [Cmd.FillText(text, x, y, old(state))]
      ensures Current() == old(Current())
    {
      log := log + [Cmd.FillText(text, x, y, state)];
    }

    method DrawImage(image: ImageId, x: int, y: int, width: nat, height: nat)
      modifies this
      ensures log == old(log) + [Cmd.DrawImage(image, x, y, width, height, old(state))]
      ensures Current() == old(Current())
    {
      log := log + [Cmd.DrawImage(image, x, y, width, height, state)];
    }

    method ClearRect(left: int, top: int, width: nat, height: nat)
      modifies this
      ensures log == old(log) + [Cmd.ClearRect(left, top, width, height)]
      ensures Current() == old(Current())
    {
      log := log + [Cmd.ClearRect(left, top, width, height)];
    }

    method BeginPath()
      modifies this
      ensures log == old(log) + [Cmd.BeginPath]
      ensures Current() == old(Current())
    {
      log := log + [Cmd.BeginPath];
    }
  }

  /**
   * A canvas element: its backing pixel size, and the 2-D context that
   * `getContext('2d')` yields for it (null when none is available).
   */
  class Canvas {
    var width: nat
    var height: nat
    const context: Context2D?

    constructor (width: nat, height: nat, context: Context2D?)
      ensures this.width == width && this.height == height && this.context == context
    {
      this.width, this.height, this.context := width, height, context;
    }
  }

  /** A resize observer, reduced to the set of canvases it watches. */
  class ResizeObserver {
    var observed: set<Canvas>

    constructor ()
      ensures observed == {}
    {
      observed := {};
    }

    method Observe(target: Canvas)
      modifies this
      ensures observed == old(observed) + {target}
    {
      observed := observed + {target};
    }

    method Disconnect()
      modifies this
      ensures observed == {}
    {
      observed := {};
    }
  }
}
