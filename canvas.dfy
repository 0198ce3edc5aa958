/** A recording model of the 2D drawing context `generate` draws on: the
    current path, the drawing state with its save/restore stack, and the
    list of drawing operations issued so far, each with the state it was
    issued in. Arcs and rotations are kept symbolic, with angles counted
    in half turns (multiples of pi). */
module Canvas {
  import opened Wrappers

  datatype PathCmd =
    | MoveTo(x: real, y: real)
    | LineTo(x: real, y: real)
    | Arc(cx: real, cy: real, radius: real, start: real, end: real, ccw: bool)

  datatype Transform = Translate(dx: real, dy: real) | Rotate(halfTurns: real)

  /** The part of the context that `save` stores and `restore` brings back:
      styles, font, text alignment, the transformation and the clip. */
  datatype GState = GState(
    fillStyle: string,
    strokeStyle: string,
    lineWidth: real,
    lineDash: seq<real>,
    font: string,
    textAlign: string,
    textBaseline: string,
    transform: seq<Transform>,
    clip: seq<seq<PathCmd>>)

  /** A drawing operation, recorded with the state it was drawn in. */
  datatype DrawOp =
    | StrokePath(path: seq<PathCmd>, gs: GState)
    | FillPath(path: seq<PathCmd>, gs: GState)
    | StrokeText(text: string, x: real, y: real, gs: GState)
    | FillText(text: string, x: real, y: real, gs: GState)
    | DrawImage(image: nat, x: real, y: real, width: real, height: real, gs: GState)

  class Context {
    /** Text measurement: the advance width of a text in a font. */
    const measure: (string, string) -> real
    /** The font bounding box height (ascent plus descent), when the
        platform reports it. */
    const fontHeight: string -> Option<real>
    /** Whether the context parses a font string; one it cannot parse is
        ignored and the font in force is kept. */
    const fontOk: string -> bool

    var gs: GState
    var stack: seq<GState>
    var path: seq<PathCmd>
    var ops: seq<DrawOp>

    constructor (measure: (string, string) -> real, fontHeight: string -> Option<real>, fontOk: string -> bool, initial: GState)
      ensures this.measure == measure && this.fontHeight == fontHeight && this.fontOk == fontOk
      ensures gs == initial && stack == [] && path == [] && ops == []
    {
      this.measure := measure;
      this.fontHeight := fontHeight;
      this.fontOk := fontOk;
      gs := initial;
      stack := [];
      path := [];
      ops := [];
    }

    method Save()
      modifies this`stack
      ensures stack == old(stack) + [gs]
    {
      stack := stack + [gs];
    }

    /** Restoring with nothing saved does nothing. */
    method Restore()
      modifies this`gs, this`stack
      ensures old(stack) == [] ==> gs == old(gs) && stack == []
      ensures old(stack) != [] ==> gs == old(stack)[|old(stack)| - 1] && stack == old(stack)[..|old(stack)| - 1]
    {
      if stack != [] {
        gs := stack[|stack| - 1];
        stack := stack[..|stack| - 1];
      }
    }

    method BeginPath()
      modifies this`path
      ensures path == []
    {
      path := [];
    }

    method MoveTo(x: real, y: real)
      modifies this`path
      ensures path == old(path) + [PathCmd.MoveTo(x, y)]
    {
      path := path + [PathCmd.MoveTo(x, y)];
    }

    method LineTo(x: real, y: real)
      modifies this`path
      ensures path == old(path) + [PathCmd.LineTo(x, y)]
    {
      path := path + [PathCmd.LineTo(x, y)];
    }

    method Arc(cx: real, cy: real, radius: real, start: real, end: real, ccw: bool)
      modifies this`path
      ensures path == old(path) + [PathCmd.Arc(cx, cy, radius, start, end, ccw)]
    {
      path := path + [PathCmd.Arc(cx, cy, radius, start, end, ccw)];
    }

    method Stroke()
      modifies this`ops
      ensures ops == old(ops) + [StrokePath(path, gs)]
    {
      ops := ops + [StrokePath(path, gs)];
    }

    method Fill()
      modifies this`ops
      ensures ops == old(ops) + [FillPath(path, gs)]
    {
      ops := ops + [FillPath(path, gs)];
    }

    /** Intersects the clip with the current path. */
    method Clip()
      modifies this`gs
      ensures gs == old(gs).(clip := old(gs).clip + [path])
    {
      gs := gs.(clip := gs.clip + [path]);
    }

    method SetFillStyle(style: string)
      modifies this`gs
      ensures gs == old(gs).(fillStyle := style)
    {
      gs := gs.(fillStyle := style);
    }

    method SetStrokeStyle(style: string)
      modifies this`gs
      ensures gs == old(gs).(strokeStyle := style)
    {
      gs := gs.(strokeStyle := style);
    }

    /** A width that is not positive is ignored, as the context does. */
    method SetLineWidth(width: real)
      modifies this`gs
      ensures gs == if width > 0.0 then old(gs).(lineWidth := width) else old(gs)
    {
      if width > 0.0 {
        gs := gs.(lineWidth := width);
      }
    }

    method SetLineDash(dash: seq<real>)
      modifies this`gs
      ensures gs == old(gs).(lineDash := dash)
    {
      gs := gs.(lineDash := dash);
    }

    /** A font string the context cannot parse is ignored. */
    method SetFont(font: string)
      modifies this`gs
      ensures gs == if fontOk(font) then old(gs).(font := font) else old(gs)
    {
      if fontOk(font) {
        gs := gs.(font := font);
      }
    }

    method SetTextAlign(align: string)
      modifies this`gs
      ensures gs == old(gs).(textAlign := align)
    {
      gs := gs.(textAlign := align);
    }

    method SetTextBaseline(baseline: string)
      modifies this`gs
      ensures gs == old(gs).(textBaseline := baseline)
    {
      gs := gs.(textBaseline := baseline);
    }

    method Translate(dx: real, dy: real)
      modifies this`gs
      ensures gs == old(gs).(transform := old(gs).transform + [Transform.Translate(dx, dy)])
    {
      gs := gs.(transform := gs.transform + [Transform.Translate(dx, dy)]);
    }

    method Rotate(halfTurns: real)
      modifies this`gs
      ensures gs == old(gs).(transform := old(gs).transform + [Transform.Rotate(halfTurns)])
    {
      gs := gs.(transform := gs.transform + [Transform.Rotate(halfTurns)]);
    }

    method StrokeText(text: string, x: real, y: real)
      modifies this`ops
      ensures ops == old(ops) + [DrawOp.StrokeText(text, x, y, gs)]
    {
      ops := ops + [DrawOp.StrokeText(text, x, y, gs)];
    }

    method FillText(text: string, x: real, y: real)
      modifies this`ops
      ensures ops == old(ops) + [DrawOp.FillText(text, x, y, gs)]
    {
      ops := ops + [DrawOp.FillText(text, x, y, gs)];
    }

    method DrawImage(image: nat, x: real, y: real, width: real, height: real)
      modifies this`ops
      ensures ops == old(ops) + [DrawOp.DrawImage(image, x, y, width, height, gs)]
    {
      ops := ops + [DrawOp.DrawImage(image, x, y, width, height, gs)];
    }

    /** `measureText(text).width` in the current font. */
    function MeasureText(text: string): real
      reads this`gs
    {
      measure(gs.font, text)
    }
  }
}
