/** The part of a 2-D canvas context that the renderer uses. The context's paint settings are
    fields that callers assign; each drawing call appends to `trace` the primitive it paints,
    together with the settings in force at that moment. Colours are opaque strings. */
module Canvas2D {

  /** A full circle, as `arc(cx, cy, r, 0, 2 * Math.PI)` adds it to the current path. */
  datatype Circle = Circle(cx: real, cy: real, r: real)

  /** The size and weight of the `font` setting; the family list is not modelled. */
  datatype Font = Font(bold: bool, px: real)

  /** The raw shadow settings: `shadowBlur` and `shadowColor`. */
  datatype ShadowState = ShadowState(blur: real, colour: string)

  /** The shadow a primitive is painted with. */
  datatype Shadow = NoShadow | Glow(blur: real, colour: string)

  /** A canvas paints no shadow while `shadowBlur` is 0, whatever `shadowColor` holds. */
  function Effect(s: ShadowState): Shadow {
    if s.blur > 0.0 then Glow(s.blur, s.colour) else NoShadow
  }

  /** The line width after `lineWidth = w`: a context ignores zero and negative values and
      keeps the width it had. */
  function LineWidthAfter(current: real, w: real): real {
    if w > 0.0 then w else current
  }

  /** The settings that fills and strokes read. */
  datatype Pen = Pen(fill: string, stroke: string, lineWidth: real, shadow: ShadowState)

  /** A primitive painted on the canvas. */
  datatype Op =
    | FillRect(x: real, y: real, w: real, h: real, colour: string, shadow: Shadow)
    | FillText(text: string, x: real, y: real, colour: string, font: Font, align: string, shadow: Shadow)
    | FillPath(path: seq<Circle>, colour: string, shadow: Shadow)
    | StrokePath(path: seq<Circle>, colour: string, width: real, shadow: Shadow)

  /** The settings of a newly created context. */
  const DefaultPen: Pen := Pen("#000000", "#000000", 1.0, ShadowState(0.0, "rgba(0, 0, 0, 0)"))

  class Canvas {
    const width: real
    const height: real
    var fillStyle: string
    var strokeStyle: string
    var lineWidth: real
    var shadowBlur: real
    var shadowColor: string
    var font: Font
    var textAlign: string
    var path: seq<Circle>
    var trace: seq<Op>

    function CurrentPen(): Pen
      reads this
    {
      Pen(fillStyle, strokeStyle, lineWidth, ShadowState(shadowBlur, shadowColor))
    }

    /** A new canvas of the given size with the context's default settings and nothing drawn. */
    constructor (w: nat, h: nat)
      ensures width == w as real && height == h as real
      ensures CurrentPen() == DefaultPen
      ensures font == Font(false, 10.0) && textAlign == "start"
      ensures path == [] && trace == []
    {
      width, height := w as real, h as real;
      fillStyle, strokeStyle, lineWidth := "#000000", "#000000", 1.0;
      shadowBlur, shadowColor := 0.0, "rgba(0, 0, 0, 0)";
      font, textAlign := Font(false, 10.0), "start";
      path, trace := [], [];
    }

    /** `lineWidth = w`, which leaves the setting unchanged unless w is positive. */
    method SetLineWidth(w: real)
      modifies this`lineWidth
      ensures lineWidth == LineWidthAfter(old(lineWidth), w)
      ensures old(lineWidth) > 0.0 ==> lineWidth > 0.0
    {
      if w > 0.0 {
        lineWidth := w;
      }
    }

    method FillRect(x: real, y: real, w: real, h: real)
      modifies this`trace
      ensures trace == old(trace) + [Op.FillRect(x, y, w, h, fillStyle, Effect(ShadowState(shadowBlur, shadowColor)))]
    {
      trace := trace + [Op.FillRect(x, y, w, h, fillStyle, Effect(ShadowState(shadowBlur, shadowColor)))];
    }

    method FillText(text: string, x: real, y: real)
      modifies this`trace
      ensures trace == old(trace) + [Op.FillText(text, x, y, fillStyle, font, textAlign, Effect(ShadowState(shadowBlur, shadowColor)))]
    {
      trace := trace + [Op.FillText(text, x, y, fillStyle, font, textAlign, Effect(ShadowState(shadowBlur, shadowColor)))];
    }

    method BeginPath()
      modifies this`path
      ensures path == []
    {
      path := [];
    }

    /** `arc(cx, cy, r, 0, 2 * Math.PI)`; a negative radius makes the context throw. */
    method Arc(cx: real, cy: real, r: real)
      requires r >= 0.0
      modifies this`path
      ensures path == old(path) + [Circle(cx, cy, r)]
    {
      path := path + [Circle(cx, cy, r)];
    }

    method Fill()
      modifies this`trace
      ensures trace == old(trace) + [FillPath(path, fillStyle, Effect(ShadowState(shadowBlur, shadowColor)))]
    {
      trace := trace + [FillPath(path, fillStyle, Effect(ShadowState(shadowBlur, shadowColor)))];
    }

    method Stroke()
      modifies this`trace
      ensures trace == old(trace) + [StrokePath(path, strokeStyle, lineWidth, Effect(ShadowState(shadowBlur, shadowColor)))]
    {
      trace := trace + [StrokePath(path, strokeStyle, lineWidth, Effect(ShadowState(shadowBlur, shadowColor)))];
    }
  }
}
