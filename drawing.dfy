/** What the two detectors' drawing routines put on a frame copy, as a list of
    draw commands instead of pixels. */
module Drawing {
  import opened Common

  /** OpenCV colours are blue, green, red. */
  datatype Color = Bgr(b: int, g: int, r: int)

  /** Colour of objects that carry a track id. */
  const TrackedColor: Color := Bgr(0, 0, 255)
  /** Colour of objects without a track id, and of every plain detection. */
  const DetectedColor: Color := Bgr(0, 255, 0)

  const LineThickness: int := 2
  const FontScale: real := 0.5
  /** The caption baseline sits this many pixels above the box's top-left corner. */
  const LabelLift: int := 10

  datatype Point = Point(x: int, y: int)

  /** A bounding box `[x1, y1, x2, y2]` in whole pixels. */
  datatype BBox = BBox(x1: int, y1: int, x2: int, y2: int)

  datatype DrawCommand =
    | Rectangle(topLeft: Point, bottomRight: Point, color: Color, thickness: int)
    | Text(caption: string, origin: Point, color: Color, scale: real, thickness: int)

  /** The copy that drawing produces: the frame it was copied from and the
      commands drawn onto the copy, in order.  The input frame itself is never
      drawn on. */
  datatype Annotated = Annotated(source: Frame, commands: seq<DrawCommand>)

  /** The two commands drawn for one box: the rectangle, then its caption. */
  function BoxCommands(box: BBox, caption: string, color: Color): (cmds: seq<DrawCommand>)
    ensures |cmds| == 2
    ensures cmds[0].Rectangle? && cmds[0].topLeft == Point(box.x1, box.y1)
      && cmds[0].bottomRight == Point(box.x2, box.y2)
    ensures cmds[1].Text? && cmds[1].caption == caption && cmds[1].origin == Point(box.x1, box.y1 - LabelLift)
    ensures cmds[0].color == color && cmds[1].color == color
  {
    [Rectangle(Point(box.x1, box.y1), Point(box.x2, box.y2), color, LineThickness),
     Text(caption, Point(box.x1, box.y1 - LabelLift), color, FontScale, LineThickness)]
  }

  function DigitChar(d: nat): (c: char)
    requires d < 10
    ensures '0' <= c <= '9' && c as int - '0' as int == d
  {
    ('0' as int + d) as char
  }

  /** The value of a string of decimal digits, most significant first. */
  function DecimalValue(s: string): int
  {
    if s == [] then 0 else DecimalValue(s[..|s| - 1]) * 10 + (s[|s| - 1] as int - '0' as int)
  }

  /** The decimal digits of `n`, without leading zeros. */
  function NatToString(n: nat): (s: string)
    ensures |s| >= 1
    ensures forall i :: 0 <= i < |s| ==> '0' <= s[i] <= '9'
    ensures s[0] == '0' <==> n == 0
  {
    if n < 10 then [DigitChar(n)] else NatToString(n / 10) + [DigitChar(n % 10)]
  }

  /** Reading the digits back gives the number. */
  lemma {:induction false} NatToStringValue(n: nat)
    ensures DecimalValue(NatToString(n)) == n
  {
    if n >= 10 {
      var s := NatToString(n);
      assert s[..|s| - 1] == NatToString(n / 10);
      NatToStringValue(n / 10);
    }
  }

  /** Python's `str(n)` for an integer: decimal digits with a leading '-'
      for negative values. */
  function IntToString(n: int): (s: string)
    ensures |s| >= 1
    ensures n >= 0 <==> '0' <= s[0] <= '9'
  {
    if n >= 0 then NatToString(n) else "-" + NatToString(-n)
  }

  /** `int()` of a string `str()` produced. */
  function IntValue(s: string): int
  {
    if s != [] && s[0] == '-' then -DecimalValue(s[1..]) else DecimalValue(s)
  }

  /** `int(str(n)) == n`: the rendering keeps the value. */
  lemma IntToStringRoundTrip(n: int)
    ensures IntValue(IntToString(n)) == n
  {
    if n >= 0 {
      NatToStringValue(n);
    } else {
      NatToStringValue(-n);
      assert IntToString(n)[1..] == NatToString(-n);
    }
  }

  /** Distinct integers are rendered differently. */
  lemma IntToStringInjective(a: int, b: int)
    ensures IntToString(a) == IntToString(b) ==> a == b
  {
    IntToStringRoundTrip(a);
    IntToStringRoundTrip(b);
  }
}
