/**
 * The draw pass of the watch face as a pure function from the bounds, the ambient
 * flag, the text sizes, the measured text widths and the render state to the list of
 * draw calls it issues, in order, with their coordinates.
 *
 * Text sizes and measured widths are floats in the source; here they are exact reals,
 * and every `(int)` cast of the source is `Trunc` (toward zero).
 */
module FaceLayout {
  import opened Wrappers
  import opened TimeFormat
  import opened IconFetch

  /** The fixed gap, in pixels, between the lines of text and between the icon and the temperature. */
  const MARGIN: int := 10

  /** The face's bounds; the centre is `(left + right) >> 1`, rounded toward minus infinity. */
  datatype Rect = Rect(left: int, top: int, right: int, bottom: int) {
    function CenterX(): int { (left + right) / 2 }
    function CenterY(): int { (top + bottom) / 2 }
    function Width(): int { right - left }
    function Height(): int { bottom - top }
  }

  /** Which of the three text paints draws a text: date, time or temperature. */
  datatype TextRole = DateText | TimeText | TemperatureText

  /** `getTextSize()` of the time, date and temperature paints. */
  datatype TextSizes = TextSizes(time: real, date: real, temperature: real)

  /** A draw call issued on the canvas. */
  datatype DrawOp =
    | FillBlack
    | FillBackground(width: int, height: int)
    | DrawText(role: TextRole, text: string, x: int, y: int)
    | DrawIcon(icon: Bitmap, left: int, top: real)

  /** Java's `(int)` cast of a floating-point value: truncation toward zero. */
  function Trunc(x: real): (r: int)
    ensures x >= 0.0 ==> 0 <= r && r as real <= x < r as real + 1.0
    ensures x < 0.0 ==> r <= 0 && r as real - 1.0 < x <= r as real
  {
    if x >= 0.0 then x.Floor else -((-x).Floor)
  }

  /** `(int)(x / 2.0)`. */
  function Half(x: real): int {
    Trunc(x / 2.0)
  }

  /** The temperature line: the high and low texts separated by one space. */
  function TemperatureLine(high: string, low: string): (t: string)
    ensures |t| == |high| + 1 + |low| && t[|high|] == ' '
    ensures t[..|high|] == high && t[|high| + 1..] == low
  {
    high + " " + low
  }

  /**
   * `onDraw`: the background, the date centred on the bounds' centre, the time above it,
   * then, when both temperatures are known, the temperature line below it, and, when the
   * face is also interactive and an icon is known, the icon to the left of that line.
   */
  function Draw(
    bounds: Rect, ambient: bool, sizes: TextSizes, measure: (TextRole, string) -> real,
    date: string, hour: int, minute: int,
    high: Option<string>, low: Option<string>, icon: Option<Bitmap>)
    : (ops: seq<DrawOp>)
    ensures 3 <= |ops| <= 5
    ensures ops[0] == (if ambient then FillBlack else FillBackground(bounds.Width(), bounds.Height()))
    ensures ops[1].DrawText? && ops[1].role == DateText && ops[1].text == date
    ensures ops[2].DrawText? && ops[2].role == TimeText && ops[2].text == FormatTime(hour, minute)
    ensures |ops| > 3 <==> high.Some? && low.Some?
    ensures |ops| > 3 ==> ops[3].DrawText? && ops[3].role == TemperatureText
                          && ops[3].text == TemperatureLine(high.value, low.value)
    ensures |ops| == 5 <==> high.Some? && low.Some? && !ambient && icon.Some?
    ensures |ops| == 5 ==> ops[4].DrawIcon? && ops[4].icon == icon.value
  {
    var background := if ambient then FillBlack else FillBackground(bounds.Width(), bounds.Height());
    var dateOp := DrawText(DateText, date,
      bounds.CenterX() - Half(measure(DateText, date)),
      bounds.CenterY() - Half(sizes.date));
    var time := FormatTime(hour, minute);
    var timeOp := DrawText(TimeText, time,
      bounds.CenterX() - Half(measure(TimeText, time)),
      bounds.CenterY() - Half(sizes.date) - Half(sizes.time) - MARGIN);
    var face := [background, dateOp, timeOp];
    if high.None? || low.None? then face
    else
      var temp := TemperatureLine(high.value, low.value);
      var x := bounds.CenterX() - Half(measure(TemperatureText, temp)) + MARGIN * 3;
      var y := bounds.CenterY() + Half(sizes.date) + Half(sizes.temperature) + MARGIN;
      var tempOp := DrawText(TemperatureText, temp, x, y);
      if ambient || icon.None? then face + [tempOp]
      else
        var b := icon.value;
        var top := y as real - sizes.temperature / 2.0 - (b.height / 2) as real + MARGIN as real;
        face + [tempOp, DrawIcon(b, x - b.width - MARGIN, top)]
  }

  /** Whether a frame draws some text with the given paint. */
  predicate DrawsText(ops: seq<DrawOp>, role: TextRole) {
    exists i :: 0 <= i < |ops| && ops[i].DrawText? && ops[i].role == role
  }

  /** Whether a frame draws a bitmap. */
  predicate DrawsIcon(ops: seq<DrawOp>) {
    exists i :: 0 <= i < |ops| && ops[i].DrawIcon?
  }

  /**
   * The temperature is drawn if and only if both temperatures are known, and the icon only
   * together with it, only in interactive mode and only once an icon is known.
   */
  lemma WhatIsDrawn(
    bounds: Rect, ambient: bool, sizes: TextSizes, measure: (TextRole, string) -> real,
    date: string, hour: int, minute: int,
    high: Option<string>, low: Option<string>, icon: Option<Bitmap>)
    ensures var ops := Draw(bounds, ambient, sizes, measure, date, hour, minute, high, low, icon);
      && DrawsText(ops, DateText) && DrawsText(ops, TimeText)
      && (DrawsText(ops, TemperatureText) <==> high.Some? && low.Some?)
      && (DrawsIcon(ops) <==> high.Some? && low.Some? && !ambient && icon.Some?)
      && (DrawsIcon(ops) ==> DrawsText(ops, TemperatureText))
  {
    var ops := Draw(bounds, ambient, sizes, measure, date, hour, minute, high, low, icon);
    assert ops[1].DrawText? && ops[1].role == DateText;
    assert ops[2].DrawText? && ops[2].role == TimeText;
    if DrawsText(ops, TemperatureText) {
      var i :| 0 <= i < |ops| && ops[i].DrawText? && ops[i].role == TemperatureText;
      assert i >= 3;
    }
    if |ops| > 3 {
      assert ops[3].DrawText? && ops[3].role == TemperatureText;
    }
    if DrawsIcon(ops) {
      var i :| 0 <= i < |ops| && ops[i].DrawIcon?;
      assert i == 4;
    }
    if |ops| == 5 {
      assert ops[4].DrawIcon?;
    }
  }

  /**
   * With non-negative text sizes the time baseline is at least MARGIN above the date baseline,
   * the temperature baseline at least MARGIN below it, the icon's right edge exactly MARGIN left
   * of the temperature text, and an even-height icon is centred MARGIN below the middle of the
   * temperature text's line.
   */
  lemma LayoutMargins(
    bounds: Rect, ambient: bool, sizes: TextSizes, measure: (TextRole, string) -> real,
    date: string, hour: int, minute: int,
    high: Option<string>, low: Option<string>, icon: Option<Bitmap>)
    requires sizes.time >= 0.0 && sizes.date >= 0.0 && sizes.temperature >= 0.0
    ensures var ops := Draw(bounds, ambient, sizes, measure, date, hour, minute, high, low, icon);
      && ops[2].y + MARGIN <= ops[1].y
      && (|ops| > 3 ==> ops[3].y >= ops[1].y + MARGIN)
      && (|ops| == 5 ==> ops[4].left + ops[4].icon.width + MARGIN == ops[3].x)
      && (|ops| == 5 && ops[4].icon.height % 2 == 0 ==>
            ops[4].top + (ops[4].icon.height as real) / 2.0
              == ops[3].y as real - sizes.temperature / 2.0 + MARGIN as real)
  {
    assert Half(sizes.time) >= 0 && Half(sizes.temperature) >= 0 && Half(sizes.date) >= 0;
  }

  /**
   * Each line of text is centred on the bounds' centre to within one pixel (the temperature line
   * on a point 3 * MARGIN to the right of it), given non-negative measured widths.
   */
  lemma TextCentred(
    bounds: Rect, ambient: bool, sizes: TextSizes, measure: (TextRole, string) -> real,
    date: string, hour: int, minute: int,
    high: Option<string>, low: Option<string>, icon: Option<Bitmap>, i: int)
    requires forall role: TextRole, s: string :: measure(role, s) >= 0.0
    requires var ops := Draw(bounds, ambient, sizes, measure, date, hour, minute, high, low, icon);
      1 <= i < |ops| && ops[i].DrawText?
    ensures var ops := Draw(bounds, ambient, sizes, measure, date, hour, minute, high, low, icon);
      var centre := bounds.CenterX() + (if ops[i].role == TemperatureText then 3 * MARGIN else 0);
      var mid := ops[i].x as real + measure(ops[i].role, ops[i].text) / 2.0;
      centre as real <= mid < centre as real + 1.0
  {
    var ops := Draw(bounds, ambient, sizes, measure, date, hour, minute, high, low, icon);
    var w := measure(ops[i].role, ops[i].text);
    assert w >= 0.0;
    var h := Half(w);
    assert h as real <= w / 2.0 < h as real + 1.0;
  }

  /**
   * Ambient mode draws the same date, time and temperature as interactive mode at the same places;
   * only the background turns black and the icon is left out.
   */
  lemma AmbientOnlyHidesIcon(
    bounds: Rect, sizes: TextSizes, measure: (TextRole, string) -> real,
    date: string, hour: int, minute: int,
    high: Option<string>, low: Option<string>, icon: Option<Bitmap>)
    ensures var interactive := Draw(bounds, false, sizes, measure, date, hour, minute, high, low, icon);
      var ambient := Draw(bounds, true, sizes, measure, date, hour, minute, high, low, icon);
      && ambient[0] == FillBlack
      && ambient[1..] == interactive[1..if |interactive| == 5 then 4 else |interactive|]
  {
  }
}
