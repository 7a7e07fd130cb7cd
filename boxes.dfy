/** The box codec: a rectangle (x, y, w, h) is encoded relative to an anchor rectangle
    as offsets in units of the anchor's size and log size ratios (`rect_regression`), and
    decoded back (`rect`). */
module Boxes {
  import opened Numeric

  /** A rectangle (x, y, w, h), or the anchor-relative regression target of one. */
  datatype Box = Box(x: real, y: real, w: real, h: real)

  /** `rect_regression`: the regression target of `rect` with respect to `anchor`.
      The position is the offset measured in anchor widths and heights; the size is
      the exponent that scales the anchor's size to the rectangle's. */
  function RectRegression(e: ExpLog, rect: Box, anchor: Box): (t: Box)
    requires anchor.w != 0.0 && anchor.h != 0.0
    ensures t.x * anchor.w == rect.x - anchor.x && t.y * anchor.h == rect.y - anchor.y
  {
    Box((rect.x - anchor.x) / anchor.w, (rect.y - anchor.y) / anchor.h,
        e.log(rect.w / anchor.w), e.log(rect.h / anchor.h))
  }

  /** `rect`: the rectangle that regression target `t` describes relative to `anchor`.
      A positive anchor always decodes to a rectangle of positive size. */
  function Rect(e: ExpLog, t: Box, anchor: Box): (r: Box)
    ensures r.x - anchor.x == t.x * anchor.w && r.y - anchor.y == t.y * anchor.h
  {
    Box(t.x * anchor.w + anchor.x, t.y * anchor.h + anchor.y,
        e.exp(t.w) * anchor.w, e.exp(t.h) * anchor.h)
  }

  /** The size part of the encoding is the exponent that scales the anchor's size
      to the rectangle's. */
  lemma RegressionScalesAnchor(e: ExpLog, rect: Box, anchor: Box)
    requires ExpInvertsLog(e)
    requires anchor.w > 0.0 && anchor.h > 0.0 && rect.w > 0.0 && rect.h > 0.0
    ensures e.exp(RectRegression(e, rect, anchor).w) * anchor.w == rect.w
    ensures e.exp(RectRegression(e, rect, anchor).h) * anchor.h == rect.h
  {
    ExpOfLogRatio(e, rect.w, anchor.w);
    ExpOfLogRatio(e, rect.h, anchor.h);
  }

  lemma ExpOfLogRatio(e: ExpLog, size: real, anchorSize: real)
    requires ExpInvertsLog(e)
    requires anchorSize > 0.0 && size > 0.0
    ensures e.exp(e.log(size / anchorSize)) * anchorSize == size
  {
    assert size / anchorSize > 0.0;
    assert e.exp(e.log(size / anchorSize)) == size / anchorSize;
  }

  /** Decoding against an anchor of positive size gives a rectangle of positive size. */
  lemma RectHasPositiveSize(e: ExpLog, t: Box, anchor: Box)
    requires ExpPositive(e)
    requires anchor.w > 0.0 && anchor.h > 0.0
    ensures Rect(e, t, anchor).w > 0.0 && Rect(e, t, anchor).h > 0.0
  {
    assert e.exp(t.w) > 0.0 && e.exp(t.h) > 0.0;
  }

  /** Decoding the encoding of a rectangle gives the rectangle back. */
  lemma DecodeEncode(e: ExpLog, rect: Box, anchor: Box)
    requires ExpInvertsLog(e)
    requires anchor.w > 0.0 && anchor.h > 0.0 && rect.w > 0.0 && rect.h > 0.0
    ensures Rect(e, RectRegression(e, rect, anchor), anchor) == rect
  {
    var t := RectRegression(e, rect, anchor);
    RegressionScalesAnchor(e, rect, anchor);
    var r := Rect(e, t, anchor);
    OffsetInverse(rect.x, anchor.x, anchor.w);
    OffsetInverse(rect.y, anchor.y, anchor.h);
    assert t.y == (rect.y - anchor.y) / anchor.h;
    assert r.y == t.y * anchor.h + anchor.y;
    assert r.x == rect.x && r.y == rect.y;
    assert r.w == rect.w && r.h == rect.h;
  }

  /** Encoding the decoding of a regression target gives the target back. */
  lemma EncodeDecode(e: ExpLog, t: Box, anchor: Box)
    requires LogInvertsExp(e)
    requires anchor.w != 0.0 && anchor.h != 0.0
    ensures RectRegression(e, Rect(e, t, anchor), anchor) == t
  {
    var r := Rect(e, t, anchor);
    OffsetRoundTrip(t.x, anchor.x, anchor.w);
    OffsetRoundTrip(t.y, anchor.y, anchor.h);
    assert r.w == e.exp(t.w) * anchor.w && r.h == e.exp(t.h) * anchor.h;
    var q := RectRegression(e, r, anchor);
    assert q.x == t.x && q.y == t.y;
    assert r.w / anchor.w == e.exp(t.w) && r.h / anchor.h == e.exp(t.h);
    assert q.w == e.log(e.exp(t.w)) == t.w;
    assert q.h == e.log(e.exp(t.h)) == t.h;
  }

  lemma OffsetInverse(v: real, origin: real, size: real)
    requires size != 0.0
    ensures ((v - origin) / size) * size + origin == v
  {
  }

  lemma OffsetRoundTrip(t: real, origin: real, size: real)
    requires size != 0.0
    ensures ((t * size + origin) - origin) / size == t
  {
  }
}
