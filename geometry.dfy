/** Hole positions, the bounding box of the drill file, and the projection of a
    position onto the 640x480 screen grid (`get_screen_x`, `get_screen_y`) that
    also feeds the Morton ordering key (`compare_pos_by_morton_num`). */
module Geometry {
  import opened Morton

  /** `struct pos` without its `next` link: one hole in file coordinates. */
  datatype Pos = Pos(x: real, y: real, done: bool)

  /** The globals `min_x, max_x, min_y, max_y`. */
  datatype Box = Box(minX: real, maxX: real, minY: real, maxY: real)

  /** The projection divides by the width and height of the box: both must be
      non-zero (the source does not check). */
  predicate Spans(b: Box)
  {
    b.minX != b.maxX && b.minY != b.maxY
  }

  predicate InBox(b: Box, p: Pos)
  {
    b.minX <= p.x <= b.maxX && b.minY <= p.y <= b.maxY
  }

  /** C's conversion of a floating value to `int`: truncation toward zero. */
  function Truncate(r: real): int
  {
    if r >= 0.0 then r.Floor else -((-r).Floor)
  }

  /** `get_screen_x`: the box's x range mapped, inverted, onto columns 630 down to 10. */
  function ScreenX(b: Box, x: real): (col: int)
    requires b.minX != b.maxX
    ensures x == b.minX ==> col == 630
    ensures x == b.maxX ==> col == 10
  {
    var t := (x - b.minX) / (b.maxX - b.minX);
    WholeFraction(b.maxX - b.minX);
    Truncate(620.0 - t * 620.0 + 10.0)
  }

  /** `get_screen_y`: the box's y range mapped, inverted, onto rows 450 down to 10. */
  function ScreenY(b: Box, y: real): (row: int)
    requires b.minY != b.maxY
    ensures y == b.minY ==> row == 450
    ensures y == b.maxY ==> row == 10
  {
    var t := (y - b.minY) / (b.maxY - b.minY);
    WholeFraction(b.maxY - b.minY);
    Truncate(450.0 - t * 440.0)
  }

  /** The ordering key `compare_pos_by_morton_num` computes for a hole. */
  function Key(b: Box, p: Pos): int
    requires Spans(b)
  {
    MortonKey(ScreenX(b, p.x), ScreenY(b, p.y))
  }

  /** `compare_pos_by_morton_num`: negative, zero or positive as the first hole's
      key is below, equal to or above the second's. */
  method ComparePosByMortonNum(b: Box, p: Pos, q: Pos) returns (r: int)
    requires Spans(b)
    ensures r < 0 <==> Key(b, p) < Key(b, q)
    ensures r > 0 <==> Key(b, p) > Key(b, q)
  {
    var pKey := GetMortonNum(ScreenX(b, p.x), ScreenY(b, p.y));
    var qKey := GetMortonNum(ScreenX(b, q.x), ScreenY(b, q.y));
    if pKey < qKey {
      return -1;
    }
    if pKey > qKey {
      return 1;
    }
    return 0;
  }

  /** Holes in non-increasing key order: the order the relinked drill list has. */
  ghost predicate NonIncreasing(b: Box, s: seq<Pos>)
    requires |s| >= 2 ==> Spans(b)
  {
    forall i, j | 0 <= i < j < |s| :: Key(b, s[i]) >= Key(b, s[j])
  }

  // ---------------------------------------------------------------------------
  // Properties of the projection

  /** Dividing by a positive width keeps the order of the numerators. */
  lemma DivideMonotone(a: real, a': real, w: real)
    requires w > 0.0 && a <= a'
    ensures a / w <= a' / w
  {
    assert (a' / w - a / w) * w == a' - a;
  }

  lemma WholeFraction(w: real)
    requires w != 0.0
    ensures 0.0 / w == 0.0 && w / w == 1.0
  {
  }

  /** The fraction of the way from lo to hi at which v lies, for v in [lo, hi]. */
  lemma FractionInUnit(v: real, lo: real, hi: real)
    requires lo < hi && lo <= v <= hi
    ensures 0.0 <= (v - lo) / (hi - lo) <= 1.0
  {
    var w := hi - lo;
    DivideMonotone(0.0, v - lo, w);
    DivideMonotone(v - lo, w, w);
    WholeFraction(w);
  }

  /** A point of the box lands in columns 10..630. */
  lemma ScreenXInRange(b: Box, x: real)
    requires b.minX < b.maxX && b.minX <= x <= b.maxX
    ensures 10 <= ScreenX(b, x) <= 630
  {
    FractionInUnit(x, b.minX, b.maxX);
  }

  /** A point of the box lands in rows 10..450. */
  lemma ScreenYInRange(b: Box, y: real)
    requires b.minY < b.maxY && b.minY <= y <= b.maxY
    ensures 10 <= ScreenY(b, y) <= 450
  {
    FractionInUnit(y, b.minY, b.maxY);
  }

  /** The projection is inverted: a larger x never lands right of a smaller one. */
  lemma ScreenXAntitone(b: Box, x: real, x': real)
    requires b.minX < b.maxX && b.minX <= x <= x' <= b.maxX
    ensures ScreenX(b, x) >= ScreenX(b, x')
  {
    FractionInUnit(x, b.minX, b.maxX);
    FractionInUnit(x', b.minX, b.maxX);
    DivideMonotone(x - b.minX, x' - b.minX, b.maxX - b.minX);
  }

  /** The projection is inverted in y as well. */
  lemma ScreenYAntitone(b: Box, y: real, y': real)
    requires b.minY < b.maxY && b.minY <= y <= y' <= b.maxY
    ensures ScreenY(b, y) >= ScreenY(b, y')
  {
    FractionInUnit(y, b.minY, b.maxY);
    FractionInUnit(y', b.minY, b.maxY);
    DivideMonotone(y - b.minY, y' - b.minY, b.maxY - b.minY);
  }

  /** For holes inside the box the C `int` key never wraps negative: it is the
      interleaving of two screen coordinates that both fit in 15 bits. */
  lemma KeyInBox(b: Box, p: Pos)
    requires b.minX < b.maxX && b.minY < b.maxY && InBox(b, p)
    ensures Key(b, p) == Interleave(ScreenX(b, p.x), ScreenY(b, p.y), 16)
    ensures 0 <= Key(b, p) < 0x8000_0000
  {
    ScreenXInRange(b, p.x);
    ScreenYInRange(b, p.y);
    MortonKeyNonNegative(ScreenX(b, p.x), ScreenY(b, p.y));
  }

  /** Z-order respects dominance, inverted by the projection: a hole that is
      below and left of another (both in the box) never gets a smaller key. */
  lemma KeyDominance(b: Box, p: Pos, q: Pos)
    requires b.minX < b.maxX && b.minY < b.maxY && InBox(b, p) && InBox(b, q)
    requires p.x <= q.x && p.y <= q.y
    ensures Key(b, p) >= Key(b, q)
  {
    KeyInBox(b, p);
    KeyInBox(b, q);
    ScreenXAntitone(b, p.x, q.x);
    ScreenYAntitone(b, p.y, q.y);
    ScreenXInRange(b, q.x);
    ScreenYInRange(b, q.y);
    ScreenXInRange(b, p.x);
    ScreenYInRange(b, p.y);
    Pow2Constants();
    InterleaveMonotone(ScreenX(b, q.x), ScreenY(b, q.y), ScreenX(b, p.x), ScreenY(b, p.y), 16);
  }

  /** The keys of the two opposite corners of the four-corner drill file. */
  lemma CornerKeys(p: Pos, q: Pos)
    requires p.x == 0.0 && p.y == 0.0 && q.x == 1000.0 && q.y == 1000.0
    ensures Key(Box(0.0, 1000.0, 0.0, 1000.0), p) > Key(Box(0.0, 1000.0, 0.0, 1000.0), q)
  {
    var b := Box(0.0, 1000.0, 0.0, 1000.0);
    assert ScreenX(b, 0.0) == 630 && ScreenY(b, 0.0) == 450;
    assert ScreenX(b, 1000.0) == 10 && ScreenY(b, 1000.0) == 10;
    KeyInBox(b, p);
    KeyInBox(b, q);
    Pow2Constants();
    InterleaveStrictInFirst(10, 630, 10, 16);
    InterleaveStrictInSecond(630, 10, 450, 16);
  }

  /** The four-corner drill file: with the box exactly covering holes at
      (0,0) and (1000,1000), the hole at the origin has the larger key, so in a
      list ordered by non-increasing key it comes first. */
  lemma CornerOrder(s: seq<Pos>, i: nat, j: nat)
    requires |s| >= 2
    requires NonIncreasing(Box(0.0, 1000.0, 0.0, 1000.0), s)
    requires i < |s| && j < |s|
    requires s[i].x == 0.0 && s[i].y == 0.0
    requires s[j].x == 1000.0 && s[j].y == 1000.0
    ensures i < j
  {
    CornerKeys(s[i], s[j]);
  }
}
