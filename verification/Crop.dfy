/** The crop of a still transition: which pixels changed, and the window that shows them. */
module Crop {
  import opened Outcomes

  type byte = b: int | 0 <= b < 256

  datatype Size = Size(width: nat, height: nat)

  datatype Raster = Raster(width: nat, height: nat, pixels: seq<byte>)

  /** A box of whole pixels. */
  datatype Box = Box(x: int, y: int, width: int, height: int)

  datatype ChangedRegion = ChangedRegion(box: Box, changedPixels: nat)

  /** A box in document coordinates. */
  datatype Region = Region(x: real, y: real, width: real, height: real)

  function Byte(raster: Raster, k: nat): Option<byte> {
    if k < |raster.pixels| then Some(raster.pixels[k]) else None
  }

  function Height(before: Raster, after: Raster): (height: nat)
    ensures height >= before.height && height >= after.height && height in {before.height, after.height}
  {
    if before.height > after.height then before.height else after.height
  }

  predicate SamePixel(before: Raster, after: Raster, x: nat, y: nat) {
    var k := (y * before.width + x) * 4;
    && Byte(before, k) == Byte(after, k) && Byte(before, k + 1) == Byte(after, k + 1)
    && Byte(before, k + 2) == Byte(after, k + 2) && Byte(before, k + 3) == Byte(after, k + 3)
  }

  /** A pixel differs when its row exists in one still only, or any of its four bytes differs. */
  predicate Differs(before: Raster, after: Raster, x: nat, y: nat) {
    y >= before.height || y >= after.height || !SamePixel(before, after, x, y)
  }

  /** The differing pixels of two stills of one width. */
  function AllDiffering(before: Raster, after: Raster): set<(nat, nat)> {
    set u: nat, v: nat | v < Height(before, after) && u < before.width && Differs(before, after, u, v) :: (u, v)
  }

  predicate Inside(box: Box, p: (nat, nat)) {
    box.x <= p.0 < box.x + box.width && box.y <= p.1 < box.y + box.height
  }

  /** Every point is inside, and each of the four sides touches one. */
  ghost predicate Tightest(box: Box, points: set<(nat, nat)>) {
    && (forall p :: p in points ==> Inside(box, p))
    && (exists p :: p in points && p.0 == box.x)
    && (exists p :: p in points && p.0 == box.x + box.width - 1)
    && (exists p :: p in points && p.1 == box.y)
    && (exists p :: p in points && p.1 == box.y + box.height - 1)
  }

  /** A box that encloses the points can be no smaller than the tightest one. */
  lemma TightestIsLeast(box: Box, points: set<(nat, nat)>, other: Box)
    requires Tightest(box, points) && forall p :: p in points ==> Inside(other, p)
    ensures other.x <= box.x && box.x + box.width <= other.x + other.width
    ensures other.y <= box.y && box.y + box.height <= other.y + other.height
  {
  }

  lemma TightestIsUnique(box: Box, points: set<(nat, nat)>)
    requires Tightest(box, points)
    ensures forall other :: Tightest(other, points) ==> other == box
  {
    forall other | Tightest(other, points) ensures other == box {
      TightestIsLeast(box, points, other);
      TightestIsLeast(other, points, box);
    }
  }

  // ---------------------------------------------------------------- in reading order

  type Test = (nat, nat) -> bool

  function Difference(before: Raster, after: Raster): Test {
    (x: nat, y: nat) => Differs(before, after, x, y)
  }

  /** The points that pass the test before column `x` of row `y`, row by row. */
  ghost function Passed(test: Test, width: nat, x: nat, y: nat): set<(nat, nat)>
    decreases y, x
  {
    if x > 0 then
      if test(x - 1, y) then Passed(test, width, x - 1, y) + {(x - 1, y)} else Passed(test, width, x - 1, y)
    else if y > 0 then Passed(test, width, width, y - 1)
    else {}
  }

  lemma {:induction false} PassedMember(test: Test, width: nat, x: nat, y: nat, p: (nat, nat))
    requires x <= width
    ensures p in Passed(test, width, x, y)
            <==> p.0 < width && (p.1 < y || (p.1 == y && p.0 < x)) && test(p.0, p.1)
    decreases y, x
  {
    if x > 0 {
      PassedMember(test, width, x - 1, y, p);
    } else if y > 0 {
      PassedMember(test, width, width, y - 1, p);
    }
  }

  lemma PassedIsAll(before: Raster, after: Raster)
    ensures Passed(Difference(before, after), before.width, 0, Height(before, after)) == AllDiffering(before, after)
  {
    var all := Passed(Difference(before, after), before.width, 0, Height(before, after));
    forall p ensures p in all <==> p in AllDiffering(before, after) {
      PassedMember(Difference(before, after), before.width, 0, Height(before, after), p);
    }
  }

  /** The number of points, and their least and greatest column. */
  ghost predicate Spans(points: set<(nat, nat)>, count: nat, low: int, high: int, width: nat) {
    && count == |points|
    && (forall p :: p in points ==> low <= p.0 <= high)
    && if points == {} then low == width && high == -1
       else (exists p :: p in points && p.0 == low) && (exists p :: p in points && p.0 == high)
  }

  lemma SpansGrow(points: set<(nat, nat)>, count: nat, low: int, high: int, width: nat, x: nat, y: nat)
    requires Spans(points, count, low, high, width) && x < width && (x, y) !in points
    ensures Spans(points + {(x, y)}, count + 1, if x < low then x else low, if x > high then x else high, width)
  {
    var more := points + {(x, y)};
    assert (x, y) in more && forall p :: p in points ==> p in more;
    if points != {} {
      var p :| p in points && p.0 == low;
      var q :| q in points && q.0 == high;
      assert p in more && q in more;
    }
  }

  lemma NextPixel(test: Test, width: nat, x: nat, y: nat, count: nat, low: int, high: int)
    requires x < width && test(x, y) && Spans(Passed(test, width, x, y), count, low, high, width)
    ensures Spans(Passed(test, width, x + 1, y), count + 1, if x < low then x else low, if x > high then x else high,
                  width)
  {
    PassedMember(test, width, x, y, (x, y));
    SpansGrow(Passed(test, width, x, y), count, low, high, width, x, y);
  }

  lemma {:induction false} WholeRowCount(test: Test, width: nat, x: nat, y: nat)
    requires x <= width && forall u: nat :: u < x ==> test(u, y)
    ensures |Passed(test, width, x, y)| == |Passed(test, width, 0, y)| + x
  {
    if x > 0 {
      WholeRowCount(test, width, x - 1, y);
      PassedMember(test, width, x - 1, y, (x - 1, y));
      assert test(x - 1, y);
    }
  }

  /** A row that passes everywhere. */
  lemma WholeRow(test: Test, width: nat, y: nat, count: nat)
    requires width > 0 && count == |Passed(test, width, 0, y)| && forall u: nat :: u < width ==> test(u, y)
    ensures Spans(Passed(test, width, 0, y + 1), count + width, 0, width - 1, width)
  {
    WholeRowCount(test, width, width, y);
    var points := Passed(test, width, 0, y + 1);
    forall p | p in points ensures p.0 < width { PassedMember(test, width, 0, y + 1, p); }
    PassedMember(test, width, 0, y + 1, (0, y));
    PassedMember(test, width, 0, y + 1, (width - 1, y));
    assert test(0, y) && test(width - 1, y);
    assert (0, y) in points && (width - 1, y) in points;
    var p: (nat, nat), q: (nat, nat) := (0, y), (width - 1, y);
    assert p in points && p.0 == 0 && q in points && q.0 == width - 1;
  }

  /** The least and greatest row of the points. */
  ghost predicate Reaches(points: set<(nat, nat)>, low: int, high: int, height: nat) {
    && (forall p :: p in points ==> low <= p.1 <= high)
    && if points == {} then low == height
       else (exists p :: p in points && p.1 == low) && (exists p :: p in points && p.1 == high)
  }

  /** A row that adds a point becomes the last row, and the first if there was none. */
  lemma RowsGrow(test: Test, width: nat, y: nat, low: int, high: int, height: nat)
    requires Reaches(Passed(test, width, 0, y), low, high, height) && y < height
    requires Passed(test, width, 0, y + 1) != Passed(test, width, 0, y)
    ensures Reaches(Passed(test, width, 0, y + 1), if y < low then y else low, y, height)
  {
    var past, next := Passed(test, width, 0, y), Passed(test, width, 0, y + 1);
    forall p: (nat, nat)
      ensures p in past ==> p.1 < y && p in next
      ensures p in next ==> p in past || p.1 == y
    {
      PassedMember(test, width, 0, y, p);
      PassedMember(test, width, 0, y + 1, p);
    }
    assert past <= next && !(next <= past);
    var p :| p in next && p !in past;
    assert p.1 == y;
    if past != {} {
      var q :| q in past && q.1 == low;
      assert q in next && low <= y;
    }
  }

  // ---------------------------------------------------------------- the scan

  /** One row of both stills: the columns and the count move on pixel by pixel. */
  method ScanRow(before: Raster, after: Raster, y: nat, minX: int, maxX: int, count: nat, ghost test: Test)
    returns (minX': int, maxX': int, count': nat, changed: bool)
    requires forall x: nat :: test(x, y) == !SamePixel(before, after, x, y)
    requires Spans(Passed(test, before.width, 0, y), count, minX, maxX, before.width)
    ensures Spans(Passed(test, before.width, 0, y + 1), count', minX', maxX', before.width)
    ensures count <= count' && (changed <==> count < count')
    ensures !changed ==> Passed(test, before.width, 0, y + 1) == Passed(test, before.width, 0, y)
  {
    minX', maxX', count', changed := minX, maxX, count, false;
    for x := 0 to before.width
      invariant Spans(Passed(test, before.width, x, y), count', minX', maxX', before.width)
      invariant count <= count' && (changed <==> count < count')
      invariant !changed ==> Passed(test, before.width, x, y) == Passed(test, before.width, 0, y)
    {
      if !SamePixel(before, after, x, y) {
        NextPixel(test, before.width, x, y, count', minX', maxX');
        changed, count' := true, count' + 1;
        if x < minX' { minX' := x; }
        if x > maxX' { maxX' := x; }
      } else {
        assert !test(x, y);
      }
    }
  }

  /** Stills of different widths are refused; otherwise the tightest box around every differing
      pixel and their exact number, or nothing when there is none. */
  method Changed(before: Raster, after: Raster) returns (r: Result<Option<ChangedRegion>, ()>)
    ensures r.Err? <==> before.width != after.width
    ensures r.Ok? ==> (r.value.None? <==> AllDiffering(before, after) == {})
    ensures r.Ok? && r.value.Some? ==>
              && r.value.value.changedPixels == |AllDiffering(before, after)|
              && Tightest(r.value.value.box, AllDiffering(before, after))
  {
    if before.width != after.width { return Err(()); }
    PassedIsAll(before, after);
    if before.width == 0 { // the loops count nothing
      assert AllDiffering(before, after) == {};
      return Ok(None);
    }
    var width: int, height: int := before.width, Height(before, after);
    ghost var test := Difference(before, after);
    var minX: int, maxX: int, minY: int, maxY: int := width, -1, height, -1;
    var count: nat := 0;
    for y := 0 to height
      invariant Spans(Passed(test, width, 0, y), count, minX, maxX, width)
      invariant Reaches(Passed(test, width, 0, y), minY, maxY, height)
    {
      if y >= before.height || y >= after.height {
        WholeRow(test, width, y, count);
        RowsGrow(test, width, y, minY, maxY, height);
        minX, maxX := 0, width - 1;
        if y < minY { minY := y; }
        maxY := y;
        count := count + width;
      } else {
        var changed;
        minX, maxX, count, changed := ScanRow(before, after, y, minX, maxX, count, test);
        if changed {
          RowsGrow(test, width, y, minY, maxY, height);
          if y < minY { minY := y; }
          maxY := y;
        }
      }
    }
    if count == 0 { return Ok(None); }
    r := Ok(Some(ChangedRegion(Box(minX, minY, maxX - minX + 1, maxY - minY + 1), count)));
  }

  // ---------------------------------------------------------------- windows

  /** Rounding to the nearest integer, halves upward. */
  function Round(v: real): int {
    (v + 0.5).Floor
  }

  function Clamp(v: real, low: real, high: real): real {
    var raised := if v < low then low else v;
    if raised > high then high else raised
  }

  function Least(a: nat, b: nat): nat {
    if a < b then a else b
  }

  predicate FitsFrame(box: Box, frame: Size) {
    box.width <= frame.width && box.height <= frame.height
  }

  /** Below a thousandth of the canvas a change counts as noise. An empty canvas has no share. */
  predicate NearIdentical(changed: Option<ChangedRegion>, canvas: Size) {
    changed.None?
    || (canvas.width * canvas.height != 0
        && changed.value.changedPixels as real / (canvas.width * canvas.height) as real < 0.001)
  }

  function RegionOf(box: Box): Region {
    Region(box.x as real, box.y as real, box.width as real, box.height as real)
  }

  function FramingWindow(region: Region, frame: Size, canvas: Size): Region {
    var width, height := Least(frame.width, canvas.width), Least(frame.height, canvas.height);
    var centered := Round(region.x + region.width / 2.0 - width as real / 2.0) as real;
    var y := if region.height > height as real then region.y
             else Round(region.y + region.height / 2.0 - height as real / 2.0) as real;
    Region(Clamp(centered, 0.0, (canvas.width - width) as real), Clamp(y, 0.0, (canvas.height - height) as real),
           width as real, height as real)
  }

  function WalkWindow(index: nat, count: nat, frame: Size, canvas: Size): Region {
    var width, height := Least(frame.width, canvas.width), Least(frame.height, canvas.height);
    var travel: int := canvas.height - height;
    var steps: int := if count - 1 > 1 then count - 1 else 1;
    Region(0.0, Clamp(Round((index * travel) as real / steps as real) as real, 0.0, travel as real),
           width as real, height as real)
  }

  /** A 1:1 crop: the frame's size as far as the canvas goes, and inside the canvas. */
  predicate Croppable(window: Region, frame: Size, canvas: Size) {
    && window.width == Least(frame.width, canvas.width) as real
    && window.height == Least(frame.height, canvas.height) as real
    && 0.0 <= window.x && window.x + window.width <= canvas.width as real
    && 0.0 <= window.y && window.y + window.height <= canvas.height as real
  }

  /** Whatever region is framed, the window can be cropped from both stills. */
  lemma FramingIsCroppable(region: Region, frame: Size, canvas: Size)
    ensures Croppable(FramingWindow(region, frame, canvas), frame, canvas)
  {
  }

  lemma WalkIsCroppable(index: nat, count: nat, frame: Size, canvas: Size)
    ensures Croppable(WalkWindow(index, count, frame, canvas), frame, canvas)
  {
  }

  /** The window is centred on its region to half a pixel, and starts at the top of a region taller
      than it, unless an edge of the canvas holds it back. */
  lemma FramingCentres(region: Region, frame: Size, canvas: Size)
    ensures var window := FramingWindow(region, frame, canvas);
            var dx := window.x + window.width / 2.0 - (region.x + region.width / 2.0);
            var dy := window.y + window.height / 2.0 - (region.y + region.height / 2.0);
            && (dx <= 0.5 || window.x == 0.0) && (-0.5 <= dx || window.x + window.width == canvas.width as real)
            && (if region.height > window.height
                then && (window.y <= region.y || window.y == 0.0)
                     && (region.y <= window.y || window.y + window.height == canvas.height as real)
                else && (dy <= 0.5 || window.y == 0.0)
                     && (-0.5 <= dy || window.y + window.height == canvas.height as real))
  {
    var width, height := Least(frame.width, canvas.width), Least(frame.height, canvas.height);
    RoundIsNear(region.x + region.width / 2.0 - width as real / 2.0);
    RoundIsNear(region.y + region.height / 2.0 - height as real / 2.0);
  }

  lemma RoundIsNear(v: real)
    ensures v - 0.5 <= Round(v) as real <= v + 0.5
  {
  }

  /** One dimension of centring: an extent that fits and lies on the canvas stays covered through
      rounding and clamping. */
  lemma CentringCovers(at: int, extent: int, size: nat, canvas: nat)
    requires 0 <= at && 0 <= extent <= size <= canvas && at + extent <= canvas
    ensures var start := Clamp(Round(at as real + extent as real / 2.0 - size as real / 2.0) as real, 0.0,
                               (canvas - size) as real);
            start <= at as real && (at + extent) as real <= start + size as real
  {
    var v := at as real + extent as real / 2.0 - size as real / 2.0;
    var centred := Round(v);
    var slack := size - extent;
    assert v == at as real - slack as real / 2.0;
    assert centred <= at by { if slack == 0 { assert v + 0.5 == at as real + 0.5; } }
    assert at - slack <= centred;
  }

  /** A box on the canvas that fits the frame is shown whole. */
  lemma FramingCovers(box: Box, frame: Size, canvas: Size)
    requires 0 <= box.x && 0 <= box.y && 0 <= box.width && 0 <= box.height
    requires box.x + box.width <= canvas.width && box.y + box.height <= canvas.height && FitsFrame(box, frame)
    ensures var window := FramingWindow(RegionOf(box), frame, canvas);
            && window.x <= box.x as real && (box.x + box.width) as real <= window.x + window.width
            && window.y <= box.y as real && (box.y + box.height) as real <= window.y + window.height
  {
    CentringCovers(box.x, box.width, Least(frame.width, canvas.width), canvas.width);
    CentringCovers(box.y, box.height, Least(frame.height, canvas.height), canvas.height);
  }

  /** The walk goes down the page: it starts at the top, never goes back, and ends at the bottom. */
  lemma WalkDescends(index: nat, later: nat, count: nat, frame: Size, canvas: Size)
    requires index <= later && count >= 2
    ensures WalkWindow(0, count, frame, canvas).y == 0.0
    ensures WalkWindow(index, count, frame, canvas).y <= WalkWindow(later, count, frame, canvas).y
    ensures WalkWindow(count - 1, count, frame, canvas).y + Least(frame.height, canvas.height) as real
            == canvas.height as real
  {
    var travel: int := canvas.height - Least(frame.height, canvas.height);
    var steps: int := if count - 1 > 1 then count - 1 else 1;
    StepsAhead(index, later, travel, steps);
    assert 0 * travel == 0;
    WholeWalk(travel, steps);
  }

  lemma StepsAhead(index: nat, later: nat, travel: int, steps: int)
    requires index <= later && travel >= 0 && steps >= 1
    ensures Round((index * travel) as real / steps as real) <= Round((later * travel) as real / steps as real)
  {
    var a, b := index * travel, later * travel;
    assert a <= b by { assert b - a == (later - index) * travel; }
    assert a as real / steps as real <= b as real / steps as real;
  }

  lemma WholeWalk(travel: int, steps: int)
    requires steps >= 1
    ensures Round((steps * travel) as real / steps as real) == travel
  {
    var s, t := steps as real, travel as real;
    assert (steps * travel) as real == s * t;
    assert s * t / s == t;
  }

  // ---------------------------------------------------------------- the plan of one transition

  datatype Framing = ChangedPixels | Anchor | PageWalk

  datatype Transition = Transition(framing: Framing, canvas: Size, window: Region, changedPixels: nat)

  datatype State = State(dimensions: Size, anchor: Option<Region>)

  predicate Shows(window: Region, p: (nat, nat)) {
    && window.x <= p.0 as real && p.0 as real + 1.0 <= window.x + window.width
    && window.y <= p.1 as real && p.1 as real + 1.0 <= window.y + window.height
  }

  /** The tightest box of the differing pixels lies on the canvas. */
  lemma BoxOnCanvas(box: Box, before: Raster, after: Raster)
    requires Tightest(box, AllDiffering(before, after))
    ensures 0 <= box.x && box.x + box.width <= before.width && 0 <= box.width
    ensures 0 <= box.y && box.y + box.height <= Height(before, after) && 0 <= box.height
  {
  }

  /** Rasters carry their state's dimensions. The window can always be cropped; framed as a change
      it shows every differing pixel whole; and it is framed so exactly when the change is more
      than noise and its box fits the frame. */
  method PlanTransition(index: nat, count: nat, before: State, after: State, beforeRaster: Raster, afterRaster: Raster,
                        frame: Size)
    returns (r: Result<Transition, ()>)
    requires beforeRaster.width == before.dimensions.width && beforeRaster.height == before.dimensions.height
    requires afterRaster.width == after.dimensions.width && afterRaster.height == after.dimensions.height
    ensures r.Err? <==> before.dimensions.width != after.dimensions.width
    ensures r.Ok? ==> && r.value.canvas == Size(beforeRaster.width, Height(beforeRaster, afterRaster))
                      && Croppable(r.value.window, frame, r.value.canvas)
                      && r.value.canvas.height >= before.dimensions.height
                      && r.value.canvas.height >= after.dimensions.height
                      && r.value.changedPixels == |AllDiffering(beforeRaster, afterRaster)|
    ensures r.Ok? && r.value.framing == ChangedPixels ==>
              forall p :: p in AllDiffering(beforeRaster, afterRaster) ==> Shows(r.value.window, p)
    ensures r.Ok? ==> (r.value.framing == ChangedPixels <==>
                         exists box :: && Tightest(box, AllDiffering(beforeRaster, afterRaster))
                                       && FitsFrame(box, frame)
                                       && !NearIdentical(Some(ChangedRegion(box, r.value.changedPixels)),
                                                         r.value.canvas))
    ensures r.Ok? && r.value.framing == Anchor ==>
              && (after.anchor.Some? || before.anchor.Some?)
              && var anchor := if after.anchor.Some? then after.anchor.value else before.anchor.value;
                 r.value.window == FramingWindow(anchor, frame, r.value.canvas)
    ensures r.Ok? && r.value.framing == PageWalk ==>
              && after.anchor.None? && before.anchor.None?
              && r.value.window == WalkWindow(index + 1, count, frame, r.value.canvas)
  {
    if before.dimensions.width != after.dimensions.width { return Err(()); }
    var canvas := Size(before.dimensions.width, Height(beforeRaster, afterRaster));
    var changed := Changed(beforeRaster, afterRaster);
    var anchor := if after.anchor.Some? then after.anchor else before.anchor;
    var shows := !NearIdentical(changed.value, canvas) && FitsFrame(changed.value.value.box, frame);
    var pixels := if changed.value.Some? then changed.value.value.changedPixels else 0;
    if shows {
      var box := changed.value.value.box;
      BoxOnCanvas(box, beforeRaster, afterRaster);
      FramingCovers(box, frame, canvas);
      FramingIsCroppable(RegionOf(box), frame, canvas);
      r := Ok(Transition(ChangedPixels, canvas, FramingWindow(RegionOf(box), frame, canvas), pixels));
    } else if anchor.Some? {
      FramingIsCroppable(anchor.value, frame, canvas);
      r := Ok(Transition(Anchor, canvas, FramingWindow(anchor.value, frame, canvas), pixels));
    } else {
      WalkIsCroppable(index + 1, count, frame, canvas);
      r := Ok(Transition(PageWalk, canvas, WalkWindow(index + 1, count, frame, canvas), pixels));
    }
    if changed.value.Some? { TightestIsUnique(changed.value.value.box, AllDiffering(beforeRaster, afterRaster)); }
  }
}
