/** The screenshot service: the quality check of a screenshot, and the annotation of a
    screenshot with one box per located element and one numbered circle per box, placed
    so that it does not cover an earlier number when that can be done in ten shifts.
    The browser is an oracle: `find` gives an element's location and size, or nothing
    when the lookup raises. Coordinates are reals; drawing is not modelled. */
module Vision {
  import opened Wrappers

  datatype AnnotationBox = AnnotationBox(x: real, y: real, width: real, height: real, id: string)

  datatype NumberPosition = NumberPosition(x: real, y: real)

  /** An element's location and size as the browser reports them. */
  datatype Rect = Rect(x: real, y: real, width: real, height: real)

  datatype Scroll = Scroll(scrollX: real, scrollY: real)

  const CircleRadius: real := 12.0
  const MaxAttempts: nat := 10
  const Offset: real := 5.0

  const QualityError: string := "ValueError: quality must be between 0 and 100"

  /** `get_screenshot`: a quality that is given, non-zero and outside 0..100 is refused;
      a usable non-zero quality yields the re-encoded image, anything else the raw one. */
  function GetScreenshot(quality: Option<int>, png: seq<bv8>, jpeg: seq<bv8>): (r: Result<seq<bv8>, string>)
    ensures r.Failure? <==> quality.Some? && quality.value != 0 && (quality.value < 0 || quality.value > 100)
    ensures r.Failure? ==> r.error == QualityError
    ensures quality.None? || quality == Some(0) ==> r == Success(png)
    ensures quality.Some? && 0 < quality.value <= 100 ==> r == Success(jpeg)
  {
    var q := quality.GetOr(0);
    if q != 0 && (q < 0 || q > 100) then Failure(QualityError)
    else if q != 0 then Success(jpeg)
    else Success(png)
  }

  /** The box of a located element: its location shifted by the page scroll, its size. */
  function Annotation(id: string, rect: Rect, scroll: Scroll): AnnotationBox {
    AnnotationBox(rect.x + scroll.scrollX, rect.y + scroll.scrollY, rect.width, rect.height, id)
  }

  function SquaredDistance(p: NumberPosition, q: NumberPosition): real {
    (p.x - q.x) * (p.x - q.x) + (p.y - q.y) * (p.y - q.y)
  }

  /** Two numbers overlap when their centres are closer than two radii. */
  predicate Overlaps(p: NumberPosition, q: NumberPosition) {
    SquaredDistance(p, q) < (2.0 * CircleRadius) * (2.0 * CircleRadius)
  }

  /** Comparing the squared distance with 576 is comparing the distance with 24. */
  lemma SquaredComparison(d: real, sq: real)
    requires d >= 0.0 && d * d == sq
    ensures d < 2.0 * CircleRadius <==> sq < (2.0 * CircleRadius) * (2.0 * CircleRadius)
  {
    if d >= 24.0 {
      assert d * d >= 24.0 * d;
    } else {
      assert d * d <= 24.0 * d;
    }
  }

  /** `_is_number_overlapping`: some number already placed overlaps `p`. */
  function IsNumberOverlapping(positions: seq<NumberPosition>, p: NumberPosition): (r: bool)
    ensures r <==> exists i :: 0 <= i < |positions| && Overlaps(p, positions[i])
  {
    if positions == [] then false
    else if Overlaps(p, positions[0]) then true
    else
      var rest := IsNumberOverlapping(positions[1..], p);
      assert forall i :: 1 <= i < |positions| ==> positions[i] == positions[1..][i - 1];
      rest
  }

  function Start(box: AnnotationBox): NumberPosition {
    NumberPosition(box.x - CircleRadius, box.y - CircleRadius)
  }

  function Shifted(p: NumberPosition, k: nat): NumberPosition {
    NumberPosition(p.x, p.y + Offset * k as real)
  }

  /** How many downward shifts the placement loop makes from `p` once `attempts` have been
      made: it shifts while `p` overlaps and fewer than ten attempts were made. */
  function Shifts(positions: seq<NumberPosition>, p: NumberPosition, attempts: nat): (k: nat)
    requires attempts <= MaxAttempts
    ensures k <= MaxAttempts - attempts
    decreases MaxAttempts - attempts
  {
    if IsNumberOverlapping(positions, p) && attempts < MaxAttempts then
      1 + Shifts(positions, Shifted(p, 1), attempts + 1)
    else 0
  }

  /** Where the number of `box` goes, given the numbers already placed. */
  function Placement(positions: seq<NumberPosition>, box: AnnotationBox): NumberPosition {
    Shifted(Start(box), Shifts(positions, Start(box), 0))
  }

  lemma {:induction false} ShiftedTwice(p: NumberPosition, j: nat, k: nat)
    ensures Shifted(Shifted(p, j), k) == Shifted(p, j + k)
  {
  }

  /** The loop stops at the first position that overlaps nothing, or after its last attempt:
      every position it passed over overlaps, and the one it stops at overlaps nothing
      unless all ten shifts were used. */
  lemma {:induction false} ShiftsStop(positions: seq<NumberPosition>, p: NumberPosition, attempts: nat)
    requires attempts <= MaxAttempts
    ensures var k := Shifts(positions, p, attempts);
      (forall j :: 0 <= j < k ==> IsNumberOverlapping(positions, Shifted(p, j))) &&
      (attempts + k < MaxAttempts ==> !IsNumberOverlapping(positions, Shifted(p, k)))
    decreases MaxAttempts - attempts
  {
    var k := Shifts(positions, p, attempts);
    if k == 0 {
      assert Shifted(p, 0) == p;
    } else {
      var q := Shifted(p, 1);
      ShiftsStop(positions, q, attempts + 1);
      assert p == Shifted(p, 0);
      forall j | 1 <= j < k
        ensures IsNumberOverlapping(positions, Shifted(p, j))
      {
        ShiftedTwice(p, 1, j - 1);
      }
      ShiftedTwice(p, 1, k - 1);
    }
  }

  /** The number starts a radius above and left of the box, moves only down, in steps of 5,
      at most ten times; it moved exactly as long as it overlapped, and unless all ten
      moves were used it is at least 24 away from every number already placed. */
  lemma PlacementSpec(positions: seq<NumberPosition>, box: AnnotationBox)
    ensures var k := Shifts(positions, Start(box), 0);
      var p := Placement(positions, box);
      k <= MaxAttempts &&
      p.x == box.x - CircleRadius && p.y == box.y - CircleRadius + Offset * k as real &&
      (forall j :: 0 <= j < k ==> IsNumberOverlapping(positions, Shifted(Start(box), j))) &&
      (k < MaxAttempts ==> forall i :: 0 <= i < |positions| ==> SquaredDistance(p, positions[i]) >= 576.0)
  {
    ShiftsStop(positions, Start(box), 0);
  }

  /** With nothing placed yet, the number stays at its start. */
  lemma PlacementOnEmpty(box: AnnotationBox)
    ensures Placement([], box) == NumberPosition(box.x - CircleRadius, box.y - CircleRadius)
  {
  }

  /** The numbers placed, in order, for `boxes` annotated one after the other on a fresh list. */
  function Placements(boxes: seq<AnnotationBox>): (ps: seq<NumberPosition>)
    ensures |ps| == |boxes|
    ensures forall i :: 0 <= i < |boxes| ==> ps[i].x == boxes[i].x - CircleRadius
  {
    if boxes == [] then []
    else
      var previous := Placements(boxes[..|boxes| - 1]);
      previous + [Placement(previous, boxes[|boxes| - 1])]
  }

  /** Placing more numbers never moves the ones already placed. */
  lemma {:induction false} PlacementsPrefix(boxes: seq<AnnotationBox>, n: nat)
    requires n <= |boxes|
    ensures Placements(boxes[..n]) == Placements(boxes)[..n]
    decreases |boxes|
  {
    if n < |boxes| {
      var init := boxes[..|boxes| - 1];
      assert boxes[..n] == init[..n];
      PlacementsPrefix(init, n);
    } else {
      assert boxes[..n] == boxes;
    }
  }

  /** `b` is the box of some entry that the browser finds. */
  predicate BoxOfEntry(b: AnnotationBox, entries: seq<(string, string)>, find: string -> Option<Rect>, scroll: Scroll) {
    exists i :: 0 <= i < |entries| && find(entries[i].1).Some? &&
                b == Annotation(entries[i].0, find(entries[i].1).value, scroll)
  }

  /** The boxes for the selector entries taken in order, one per element the browser finds. */
  function Boxes(entries: seq<(string, string)>, find: string -> Option<Rect>, scroll: Scroll)
    : (bs: seq<AnnotationBox>)
    ensures |bs| <= |entries|
    ensures forall j :: 0 <= j < |bs| ==> BoxOfEntry(bs[j], entries, find, scroll)
  {
    if entries == [] then []
    else
      var init := entries[..|entries| - 1];
      var (id, selector) := entries[|entries| - 1];
      var previous := Boxes(init, find, scroll);
      assert forall j :: 0 <= j < |previous| ==> BoxOfEntry(previous[j], entries, find, scroll) by {
        forall j | 0 <= j < |previous|
          ensures BoxOfEntry(previous[j], entries, find, scroll)
        {
          assert BoxOfEntry(previous[j], init, find, scroll);
          var i :| 0 <= i < |init| && find(init[i].1).Some? &&
                   previous[j] == Annotation(init[i].0, find(init[i].1).value, scroll);
          assert init[i] == entries[i];
        }
      }
      match find(selector)
      case None => previous
      case Some(rect) => previous + [Annotation(id, rect, scroll)]
  }

  /** Every entry the browser finds gets a box. */
  lemma {:induction false} BoxesCount(entries: seq<(string, string)>, find: string -> Option<Rect>, scroll: Scroll)
    requires forall i :: 0 <= i < |entries| ==> find(entries[i].1).Some?
    ensures |Boxes(entries, find, scroll)| == |entries|
  {
    if entries != [] {
      BoxesCount(entries[..|entries| - 1], find, scroll);
    }
  }

  /** One more entry adds its box when the browser finds it, and nothing otherwise. */
  lemma BoxesSnoc(entries: seq<(string, string)>, find: string -> Option<Rect>, scroll: Scroll, i: nat)
    requires i < |entries|
    ensures Boxes(entries[..i + 1], find, scroll) ==
      Boxes(entries[..i], find, scroll) +
      (if find(entries[i].1).Some? then [Annotation(entries[i].0, find(entries[i].1).value, scroll)] else [])
  {
    assert entries[..i + 1][..i] == entries[..i];
  }

  /** One more box places one more number, given the numbers before it. */
  lemma PlacementsSnoc(boxes: seq<AnnotationBox>, b: AnnotationBox)
    ensures Placements(boxes + [b]) == Placements(boxes) + [Placement(Placements(boxes), b)]
  {
    assert (boxes + [b])[..|boxes|] == boxes;
  }

  class ScreenshotService {
    const selectorMap: seq<(string, string)>
    var annotationBoxes: seq<AnnotationBox>
    var numberPositions: seq<NumberPosition>

    constructor(selectorMap: seq<(string, string)>)
      ensures this.selectorMap == selectorMap
      ensures annotationBoxes == [] && numberPositions == []
    {
      this.selectorMap := selectorMap;
      annotationBoxes := [];
      numberPositions := [];
    }

    /** `_find_non_overlapping_number_position`: shift the number down while it overlaps,
        at most ten times, then record it. */
    method FindNonOverlappingNumberPosition(box: AnnotationBox) returns (position: NumberPosition)
      modifies this
      ensures position == Placement(old(numberPositions), box)
      ensures numberPositions == old(numberPositions) + [position]
      ensures annotationBoxes == old(annotationBoxes)
    {
      var placed := numberPositions;
      position := Start(box);
      var attempts := 0;
      while IsNumberOverlapping(placed, position) && attempts < MaxAttempts
        invariant 0 <= attempts <= MaxAttempts
        invariant position == Shifted(Start(box), attempts)
        invariant Shifts(placed, Start(box), 0) == attempts + Shifts(placed, position, attempts)
        invariant annotationBoxes == old(annotationBoxes)
        decreases MaxAttempts - attempts
      {
        ShiftedTwice(Start(box), attempts, 1);
        position := NumberPosition(position.x, position.y + Offset);
        attempts := attempts + 1;
      }
      numberPositions := placed + [position];
    }

    /** `_create_element_annotation`: a found element gets its box and its number; an
        element the browser cannot find is skipped. */
    method CreateElementAnnotation(id: string, selector: string, scroll: Scroll, find: string -> Option<Rect>)
      modifies this
      ensures find(selector).None? ==>
        annotationBoxes == old(annotationBoxes) && numberPositions == old(numberPositions)
      ensures find(selector).Some? ==>
        var box := Annotation(id, find(selector).value, scroll);
        annotationBoxes == old(annotationBoxes) + [box] &&
        numberPositions == old(numberPositions) + [Placement(old(numberPositions), box)]
    {
      match find(selector)
      case None =>
      case Some(rect) =>
        var box := Annotation(id, rect, scroll);
        annotationBoxes := annotationBoxes + [box];
        var position := FindNonOverlappingNumberPosition(box);
    }

    /** `get_annotated_screenshot`: start from empty lists, then annotate every selector
        entry in order. */
    method GetAnnotatedScreenshot(scroll: Scroll, find: string -> Option<Rect>)
      modifies this
      ensures annotationBoxes == Boxes(selectorMap, find, scroll)
      ensures numberPositions == Placements(annotationBoxes)
    {
      annotationBoxes := [];
      numberPositions := [];
      var i := 0;
      while i < |selectorMap|
        invariant 0 <= i <= |selectorMap|
        invariant annotationBoxes == Boxes(selectorMap[..i], find, scroll)
        invariant numberPositions == Placements(annotationBoxes)
      {
        var (id, selector) := selectorMap[i];
        BoxesSnoc(selectorMap, find, scroll, i);
        if find(selector).Some? {
          PlacementsSnoc(annotationBoxes, Annotation(id, find(selector).value, scroll));
        }
        CreateElementAnnotation(id, selector, scroll, find);
        i := i + 1;
      }
      assert selectorMap[..i] == selectorMap;
    }
  }
}
