/** The DOM processor's chunking: the viewport is cut into `chunkSize` horizontal bands of
    equal height, and each element is told which band its top edge falls in. The elements
    come from the browser and are not built here. */
module DomProcessor {
  import opened Wrappers

  /** A processed DOM element; only its chunk id is ever updated. */
  class DOMElement {
    const xpath: string
    const text: string
    const tagName: string
    const isInteractive: bool
    const attributes: map<string, string>
    const boundingBox: map<string, real>
    var chunkId: int

    /** An element is built in chunk 0. */
    constructor(xpath: string, text: string, tagName: string, isInteractive: bool,
                attributes: map<string, string>, boundingBox: map<string, real>)
      ensures this.xpath == xpath && this.text == text && this.tagName == tagName
      ensures this.isInteractive == isInteractive && this.attributes == attributes
      ensures this.boundingBox == boundingBox
      ensures chunkId == 0
    {
      this.xpath := xpath;
      this.text := text;
      this.tagName := tagName;
      this.isInteractive := isInteractive;
      this.attributes := attributes;
      this.boundingBox := boundingBox;
      chunkId := 0;
    }
  }

  const ZeroDivision: string := "ZeroDivisionError: division by zero"
  const FloatZeroDivision: string := "ZeroDivisionError: float division by zero"
  const MissingY: string := "KeyError: 'y'"

  /** Python's `int()` of a real: truncation toward zero. */
  function Trunc(x: real): int {
    if x >= 0.0 then x.Floor else -((-x).Floor)
  }

  /** The chunk an element's bounding box falls in, for bands of height `chunkHeight`:
      a box without "y" is a key error and a zero height a division error. */
  function ElementChunk(box: map<string, real>, chunkHeight: real): Result<int, string> {
    if "y" !in box then Failure(MissingY)
    else if chunkHeight == 0.0 then Failure(FloatZeroDivision)
    else Success(Trunc(box["y"] / chunkHeight))
  }

  /** In a band `[k*h, (k+1)*h)` of non-negative `y`, the chunk is `k`. */
  lemma ChunkOfBand(y: real, h: real, k: nat)
    requires h > 0.0
    requires k as real * h <= y < (k as real + 1.0) * h
    ensures ElementChunk(map["y" := y], h) == Success(k)
  {
    var q := y / h;
    assert q - k as real == (y - k as real * h) / h;
    assert (y - k as real * h) / h >= 0.0;
    var m := k as real + 1.0;
    assert h / h == 1.0;
    assert (m * h) / h == m * (h / h);
    assert (m * h - y) / h == (m * h) / h - y / h;
    assert (m * h - y) / h > 0.0;
  }

  /** Lower on the page never means an earlier chunk. */
  lemma ChunkMonotone(y1: real, y2: real, h: real)
    requires h > 0.0 && 0.0 <= y1 <= y2
    ensures Trunc(y1 / h) <= Trunc(y2 / h)
  {
    assert y2 / h - y1 / h == (y2 - y1) / h;
    assert (y2 - y1) / h >= 0.0;
    assert y1 / h >= 0.0;
  }

  /** An element inside the viewport is in one of the `chunkSize` chunks. */
  lemma ChunkWithinViewport(y: real, viewportHeight: int, chunkSize: int)
    requires chunkSize > 0 && viewportHeight > 0
    requires 0.0 <= y < viewportHeight as real
    ensures var h := viewportHeight as real / chunkSize as real;
      0 <= Trunc(y / h) < chunkSize
  {
    var v := viewportHeight as real;
    var n := chunkSize as real;
    var h := v / n;
    assert h > 0.0;
    assert y / h == y * n / v;
    assert y * n / v >= 0.0;
    assert n - y * n / v == (v - y) * n / v;
    assert (v - y) * n / v > 0.0;
  }

  /** Truncation sends an element just above the viewport to chunk 0 as well. */
  lemma SlightlyAboveIsChunkZero(y: real, h: real)
    requires h > 0.0 && -h < y < 0.0
    ensures ElementChunk(map["y" := y], h) == Success(0)
  {
    var q := y / h;
    assert h / h == 1.0;
    assert (y + h) / h == y / h + h / h;
    assert (y + h) / h > 0.0;
    assert -q == (-y) / h;
    assert (-y) / h > 0.0;
    assert (-q).Floor == 0;
  }

  class DOMProcessor {
    const chunkSize: int

    constructor(chunkSize: int := 3)
      ensures this.chunkSize == chunkSize
    {
      this.chunkSize := chunkSize;
    }

    /** `_chunk_elements`: with bands of height `viewportHeight / chunkSize`, write each
        element's chunk id in place, in list order, and hand back the same list. An error
        stops the loop at the first element it hits; the elements before it are updated. */
    method ChunkElements(elements: seq<DOMElement>, viewportHeight: int) returns (r: Result<seq<DOMElement>, string>)
      modifies elements
      ensures chunkSize == 0 ==>
        r == Failure(ZeroDivision) &&
        forall i :: 0 <= i < |elements| ==> elements[i].chunkId == old(elements[i].chunkId)
      ensures chunkSize != 0 ==>
        var h := viewportHeight as real / chunkSize as real;
        (r.Success? <==> forall i :: 0 <= i < |elements| ==> ElementChunk(elements[i].boundingBox, h).Success?) &&
        (r.Success? ==>
           r.value == elements &&
           forall i :: 0 <= i < |elements| ==> ElementChunk(elements[i].boundingBox, h) == Success(elements[i].chunkId)) &&
        (r.Failure? ==> exists k {:trigger FailsFirstAt(elements, h, k, r.error)} ::
           FailsFirstAt(elements, h, k, r.error) &&
           forall j :: k <= j < |elements| && elements[j] !in elements[..k] ==>
             elements[j].chunkId == old(elements[j].chunkId))
    {
      if chunkSize == 0 {
        return Failure(ZeroDivision);
      }
      var h := viewportHeight as real / chunkSize as real;
      var i := 0;
      while i < |elements|
        invariant 0 <= i <= |elements|
        invariant forall j :: 0 <= j < i ==> ElementChunk(elements[j].boundingBox, h) == Success(elements[j].chunkId)
        invariant forall j :: i <= j < |elements| && elements[j] !in elements[..i] ==>
          elements[j].chunkId == old(elements[j].chunkId)
      {
        var element := elements[i];
        match ElementChunk(element.boundingBox, h) {
          case Failure(e) =>
            assert FailsFirstAt(elements, h, i, e);
            return Failure(e);
          case Success(id) =>
            element.chunkId := id;
        }
        assert elements[..i + 1] == elements[..i] + [element];
        i := i + 1;
      }
      return Success(elements);
    }
  }

  /** Element `k` is where the chunking stops with `error`: every element before it got its
      chunk and element `k` fails with that error. */
  ghost predicate FailsFirstAt(elements: seq<DOMElement>, h: real, k: int, error: string)
    reads elements
  {
    0 <= k < |elements| &&
    ElementChunk(elements[k].boundingBox, h) == Failure(error) &&
    (forall j :: 0 <= j < k ==> ElementChunk(elements[j].boundingBox, h) == Success(elements[j].chunkId))
  }
}
