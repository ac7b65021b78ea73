/** The zone-based object detector of the RTSP camera: zones are rectangles drawn
    with the mouse, and every person or car found in a frame is reported with its
    box, label, score, box centre and the first zone that holds the centre. */
module RtspDetection {
  import opened Text

  /** A zone as stored: the press corner (ix, iy) and the release corner (x, y). */
  datatype Rect = Rect(xMin: int, yMin: int, xMax: int, yMax: int)

  /** A detection box [x0, y0, x1, y1] in pixels. */
  datatype Box = Box(x0: real, y0: real, x1: real, y1: real)

  /** One detection of a frame, after the label id has been turned into its name. */
  datatype Detection = Detection(score: real, name: string, box: Box)

  /** is_point_in_rectangle: both bounds inclusive on both axes. */
  predicate IsPointInRectangle(x: real, y: real, r: Rect)
  {
    r.xMin as real <= x <= r.xMax as real && r.yMin as real <= y <= r.yMax as real
  }

  /** The edges belong to the zone: all four corners of a zone drawn top-left to
      bottom-right are inside it. */
  lemma CornersAreInside(r: Rect)
    requires r.xMin <= r.xMax && r.yMin <= r.yMax
    ensures IsPointInRectangle(r.xMin as real, r.yMin as real, r)
    ensures IsPointInRectangle(r.xMax as real, r.yMax as real, r)
    ensures IsPointInRectangle(r.xMin as real, r.yMax as real, r)
    ensures IsPointInRectangle(r.xMax as real, r.yMin as real, r)
  {
  }

  /** Zones keep the drag order of their corners, so one dragged right-to-left or
      bottom-to-top holds no point at all. */
  lemma ReversedZoneIsEmpty(r: Rect, x: real, y: real)
    requires r.xMax < r.xMin || r.yMax < r.yMin
    ensures !IsPointInRectangle(x, y, r)
  {
  }

  // ---- drawing zones ----------------------------------------------------------

  datatype MouseEvent = LeftButtonDown | MouseMove | LeftButtonUp | OtherEvent

  /** The state the mouse callback keeps between events. */
  class ZoneEditor {
    var drawing: bool
    var ix: int
    var iy: int
    var rectangles: seq<Rect>

    constructor ()
      ensures !drawing && ix == -1 && iy == -1 && rectangles == []
    {
      drawing := false;
      ix, iy := -1, -1;
      rectangles := [];
    }

    /** draw_rectangle: a press records the anchor, a release stores the zone from the
        anchor to the release point, whatever the direction of the drag. Moves only
        draw on the frame. */
    method DrawRectangle(event: MouseEvent, x: int, y: int)
      modifies this
      ensures event == LeftButtonDown ==>
                drawing && ix == x && iy == y && rectangles == old(rectangles)
      ensures event == LeftButtonUp ==>
                !drawing && ix == old(ix) && iy == old(iy) &&
                rectangles == old(rectangles) + [Rect(old(ix), old(iy), x, y)]
      ensures event == MouseMove || event == OtherEvent ==>
                drawing == old(drawing) && ix == old(ix) && iy == old(iy) && rectangles == old(rectangles)
    {
      match event
      case LeftButtonDown =>
        drawing := true;
        ix, iy := x, y;
      case LeftButtonUp =>
        drawing := false;
        rectangles := rectangles + [Rect(ix, iy, x, y)];
      case MouseMove =>
      case OtherEvent =>
    }
  }

  /** A release with no press before it stores a zone anchored at (-1, -1). */
  method ReleaseWithoutPress(x: int, y: int) returns (zones: seq<Rect>)
    ensures zones == [Rect(-1, -1, x, y)]
  {
    var editor := new ZoneEditor();
    editor.DrawRectangle(LeftButtonUp, x, y);
    zones := editor.rectangles;
  }

  // ---- one frame ----------------------------------------------------------------

  /** Only these labels are reported. */
  const LabelSet: seq<string> := ["person", "car"]

  /** The grid index reported when no zone holds the centre. */
  const NoZone := 9999

  /** The detections whose label is listed, in frame order. */
  function Kept(ds: seq<Detection>, labels: seq<string>): (r: seq<Detection>)
    ensures |r| <= |ds|
    ensures forall i :: 0 <= i < |r| ==> r[i].name in labels
  {
    if ds == [] then []
    else
      var rest := Kept(ds[..|ds| - 1], labels);
      if ds[|ds| - 1].name in labels then rest + [ds[|ds| - 1]] else rest
  }

  /** Kept keeps frame order: a listed detection at position j is the element that
      follows the ones kept from before it. */
  lemma KeptInFrameOrder(ds: seq<Detection>, labels: seq<string>, j: nat)
    requires j < |ds| && ds[j].name in labels
    ensures |Kept(ds[..j], labels)| < |Kept(ds, labels)|
    ensures Kept(ds, labels)[|Kept(ds[..j], labels)|] == ds[j]
  {
    assert ds == ds[..j] + ([ds[j]] + ds[j + 1..]);
    KeptAppend(ds[..j], [ds[j]] + ds[j + 1..], labels);
    KeptAppend([ds[j]], ds[j + 1..], labels);
    assert Kept([ds[j]], labels) == [ds[j]] by {
      assert [ds[j]][..0] == [];
    }
  }

  /** Kept drops no listed detection and duplicates none: each one occurs as often as
      in the frame, and every other detection not at all. */
  lemma {:induction false} KeptCounts(ds: seq<Detection>, labels: seq<string>)
    ensures forall d :: multiset(Kept(ds, labels))[d] == if d.name in labels then multiset(ds)[d] else 0
    ensures forall d :: d in Kept(ds, labels) <==> d in ds && d.name in labels
    decreases |ds|
  {
    if ds != [] {
      var init := ds[..|ds| - 1];
      KeptCounts(init, labels);
      assert ds == init + [ds[|ds| - 1]];
    }
  }

  /** Filtering distributes over concatenation. */
  lemma {:induction false} KeptAppend(a: seq<Detection>, b: seq<Detection>, labels: seq<string>)
    ensures Kept(a + b, labels) == Kept(a, labels) + Kept(b, labels)
    decreases |b|
  {
    if b == [] {
      assert a + b == a;
      assert Kept(b, labels) == [];
    } else {
      var init, last := b[..|b| - 1], b[|b| - 1];
      var tail := if last.name in labels then [last] else [];
      KeptAppend(a, init, labels);
      assert b == init + [last];
      assert a + b == (a + init) + [last];
      KeptLast(a + b, a + init, last, labels);
      KeptLast(b, init, last, labels);
      assert Kept(a, labels) + Kept(b, labels) == (Kept(a, labels) + Kept(init, labels)) + tail;
    }
  }

  /** One unfolding of Kept, at the last detection. */
  lemma KeptLast(ds: seq<Detection>, init: seq<Detection>, last: Detection, labels: seq<string>)
    requires ds == init + [last]
    ensures Kept(ds, labels) == Kept(init, labels) + (if last.name in labels then [last] else [])
  {
    assert ds[..|ds| - 1] == init;
  }

  /** The centre of a box. */
  function Midpoint(b: Box): (m: (real, real))
    ensures b.x0 <= b.x1 ==> b.x0 <= m.0 <= b.x1
    ensures b.y0 <= b.y1 ==> b.y0 <= m.1 <= b.y1
  {
    ((b.x0 + b.x1) / 2.0, (b.y0 + b.y1) / 2.0)
  }

  /** The first zone that holds the point, if any. */
  function FirstContaining(zones: seq<Rect>, x: real, y: real): (r: Option<nat>)
    ensures r.Some? ==> r.value < |zones| && IsPointInRectangle(x, y, zones[r.value])
    ensures r.Some? ==> forall j :: 0 <= j < r.value ==> !IsPointInRectangle(x, y, zones[j])
    ensures r.None? ==> forall j :: 0 <= j < |zones| ==> !IsPointInRectangle(x, y, zones[j])
  {
    if zones == [] then None
    else if IsPointInRectangle(x, y, zones[0]) then Some(0)
    else match FirstContaining(zones[1..], x, y)
      case None => None
      case Some(i) => Some(i + 1)
  }

  /** The grid_index field: the first zone holding the point, or 9999. */
  function GridIndex(zones: seq<Rect>, x: real, y: real): int
  {
    match FirstContaining(zones, x, y)
    case None => NoZone
    case Some(i) => i
  }

  /** The zone search stops at the first zone that holds the point. */
  method FirstZone(zones: seq<Rect>, x: real, y: real) returns (index: int)
    ensures index == GridIndex(zones, x, y)
  {
    index := NoZone;
    var ind := 0;
    while ind < |zones|
      invariant 0 <= ind <= |zones|
      invariant forall j :: 0 <= j < ind ==> !IsPointInRectangle(x, y, zones[j])
      invariant index == NoZone
    {
      if IsPointInRectangle(x, y, zones[ind]) {
        index := ind;
        break;
      }
      ind := ind + 1;
    }
  }

  /** With fewer than 10000 zones, 9999 means exactly that no zone holds the point,
      and any other index names the first zone that does. */
  lemma GridIndexMeaning(zones: seq<Rect>, x: real, y: real)
    requires |zones| <= NoZone
    ensures GridIndex(zones, x, y) == NoZone <==>
              forall j :: 0 <= j < |zones| ==> !IsPointInRectangle(x, y, zones[j])
    ensures GridIndex(zones, x, y) != NoZone ==>
              0 <= GridIndex(zones, x, y) < |zones| &&
              IsPointInRectangle(x, y, zones[GridIndex(zones, x, y)])
  {
    match FirstContaining(zones, x, y)
    case None =>
    case Some(i) =>
      assert IsPointInRectangle(x, y, zones[i]);
  }

  /** A zone dragged backwards is never reported as a grid index. */
  lemma ReversedZoneIsNeverReported(zones: seq<Rect>, x: real, y: real, i: nat)
    requires i < |zones| && i != NoZone
    requires zones[i].xMax < zones[i].xMin || zones[i].yMax < zones[i].yMin
    ensures GridIndex(zones, x, y) != i
  {
    ReversedZoneIsEmpty(zones[i], x, y);
  }

  /** One entry of the frame's payload. */
  datatype Record = Record(boxData: Box, labelData: string, score: real, midPoint: (real, real), gridIndex: int)

  function RecordOf(d: Detection, zones: seq<Rect>): Record
  {
    var mid := Midpoint(d.box);
    Record(d.box, d.name, d.score, mid, GridIndex(zones, mid.0, mid.1))
  }

  /** The key of the n-th reported object. */
  function ObjectKey(n: nat): string
  {
    "object" + NatToString(n)
  }

  /** Different counters give different keys, so no record overwrites another. */
  lemma ObjectKeysAreDistinct(a: nat, b: nat)
    requires ObjectKey(a) == ObjectKey(b)
    ensures a == b
  {
    assert NatToString(a) == ObjectKey(a)[6..] == ObjectKey(b)[6..] == NatToString(b);
    NatToStringInjective(a, b);
  }

  /** The keys "object1" .. "object<n>". */
  function ObjectKeys(n: nat): set<string>
  {
    set k: nat | 1 <= k <= n :: ObjectKey(k)
  }

  /** The next counter value gives a key not used so far. */
  lemma NextKeyIsNew(n: nat)
    ensures ObjectKey(n + 1) !in ObjectKeys(n)
    ensures ObjectKeys(n + 1) == ObjectKeys(n) + {ObjectKey(n + 1)}
  {
    if ObjectKey(n + 1) in ObjectKeys(n) {
      var k: nat :| 1 <= k <= n && ObjectKey(k) == ObjectKey(n + 1);
      ObjectKeysAreDistinct(k, n + 1);
    }
  }

  lemma KeyIsNotReused(k: nat, n: nat)
    requires 1 <= k <= n
    ensures ObjectKey(k) != ObjectKey(n + 1)
  {
    if ObjectKey(k) == ObjectKey(n + 1) {
      ObjectKeysAreDistinct(k, n + 1);
    }
  }

  lemma KeptStep(ds: seq<Detection>, i: nat, labels: seq<string>)
    requires i < |ds|
    ensures Kept(ds[..i + 1], labels) ==
              Kept(ds[..i], labels) + (if ds[i].name in labels then [ds[i]] else [])
  {
    assert ds[..i + 1][..i] == ds[..i];
  }

  /** The payload holds exactly one record per kept detection, under its number. */
  predicate FilesAll(send: map<string, Record>, kept: seq<Detection>, zones: seq<Rect>)
  {
    send.Keys == ObjectKeys(|kept|) &&
    forall k :: 1 <= k <= |kept| ==> send[ObjectKey(k)] == RecordOf(kept[k - 1], zones)
  }

  lemma FileNext(send: map<string, Record>, kept: seq<Detection>, d: Detection, zones: seq<Rect>)
    requires FilesAll(send, kept, zones)
    ensures FilesAll(send[ObjectKey(|kept| + 1) := RecordOf(d, zones)], kept + [d], zones)
  {
    var n := |kept|;
    var after := send[ObjectKey(n + 1) := RecordOf(d, zones)];
    NextKeyIsNew(n);
    forall k | 1 <= k <= n + 1
      ensures after[ObjectKey(k)] == RecordOf((kept + [d])[k - 1], zones)
    {
      if k <= n {
        KeyIsNotReused(k, n);
        assert (kept + [d])[k - 1] == kept[k - 1];
      }
    }
  }

  /** The body of the frame loop: count the kept detections and file each under its number. */
  method FrameRecords(detections: seq<Detection>, zones: seq<Rect>) returns (send: map<string, Record>)
    ensures send.Keys == ObjectKeys(|Kept(detections, LabelSet)|)
    ensures forall k :: 1 <= k <= |Kept(detections, LabelSet)| ==>
              send[ObjectKey(k)] == RecordOf(Kept(detections, LabelSet)[k - 1], zones)
  {
    send := map[];
    var n := 0;
    var i := 0;
    ghost var kept: seq<Detection> := [];
    while i < |detections|
      invariant 0 <= i <= |detections|
      invariant kept == Kept(detections[..i], LabelSet)
      invariant n == |kept|
      invariant FilesAll(send, kept, zones)
    {
      var d := detections[i];
      KeptStep(detections, i, LabelSet);
      if d.name in LabelSet {
        var mid := Midpoint(d.box);
        var index := FirstZone(zones, mid.0, mid.1);
        FileNext(send, kept, d, zones);
        send := send[ObjectKey(n + 1) := Record(d.box, d.name, d.score, mid, index)];
        kept := kept + [d];
        n := n + 1;
      }
      i := i + 1;
    }
    assert detections[..i] == detections;
  }
}
