/** The car re-identification loop of the RTSP camera: every car whose box centre
    lies in a zone is cropped once per such zone, the crop is written as
    car_<zone>_<car>.jpg, embedded and sent to the vector search service, and the
    crop is written again under a name carrying the search result. */
module RtspCarEmbedding {
  import opened Text
  import opened RtspDetection

  /** Only cars are cropped. */
  const CarLabels: seq<string> := ["car"]

  /** One crop: the zone it was taken for, the car's number in the frame, and its box. */
  datatype Crop = Crop(zone: nat, car: nat, box: Box)

  /** The crops taken for one car: one per zone holding its centre, in zone order. */
  function CropsOf(box: Box, car: nat, zones: seq<Rect>): (r: seq<Crop>)
    ensures forall i :: 0 <= i < |r| ==>
              r[i].car == car && r[i].box == box && r[i].zone < |zones| &&
              IsPointInRectangle(Midpoint(box).0, Midpoint(box).1, zones[r[i].zone])
    ensures forall i, j :: 0 <= i < j < |r| ==> r[i].zone < r[j].zone
  {
    if zones == [] then []
    else
      var last := |zones| - 1;
      var mid := Midpoint(box);
      var rest := CropsOf(box, car, zones[..last]);
      if IsPointInRectangle(mid.0, mid.1, zones[last]) then rest + [Crop(last, car, box)] else rest
  }

  /** Every zone holding the car's centre gives a crop. */
  lemma {:induction false} CropsOfCoverZones(box: Box, car: nat, zones: seq<Rect>, z: nat)
    requires z < |zones| && IsPointInRectangle(Midpoint(box).0, Midpoint(box).1, zones[z])
    ensures Crop(z, car, box) in CropsOf(box, car, zones)
  {
    var last := |zones| - 1;
    if z < last {
      assert zones[..last][z] == zones[z];
      CropsOfCoverZones(box, car, zones[..last], z);
    }
  }

  /** The crops of a frame, cars numbered from 1 in frame order. */
  function Crops(cars: seq<Detection>, zones: seq<Rect>): seq<Crop>
  {
    if cars == [] then []
    else Crops(cars[..|cars| - 1], zones) + CropsOf(cars[|cars| - 1].box, |cars|, zones)
  }

  /** The inner loop: every zone is tested, with no early exit. */
  method ZoneCrops(box: Box, n: nat, zones: seq<Rect>) returns (crops: seq<Crop>)
    ensures crops == CropsOf(box, n, zones)
  {
    crops := [];
    var mid := Midpoint(box);
    var ind := 0;
    while ind < |zones|
      invariant 0 <= ind <= |zones|
      invariant crops == CropsOf(box, n, zones[..ind])
    {
      assert zones[..ind + 1][..ind] == zones[..ind];
      if IsPointInRectangle(mid.0, mid.1, zones[ind]) {
        crops := crops + [Crop(ind, n, box)];
      }
      ind := ind + 1;
    }
    assert zones[..ind] == zones;
  }

  lemma CropsStep(ds: seq<Detection>, i: nat, zones: seq<Rect>)
    requires i < |ds|
    ensures Crops(Kept(ds[..i + 1], CarLabels), zones) ==
              Crops(Kept(ds[..i], CarLabels), zones) +
              (if ds[i].name in CarLabels then CropsOf(ds[i].box, |Kept(ds[..i], CarLabels)| + 1, zones) else [])
  {
    KeptStep(ds, i, CarLabels);
    var before := Kept(ds[..i], CarLabels);
    var cars := Kept(ds[..i + 1], CarLabels);
    if ds[i].name in CarLabels {
      assert cars == before + [ds[i]];
      assert cars[..|cars| - 1] == before;
      assert Crops(cars, zones) == Crops(before, zones) + CropsOf(ds[i].box, |cars|, zones);
    } else {
      assert cars == before;
    }
  }

  /** The loop over the frame's detections: number every car, and crop it for every
      zone that holds its centre. */
  method FrameCrops(detections: seq<Detection>, zones: seq<Rect>) returns (crops: seq<Crop>)
    ensures crops == Crops(Kept(detections, CarLabels), zones)
  {
    crops := [];
    var n := 0;
    var i := 0;
    ghost var cars: seq<Detection> := [];
    while i < |detections|
      invariant 0 <= i <= |detections|
      invariant cars == Kept(detections[..i], CarLabels)
      invariant n == |cars|
      invariant crops == Crops(cars, zones)
    {
      var d := detections[i];
      CropsStep(detections, i, zones);
      KeptStep(detections, i, CarLabels);
      if d.name in CarLabels {
        n := n + 1;
        var own := ZoneCrops(d.box, n, zones);
        crops := crops + own;
      }
      cars := Kept(detections[..i + 1], CarLabels);
      i := i + 1;
    }
    assert detections[..i] == detections;
  }

  /** Every crop of a frame is taken for a zone that holds its car's centre. */
  lemma {:induction false} CropsLieInTheirZones(cars: seq<Detection>, zones: seq<Rect>, c: Crop)
    requires c in Crops(cars, zones)
    ensures c.zone < |zones| && IsPointInRectangle(Midpoint(c.box).0, Midpoint(c.box).1, zones[c.zone])
    ensures 1 <= c.car <= |cars| && c.box == cars[c.car - 1].box
  {
    var last := |cars| - 1;
    if c in Crops(cars[..last], zones) {
      CropsLieInTheirZones(cars[..last], zones, c);
    } else {
      var own := CropsOf(cars[last].box, |cars|, zones);
      assert c in own;
      var i :| 0 <= i < |own| && own[i] == c;
    }
  }

  /** A car whose centre lies in k zones is cropped k times, once per zone. */
  lemma EveryHoldingZoneIsCropped(cars: seq<Detection>, zones: seq<Rect>, k: nat, z: nat)
    requires 1 <= k <= |cars| && z < |zones|
    requires IsPointInRectangle(Midpoint(cars[k - 1].box).0, Midpoint(cars[k - 1].box).1, zones[z])
    ensures Crop(z, k, cars[k - 1].box) in Crops(cars, zones)
  {
    CropsOfCoverZones(cars[k - 1].box, k, zones, z);
    CropsHoldCar(cars, zones, k, Crop(z, k, cars[k - 1].box));
  }

  lemma {:induction false} CropsHoldCar(cars: seq<Detection>, zones: seq<Rect>, k: nat, c: Crop)
    requires 1 <= k <= |cars|
    requires c in CropsOf(cars[k - 1].box, k, zones)
    ensures c in Crops(cars, zones)
  {
    var last := |cars| - 1;
    var front := Crops(cars[..last], zones);
    var own := CropsOf(cars[last].box, |cars|, zones);
    assert Crops(cars, zones) == front + own;
    if k <= last {
      assert cars[..last][k - 1] == cars[k - 1];
      CropsHoldCar(cars[..last], zones, k, c);
      assert c in front;
    } else {
      assert c in own;
    }
  }

  /** A crop of the n-th car lying in its zone is not a crop of the first car when
      that car lies outside every zone. */
  lemma NotFirstCar(cars: seq<Detection>, zones: seq<Rect>, c: Crop)
    requires |cars| >= 1
    requires forall j :: 0 <= j < |zones| ==>
               !IsPointInRectangle(Midpoint(cars[0].box).0, Midpoint(cars[0].box).1, zones[j])
    requires c.zone < |zones| && IsPointInRectangle(Midpoint(c.box).0, Midpoint(c.box).1, zones[c.zone])
    requires 1 <= c.car <= |cars| && c.box == cars[c.car - 1].box
    ensures c.car >= 2
  {
    var outside := Midpoint(cars[0].box);
    assert !IsPointInRectangle(outside.0, outside.1, zones[c.zone]);
  }

  /** The car number counts every car of the frame, cropped or not: a car outside
      every zone is still counted, so the next car's number skips it. */
  lemma UncroppedCarsStillCount(cars: seq<Detection>, zones: seq<Rect>, c: Crop)
    requires |cars| >= 2
    requires forall j :: 0 <= j < |zones| ==>
               !IsPointInRectangle(Midpoint(cars[0].box).0, Midpoint(cars[0].box).1, zones[j])
    requires c in Crops(cars, zones)
    ensures c.car >= 2
  {
    CropsLieInTheirZones(cars, zones, c);
    NotFirstCar(cars, zones, c);
  }

  /** No two crops of one frame share a zone and a car number. */
  lemma {:induction false} CropsAreDistinct(cars: seq<Detection>, zones: seq<Rect>, i: nat, j: nat)
    requires i < j < |Crops(cars, zones)|
    ensures (Crops(cars, zones)[i].zone, Crops(cars, zones)[i].car) !=
            (Crops(cars, zones)[j].zone, Crops(cars, zones)[j].car)
  {
    var last := |cars| - 1;
    var front := Crops(cars[..last], zones);
    var own := CropsOf(cars[last].box, |cars|, zones);
    assert Crops(cars, zones) == front + own;
    if j < |front| {
      CropsAreDistinct(cars[..last], zones, i, j);
    } else if i < |front| {
      assert front[i] in front;
      CropsLieInTheirZones(cars[..last], zones, front[i]);
    } else {
      assert own[i - |front|].zone < own[j - |front|].zone;
    }
  }

  // ---- file names ---------------------------------------------------------------

  /** A number and an underscore in front of the rest of a file name. */
  function Numbered(n: nat, rest: string): string
  {
    NatToString(n) + "_" + rest
  }

  /** The crop file: car_<zone>_<car>.jpg. */
  function CropPath(c: Crop): string
  {
    "car_" + Numbered(c.zone, NatToString(c.car) + ".jpg")
  }

  /** The `search_result` field of the search service's reply, or "unknown". */
  function SearchResult(response: map<string, string>): (r: string)
    ensures "search_result" in response ==> r == response["search_result"]
    ensures "search_result" !in response ==> r == "unknown"
  {
    if "search_result" in response then response["search_result"] else "unknown"
  }

  /** The result file: car_<zone>_<car>_<search result>.jpg. */
  function ResultPath(c: Crop, searchResult: string): string
  {
    "car_" + Numbered(c.zone, Numbered(c.car, searchResult + ".jpg"))
  }

  lemma DropPrefix(p: string, x: string, y: string)
    requires p + x == p + y
    ensures x == y
  {
    assert x == (p + x)[|p|..];
    assert y == (p + y)[|p|..];
  }

  lemma DropSuffix(x: string, y: string, p: string)
    requires x + p == y + p
    ensures x == y
  {
    assert x == (x + p)[..|x|];
    assert y == (y + p)[..|y|];
  }

  /** Numbers hold no underscore, so a numbered name reads back uniquely. */
  lemma NumberedIsUnique(a: nat, u: string, b: nat, v: string)
    requires Numbered(a, u) == Numbered(b, v)
    ensures a == b && u == v
  {
    assert '_' !in NatToString(a) && '_' !in NatToString(b);
    SplitAtFirst(NatToString(a), u, NatToString(b), v, '_');
    NatToStringInjective(a, b);
  }

  /** A number followed by ".jpg" reads back uniquely. */
  lemma JpgNumberIsUnique(a: nat, b: nat)
    requires NatToString(a) + ".jpg" == NatToString(b) + ".jpg"
    ensures a == b
  {
    DropSuffix(NatToString(a), NatToString(b), ".jpg");
    NatToStringInjective(a, b);
  }

  /** A crop file name determines its zone and car number. */
  lemma CropPathIdentifiesCrop(c: Crop, d: Crop)
    requires CropPath(c) == CropPath(d)
    ensures c.zone == d.zone && c.car == d.car
  {
    DropPrefix("car_", Numbered(c.zone, NatToString(c.car) + ".jpg"), Numbered(d.zone, NatToString(d.car) + ".jpg"));
    NumberedIsUnique(c.zone, NatToString(c.car) + ".jpg", d.zone, NatToString(d.car) + ".jpg");
    JpgNumberIsUnique(c.car, d.car);
  }

  /** A result file name determines the zone, the car number and the search result. */
  lemma ResultPathIdentifiesCrop(c: Crop, s: string, d: Crop, t: string)
    requires ResultPath(c, s) == ResultPath(d, t)
    ensures c.zone == d.zone && c.car == d.car && s == t
  {
    var u := Numbered(c.car, s + ".jpg");
    var v := Numbered(d.car, t + ".jpg");
    DropPrefix("car_", Numbered(c.zone, u), Numbered(d.zone, v));
    NumberedIsUnique(c.zone, u, d.zone, v);
    NumberedIsUnique(c.car, s + ".jpg", d.car, t + ".jpg");
    DropSuffix(s, t, ".jpg");
  }

  /** Within one frame no crop file overwrites another. */
  lemma CropFilesAreDistinct(cars: seq<Detection>, zones: seq<Rect>, i: nat, j: nat)
    requires i < j < |Crops(cars, zones)|
    ensures CropPath(Crops(cars, zones)[i]) != CropPath(Crops(cars, zones)[j])
  {
    CropsAreDistinct(cars, zones, i, j);
    if CropPath(Crops(cars, zones)[i]) == CropPath(Crops(cars, zones)[j]) {
      CropPathIdentifiesCrop(Crops(cars, zones)[i], Crops(cars, zones)[j]);
    }
  }

  // ---- embedding and search -----------------------------------------------------

  /** What embedding a crop and querying the search service gives: no embedding,
      the service's JSON reply, or an exception. The image model and the HTTP
      exchange are not part of this model. */
  datatype Search = NoEmbedding | Replied(response: map<string, string>) | Raised(message: string)

  /** The result file written for a crop, if any: only when an embedding was
      produced and the reply was read. */
  function ResultFile(c: Crop, outcome: Search): (r: Option<string>)
    ensures r.Some? <==> outcome.Replied?
    ensures outcome.Replied? ==> r.value == ResultPath(c, SearchResult(outcome.response))
  {
    match outcome
    case Replied(response) => Some(ResultPath(c, SearchResult(response)))
    case _ => None
  }

  /** A reply without a search result names the file "..._unknown.jpg". */
  lemma MissingResultIsUnknown(c: Crop, response: map<string, string>)
    requires "search_result" !in response
    ensures ResultFile(c, Replied(response)) == Some(ResultPath(c, "unknown"))
  {
  }
}
