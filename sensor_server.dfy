/** The sensor REST server of server/server.py. The three tables are sequences of rows held
    by a store object; the POST endpoints are methods that append rows (or, when they
    fail, leave every table as it was, as the rollback does), and the GET endpoints are
    filter / order / limit functions over the rows. Timestamps are integers supplied by
    the caller in place of the database clock. */
module SensorServer {
  import opened Text

  // ---- rows and request bodies ---------------------------------------------------

  /** A row of `sensor_info`; the tag list is stored as one comma-joined string. */
  datatype SensorInfoRow = SensorInfoRow(
    id: nat, sensorIdentifier: string, sensorName: string, owner: string,
    description: string, dataSourceType: string, internalDeliveryMode: string,
    creatorId: string, dataSourceFormat: string, tags: string)

  /** The body of POST /sensor-info/. */
  datatype SensorInfoIn = SensorInfoIn(
    sensorIdentifier: string, sensorName: string, owner: string,
    description: string, dataSourceType: string, internalDeliveryMode: string,
    creatorId: string, dataSourceFormat: string, tags: seq<string>)

  /** A row of `sensor_data`. */
  datatype SensorDataRow = SensorDataRow(
    id: nat, sensorId: string, temperature: real, humidity: real, createdAt: int)

  /** One detection of POST /rtsp-detections/; bbox is meant to be [x1, y1, x2, y2]. */
  datatype DetectionItem = DetectionItem(labelName: string, confidence: real, bbox: seq<int>)

  /** A row of `rtsp_detections`: the bounding box is flattened into four columns. */
  datatype DetectionRow = DetectionRow(
    id: nat, sensorId: string, labelName: string, confidence: real,
    x1: int, y1: int, x2: int, y2: int, createdAt: int)

  /** Why a request fails: a missing key in the reading body, a bounding box with fewer
      than four entries, a second sensor with the same identifier (the unique column),
      or a `count` query parameter that is not greater than zero. */
  datatype Failure =
    | KeyError(key: string)
    | IndexError
    | UniqueViolation(sensorIdentifier: string)
    | CountNotPositive(count: int)

  /** Query(5, gt=0) and Query(10, gt=0): the defaults of the two `count` parameters. */
  const DefaultRecentCount: int := 5
  const DefaultDetectionCount: int := 10

  // ---- sequence helpers: filter and sort ---------------------------------------

  /** The elements of s that satisfy p, in their original order. */
  function Filter<T(!new)>(s: seq<T>, p: T -> bool): (r: seq<T>)
    ensures forall x :: multiset(r)[x] == if p(x) then multiset(s)[x] else 0
    ensures forall i :: 0 <= i < |r| ==> p(r[i])
  {
    if s == [] then []
    else if p(s[0]) then
      assert s == [s[0]] + s[1..];
      [s[0]] + Filter(s[1..], p)
    else
      assert s == [s[0]] + s[1..];
      Filter(s[1..], p)
  }

  /** Every element of a sequence whose multiset is a filter of another satisfies the filter. */
  lemma FilteredElements<T(!new)>(r: seq<T>, s: seq<T>, p: T -> bool)
    requires forall x :: multiset(r)[x] == if p(x) then multiset(s)[x] else 0
    ensures forall i :: 0 <= i < |r| ==> p(r[i])
  {
    forall i | 0 <= i < |r|
      ensures p(r[i])
    {
      assert r[i] in multiset(r);
    }
  }

  predicate SortedBy<T>(s: seq<T>, key: T -> int)
  {
    forall i, j :: 0 <= i < j < |s| ==> key(s[i]) <= key(s[j])
  }

  /** Putting a head no larger than the first element in front keeps a sorted sequence sorted. */
  lemma ConsSorted<T>(h: T, t: seq<T>, key: T -> int)
    requires SortedBy(t, key)
    requires t != [] ==> key(h) <= key(t[0])
    ensures SortedBy([h] + t, key)
  {
    var r := [h] + t;
    forall i, j | 0 <= i < j < |r|
      ensures key(r[i]) <= key(r[j])
    {
      if i == 0 {
        assert r[j] == t[j - 1];
        assert key(t[0]) <= key(t[j - 1]);
      } else {
        assert r[i] == t[i - 1] && r[j] == t[j - 1];
      }
    }
  }

  /** x placed before the first element whose key is not smaller than its own. */
  function Insert<T>(x: T, s: seq<T>, key: T -> int): (r: seq<T>)
    ensures |r| == |s| + 1
    ensures multiset(r) == multiset(s) + multiset{x}
  {
    if s == [] then [x]
    else if key(x) <= key(s[0]) then [x] + s
    else
      assert s == [s[0]] + s[1..];
      [s[0]] + Insert(x, s[1..], key)
  }

  lemma SortedTail<T>(s: seq<T>, key: T -> int)
    requires s != [] && SortedBy(s, key)
    ensures SortedBy(s[1..], key)
  {
    forall i, j | 0 <= i < j < |s| - 1
      ensures key(s[1..][i]) <= key(s[1..][j])
    {
      assert s[1..][i] == s[i + 1] && s[1..][j] == s[j + 1];
    }
  }

  /** Inserting into a sorted sequence keeps it sorted. */
  lemma {:induction false} InsertSorted<T>(x: T, s: seq<T>, key: T -> int)
    requires SortedBy(s, key)
    ensures SortedBy(Insert(x, s, key), key)
    ensures s != [] ==> Insert(x, s, key)[0] == x || Insert(x, s, key)[0] == s[0]
  {
    if s == [] {
    } else if key(x) <= key(s[0]) {
      ConsSorted(x, s, key);
    } else {
      SortedTail(s, key);
      InsertSorted(x, s[1..], key);
      var rest := Insert(x, s[1..], key);
      if s[1..] != [] {
        assert s[1..][0] == s[1];
      }
      ConsSorted(s[0], rest, key);
    }
  }

  /** A reordering of s in ascending key order (an insertion sort). */
  function SortBy<T>(s: seq<T>, key: T -> int): (r: seq<T>)
    ensures SortedBy(r, key)
    ensures multiset(r) == multiset(s)
    ensures |r| == |s|
  {
    if s == [] then []
    else
      assert s == [s[0]] + s[1..];
      var rest := SortBy(s[1..], key);
      InsertSorted(s[0], rest, key);
      Insert(s[0], rest, key)
  }

  // ---- GET /sensor-info/ ----------------------------------------------------------

  /** What GET /sensor-info/ reports for one sensor: tags split back into a list. */
  datatype SensorInfoView = SensorInfoView(
    sensorIdentifier: string, sensorName: string, owner: string,
    description: string, tags: seq<string>)

  function InfoView(row: SensorInfoRow): SensorInfoView
  {
    SensorInfoView(row.sensorIdentifier, row.sensorName, row.owner, row.description, Split(row.tags, ','))
  }

  /** One view per stored sensor. The query has no ORDER BY; the model lists the rows
      in insertion order. */
  function GetSensorInfo(rows: seq<SensorInfoRow>): (r: seq<SensorInfoView>)
    ensures |r| == |rows|
    ensures forall i :: 0 <= i < |rows| ==>
      r[i].sensorIdentifier == rows[i].sensorIdentifier && r[i].sensorName == rows[i].sensorName &&
      r[i].owner == rows[i].owner && r[i].description == rows[i].description &&
      r[i].tags == Split(rows[i].tags, ',')
  {
    if rows == [] then [] else [InfoView(rows[0])] + GetSensorInfo(rows[1..])
  }

  /** The row register_sensor builds: every field copied, tags joined with ",". */
  function InfoRow(info: SensorInfoIn, id: nat): SensorInfoRow
  {
    SensorInfoRow(id, info.sensorIdentifier, info.sensorName, info.owner, info.description,
      info.dataSourceType, info.internalDeliveryMode, info.creatorId, info.dataSourceFormat,
      Join(",", info.tags))
  }

  /** Tags come back as they were registered when there is at least one tag and no tag
      contains a comma. */
  lemma TagsRoundTrip(info: SensorInfoIn, id: nat)
    requires |info.tags| >= 1
    requires forall i :: 0 <= i < |info.tags| ==> ',' !in info.tags[i]
    ensures InfoView(InfoRow(info, id)).tags == info.tags
  {
    SplitJoin(info.tags, ',');
  }

  /** A sensor registered with no tags reads back with the single tag "". */
  lemma EmptyTagsReadBackAsEmptyString(info: SensorInfoIn, id: nat)
    requires info.tags == []
    ensures InfoView(InfoRow(info, id)).tags == [""]
  {
  }

  /** A tag holding a comma reads back as two tags. */
  lemma CommaInTagSplitsIt(info: SensorInfoIn, id: nat)
    requires info.tags == ["indoor,lab"]
    ensures InfoView(InfoRow(info, id)).tags == ["indoor", "lab"]
  {
    SplitAfterPiece("indoor", ',', "lab");
    SplitPiece("lab", ',');
    assert Join(",", info.tags) == "indoor" + [','] + "lab";
  }

  // ---- GET /sensor-data/… ---------------------------------------------------------

  function OfSensor(rows: seq<SensorDataRow>, sensorId: string): (r: seq<SensorDataRow>)
    ensures forall x :: multiset(r)[x] == if x.sensorId == sensorId then multiset(rows)[x] else 0
  {
    Filter(rows, (x: SensorDataRow) => x.sensorId == sensorId)
  }

  predicate NewestFirst(s: seq<SensorDataRow>)
  {
    forall i, j :: 0 <= i < j < |s| ==> s[i].createdAt >= s[j].createdAt
  }

  predicate OldestFirst(s: seq<SensorDataRow>)
  {
    forall i, j :: 0 <= i < j < |s| ==> s[i].createdAt <= s[j].createdAt
  }

  /** order_by(created_at.desc()) */
  function SortNewestFirst(rows: seq<SensorDataRow>): (r: seq<SensorDataRow>)
    ensures multiset(r) == multiset(rows)
    ensures |r| == |rows|
    ensures NewestFirst(r)
  {
    var key := (x: SensorDataRow) => -x.createdAt;
    var r := SortBy(rows, key);
    assert forall i, j :: 0 <= i < j < |r| ==> key(r[i]) <= key(r[j]);
    r
  }

  /** GET /sensor-data/: every reading, newest first. */
  function ReadAllData(rows: seq<SensorDataRow>): (r: seq<SensorDataRow>)
    ensures multiset(r) == multiset(rows)
    ensures NewestFirst(r)
  {
    SortNewestFirst(rows)
  }

  /** GET /sensor-data/{sensor_id}: exactly that sensor's readings, newest first. */
  function ReadSensorData(rows: seq<SensorDataRow>, sensorId: string): (r: seq<SensorDataRow>)
    ensures forall x :: multiset(r)[x] == if x.sensorId == sensorId then multiset(rows)[x] else 0
    ensures NewestFirst(r)
    ensures |r| == |OfSensor(rows, sensorId)|
    ensures forall i :: 0 <= i < |r| ==> r[i].sensorId == sensorId
  {
    var r := SortNewestFirst(OfSensor(rows, sensorId));
    FilteredElements(r, rows, (x: SensorDataRow) => x.sensorId == sensorId);
    r
  }

  /** GET /sensor-data/{sensor_id}/range: the sensor's readings with
      start <= created_at <= end (both bounds inclusive), oldest first. */
  function SensorDataInRange(rows: seq<SensorDataRow>, sensorId: string, start: int, end: int): (r: seq<SensorDataRow>)
    ensures forall x :: multiset(r)[x] ==
                        if x.sensorId == sensorId && start <= x.createdAt <= end then multiset(rows)[x] else 0
    ensures OldestFirst(r)
  {
    var inRange := Filter(rows, (x: SensorDataRow) => x.sensorId == sensorId && start <= x.createdAt <= end);
    var key := (x: SensorDataRow) => x.createdAt;
    var r := SortBy(inRange, key);
    assert forall i, j :: 0 <= i < j < |r| ==> key(r[i]) <= key(r[j]);
    r
  }

  /** GET /sensor-data/{sensor_id}/recent: the first `count` rows of the sensor's
      newest-first listing; a count that is not positive is refused. */
  function RecentSensorData(rows: seq<SensorDataRow>, sensorId: string, count: int): (r: Result<seq<SensorDataRow>, Failure>)
    ensures r.Err? <==> count <= 0
    ensures r.Err? ==> r.error == CountNotPositive(count)
    ensures r.Ok? ==>
      |r.value| == Min(count, |OfSensor(rows, sensorId)|) &&
      r.value <= ReadSensorData(rows, sensorId) &&
      NewestFirst(r.value) &&
      forall i :: 0 <= i < |r.value| ==> r.value[i].sensorId == sensorId
  {
    if count <= 0 then Err(CountNotPositive(count))
    else
      var all := ReadSensorData(rows, sensorId);
      var r := Take(all, count);
      assert forall i :: 0 <= i < |r| ==> r[i] == all[i];
      Ok(r)
  }

  /** No reading of the sensor left out of the recent list is newer than the oldest
      reading in it. */
  lemma RecentAreTheNewest(rows: seq<SensorDataRow>, sensorId: string, count: int, x: SensorDataRow)
    requires RecentSensorData(rows, sensorId, count).Ok?
    requires x in rows && x.sensorId == sensorId
    requires x !in RecentSensorData(rows, sensorId, count).value
    ensures var recent := RecentSensorData(rows, sensorId, count).value;
      |recent| >= 1 && x.createdAt <= recent[|recent| - 1].createdAt
  {
    var all := ReadSensorData(rows, sensorId);
    var recent := RecentSensorData(rows, sensorId, count).value;
    assert multiset(rows)[x] > 0;
    assert x in multiset(all);
    var k :| 0 <= k < |all| && all[k] == x;
    assert k >= |recent|;
    assert |recent| == count;
    assert recent[|recent| - 1] == all[|recent| - 1];
  }

  // ---- detections ------------------------------------------------------------------

  /** The row stored for one detection: the bounding box flattened into x1, y1, x2, y2. */
  function DetectionRowOf(sensorId: string, item: DetectionItem, id: nat, now: int): DetectionRow
    requires |item.bbox| >= 4
  {
    DetectionRow(id, sensorId, item.labelName, item.confidence,
      item.bbox[0], item.bbox[1], item.bbox[2], item.bbox[3], now)
  }

  /** What GET /rtsp-detections/{sensor_id} reports for one row. */
  datatype DetectionView = DetectionView(labelName: string, confidence: real, bbox: seq<int>, timestamp: int)

  function ViewOf(row: DetectionRow): (v: DetectionView)
    ensures |v.bbox| == 4
  {
    DetectionView(row.labelName, row.confidence, [row.x1, row.y1, row.x2, row.y2], row.createdAt)
  }

  /** Reading a stored detection back rebuilds its bounding box exactly when it had four
      entries; a longer box loses everything after the fourth. */
  lemma BboxRoundTrip(sensorId: string, item: DetectionItem, id: nat, now: int)
    requires |item.bbox| >= 4
    ensures ViewOf(DetectionRowOf(sensorId, item, id, now)).bbox == item.bbox[..4]
    ensures |item.bbox| == 4 ==> ViewOf(DetectionRowOf(sensorId, item, id, now)).bbox == item.bbox
    ensures ViewOf(DetectionRowOf(sensorId, item, id, now)).labelName == item.labelName
    ensures ViewOf(DetectionRowOf(sensorId, item, id, now)).confidence == item.confidence
  {
  }

  /** Staging the rows of one POST /rtsp-detections/ batch, one per detection in order,
      with consecutive ids from firstId. A detection whose box has fewer than four
      entries makes the whole batch fail. */
  method StageDetections(sensorId: string, items: seq<DetectionItem>, firstId: nat, now: int)
    returns (r: Result<seq<DetectionRow>, Failure>)
    ensures r.Err? <==> exists i :: 0 <= i < |items| && |items[i].bbox| < 4
    ensures r.Err? ==> r.error == IndexError
    ensures r.Ok? ==> |r.value| == |items|
    ensures r.Ok? ==> forall i :: 0 <= i < |items| ==> r.value[i] == DetectionRowOf(sensorId, items[i], firstId + i, now)
  {
    var staged: seq<DetectionRow> := [];
    var i := 0;
    while i < |items|
      invariant 0 <= i <= |items|
      invariant forall k :: 0 <= k < i ==> |items[k].bbox| >= 4
      invariant |staged| == i
      invariant forall k :: 0 <= k < i ==> staged[k] == DetectionRowOf(sensorId, items[k], firstId + k, now)
    {
      var det := items[i];
      if |det.bbox| < 4 {
        return Err(IndexError);
      }
      staged := staged + [DetectionRowOf(sensorId, det, firstId + i, now)];
      i := i + 1;
    }
    return Ok(staged);
  }

  predicate DetectionNewestFirst(s: seq<DetectionRow>)
  {
    forall i, j :: 0 <= i < j < |s| ==> s[i].createdAt >= s[j].createdAt
  }

  function DetectionsOf(rows: seq<DetectionRow>, sensorId: string): (r: seq<DetectionRow>)
    ensures forall x :: multiset(r)[x] == if x.sensorId == sensorId then multiset(rows)[x] else 0
  {
    Filter(rows, (x: DetectionRow) => x.sensorId == sensorId)
  }

  /** order_by(created_at.desc()) on detections */
  function SortDetectionsNewestFirst(rows: seq<DetectionRow>): (r: seq<DetectionRow>)
    ensures multiset(r) == multiset(rows)
    ensures |r| == |rows|
    ensures DetectionNewestFirst(r)
  {
    var key := (x: DetectionRow) => -x.createdAt;
    var r := SortBy(rows, key);
    assert forall i, j :: 0 <= i < j < |r| ==> key(r[i]) <= key(r[j]);
    r
  }

  /** The sensor's detections, newest first. */
  function NewestDetections(rows: seq<DetectionRow>, sensorId: string): (r: seq<DetectionRow>)
    ensures forall x :: multiset(r)[x] == if x.sensorId == sensorId then multiset(rows)[x] else 0
    ensures DetectionNewestFirst(r)
    ensures |r| == |DetectionsOf(rows, sensorId)|
    ensures forall i :: 0 <= i < |r| ==> r[i].sensorId == sensorId
  {
    var r := SortDetectionsNewestFirst(DetectionsOf(rows, sensorId));
    FilteredElements(r, rows, (x: DetectionRow) => x.sensorId == sensorId);
    r
  }

  function Views(rows: seq<DetectionRow>): (r: seq<DetectionView>)
    ensures |r| == |rows|
    ensures forall i :: 0 <= i < |rows| ==> r[i] == ViewOf(rows[i])
  {
    if rows == [] then [] else [ViewOf(rows[0])] + Views(rows[1..])
  }

  /** GET /rtsp-detections/{sensor_id}: the sensor's `count` newest detections, each with
      its bounding box rebuilt as [x1, y1, x2, y2]; a count that is not positive is refused. */
  function GetRtspDetections(rows: seq<DetectionRow>, sensorId: string, count: int): (r: Result<seq<DetectionView>, Failure>)
    ensures r.Err? <==> count <= 0
    ensures r.Err? ==> r.error == CountNotPositive(count)
    ensures r.Ok? ==> |r.value| == Min(count, |DetectionsOf(rows, sensorId)|)
    ensures r.Ok? ==> forall i :: 0 <= i < |r.value| ==>
                        var row := NewestDetections(rows, sensorId)[i];
                        row.sensorId == sensorId && r.value[i] == ViewOf(row)
  {
    if count <= 0 then Err(CountNotPositive(count))
    else
      var all := NewestDetections(rows, sensorId);
      var picked := Take(all, count);
      assert forall i :: 0 <= i < |picked| ==> picked[i] == all[i];
      Ok(Views(picked))
  }

  // ---- the store and the POST endpoints -------------------------------------------

  /** The three tables, with the next primary key of each. */
  class SensorStore {
    var sensors: seq<SensorInfoRow>
    var readings: seq<SensorDataRow>
    var detections: seq<DetectionRow>
    var nextSensorId: nat
    var nextReadingId: nat
    var nextDetectionId: nat

    /** sensor_identifier is unique, and primary keys increase along each table and
        stay below the next key to hand out. */
    predicate Valid()
      reads this
    {
      (forall i, j :: 0 <= i < j < |sensors| ==> sensors[i].sensorIdentifier != sensors[j].sensorIdentifier) &&
      (forall i, j :: 0 <= i < j < |sensors| ==> sensors[i].id < sensors[j].id) &&
      (forall i :: 0 <= i < |sensors| ==> sensors[i].id < nextSensorId) &&
      (forall i, j :: 0 <= i < j < |readings| ==> readings[i].id < readings[j].id) &&
      (forall i :: 0 <= i < |readings| ==> readings[i].id < nextReadingId) &&
      (forall i, j :: 0 <= i < j < |detections| ==> detections[i].id < detections[j].id) &&
      (forall i :: 0 <= i < |detections| ==> detections[i].id < nextDetectionId)
    }

    constructor ()
      ensures Valid()
      ensures sensors == [] && readings == [] && detections == []
    {
      sensors := [];
      readings := [];
      detections := [];
      nextSensorId := 1;
      nextReadingId := 1;
      nextDetectionId := 1;
    }

    predicate Registered(identifier: string)
      reads this
    {
      exists i :: 0 <= i < |sensors| && sensors[i].sensorIdentifier == identifier
    }

    /** POST /sensor-info/: append one sensor with its tags comma-joined and report its
        id; a second sensor with the same identifier is refused and nothing is stored. */
    method RegisterSensor(info: SensorInfoIn) returns (r: Result<nat, Failure>)
      requires Valid()
      modifies this
      ensures Valid()
      ensures r.Err? <==> old(Registered(info.sensorIdentifier))
      ensures r.Err? ==> r.error == UniqueViolation(info.sensorIdentifier)
      ensures r.Err? ==> sensors == old(sensors) && nextSensorId == old(nextSensorId)
      ensures r.Ok? ==> r.value == old(nextSensorId) && nextSensorId == old(nextSensorId) + 1
      ensures r.Ok? ==> sensors == old(sensors) + [InfoRow(info, r.value)]
      ensures readings == old(readings) && nextReadingId == old(nextReadingId)
      ensures detections == old(detections) && nextDetectionId == old(nextDetectionId)
    {
      if Registered(info.sensorIdentifier) {
        return Err(UniqueViolation(info.sensorIdentifier));
      }
      var id := nextSensorId;
      sensors := sensors + [InfoRow(info, id)];
      nextSensorId := nextSensorId + 1;
      return Ok(id);
    }

    /** POST /sensor-data/{sensor_id}: append one reading taken from data["temperature"]
        and data["humidity"] (looked up in that order), stamped `now`; a missing key
        stores nothing. */
    method CreateSensorData(sensorId: string, data: map<string, real>, now: int) returns (r: Result<nat, Failure>)
      requires Valid()
      modifies this
      ensures Valid()
      ensures r.Err? <==> "temperature" !in data || "humidity" !in data
      ensures r.Err? ==> r.error == KeyError(if "temperature" !in data then "temperature" else "humidity")
      ensures r.Err? ==> readings == old(readings) && nextReadingId == old(nextReadingId)
      ensures r.Ok? ==> r.value == old(nextReadingId) && nextReadingId == old(nextReadingId) + 1
      ensures r.Ok? ==>
                readings == old(readings) + [SensorDataRow(r.value, sensorId, data["temperature"], data["humidity"], now)]
      ensures sensors == old(sensors) && nextSensorId == old(nextSensorId)
      ensures detections == old(detections) && nextDetectionId == old(nextDetectionId)
    {
      if "temperature" !in data {
        return Err(KeyError("temperature"));
      }
      if "humidity" !in data {
        return Err(KeyError("humidity"));
      }
      var id := nextReadingId;
      readings := readings + [SensorDataRow(id, sensorId, data["temperature"], data["humidity"], now)];
      nextReadingId := nextReadingId + 1;
      return Ok(id);
    }

    /** POST /rtsp-detections/: store one row per detection and report how many; if any
        detection fails the batch is rolled back and no row of it persists. */
    method ReceiveRtspDetections(sensorId: string, items: seq<DetectionItem>, now: int) returns (r: Result<nat, Failure>)
      requires Valid()
      modifies this
      ensures Valid()
      ensures r.Err? <==> exists i :: 0 <= i < |items| && |items[i].bbox| < 4
      ensures r.Err? ==> r.error == IndexError
      ensures r.Err? ==> detections == old(detections) && nextDetectionId == old(nextDetectionId)
      ensures r.Ok? ==> r.value == |items| && nextDetectionId == old(nextDetectionId) + |items|
      ensures r.Ok? ==> |detections| == |old(detections)| + |items| && detections[..|old(detections)|] == old(detections)
      ensures r.Ok? ==> forall i :: 0 <= i < |items| ==>
                          detections[|old(detections)| + i] == DetectionRowOf(sensorId, items[i], old(nextDetectionId) + i, now)
      ensures sensors == old(sensors) && nextSensorId == old(nextSensorId)
      ensures readings == old(readings) && nextReadingId == old(nextReadingId)
    {
      var staged := StageDetections(sensorId, items, nextDetectionId, now);
      if staged.Err? {
        return Err(staged.error);
      }
      detections := detections + staged.value;
      nextDetectionId := nextDetectionId + |items|;
      return Ok(|items|);
    }
  }

  /** Registering a sensor and listing the sensors shows it last, with the fields and
      the tags it was registered with when there is at least one and none holds a comma. */
  lemma RegisteredSensorIsListed(rows: seq<SensorInfoRow>, info: SensorInfoIn, id: nat)
    requires |info.tags| >= 1
    requires forall i :: 0 <= i < |info.tags| ==> ',' !in info.tags[i]
    ensures var listed := GetSensorInfo(rows + [InfoRow(info, id)]);
      |listed| == |rows| + 1 &&
      listed[|rows|].sensorIdentifier == info.sensorIdentifier &&
      listed[|rows|].sensorName == info.sensorName &&
      listed[|rows|].owner == info.owner &&
      listed[|rows|].description == info.description &&
      listed[|rows|].tags == info.tags
  {
    SplitJoin(info.tags, ',');
  }
}
