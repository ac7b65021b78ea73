/** The MirrorLake resource formatters of mcp_server/mcp_mirrorlake_resource_wrapper.py.
    Each tool takes what the gateway fetched (a decoded JSON value, or the message of
    the exception the fetch raised) and renders it as text. The Python operations the
    formatters apply to that value (`.get`, slicing, `len`, `", ".join`, iteration,
    truthiness, `str`) are modelled with the exceptions they raise on the wrong kind of
    value, because every formatter turns such an exception into "[예외 발생] <message>". */
module ResourceWrapper {
  import opened Text

  // ---- decoded JSON values and the Python operations on them --------------------

  /** A decoded JSON value. A float is kept as the text `str()` gives for it, with
      whether it is zero; an object keeps its entries in document order. */
  datatype Value =
    | Null
    | Bool(b: bool)
    | Int(i: int)
    | Real(text: string, zero: bool)
    | Str(s: string)
    | List(items: seq<Value>)
    | Dict(entries: seq<Entry>)

  datatype Entry = Entry(key: string, value: Value)

  /** What a resource fetch produced: a value, or the message of the exception it raised. */
  datatype Fetch = Returned(data: Value) | Raised(message: string)

  /** `type(v).__name__` */
  function TypeName(v: Value): string
  {
    match v
    case Null => "NoneType"
    case Bool(_) => "bool"
    case Int(_) => "int"
    case Real(_, _) => "float"
    case Str(_) => "str"
    case List(_) => "list"
    case Dict(_) => "dict"
  }

  /** `str(v)` of a value that is not a container. */
  function ShowScalar(v: Value): string
  {
    match v
    case Null => "None"
    case Bool(b) => if b then "True" else "False"
    case Int(i) => IntToString(i)
    case Real(text, _) => text
    case Str(s) => s
    case _ => ""
  }

  /** `str(v)`, as an f-string field shows it. */
  function Show(v: Value): string
    decreases v, 1
  {
    if v.List? || v.Dict? then Repr(v) else ShowScalar(v)
  }

  /** `repr(v)`: strings in single quotes, lists and objects in Python's display syntax. */
  function Repr(v: Value): string
    decreases v, 0
  {
    match v
    case Str(s) => "'" + s + "'"
    case List(items) => "[" + ReprItems(items) + "]"
    case Dict(entries) => "{" + ReprEntries(entries) + "}"
    case _ => ShowScalar(v)
  }

  function ReprItems(items: seq<Value>): string
    decreases items, 2
  {
    if items == [] then ""
    else if |items| == 1 then Repr(items[0])
    else Repr(items[0]) + ", " + ReprItems(items[1..])
  }

  function ReprEntries(entries: seq<Entry>): string
    decreases entries, 2
  {
    if entries == [] then ""
    else
      var e := entries[0];
      var shown := "'" + e.key + "': " + Repr(e.value);
      if |entries| == 1 then shown else shown + ", " + ReprEntries(entries[1..])
  }

  /** The value stored under key in an object's entries (the first entry with that key). */
  function Lookup(entries: seq<Entry>, key: string): (r: Option<Value>)
    ensures r.None? <==> forall i :: 0 <= i < |entries| ==> entries[i].key != key
    ensures r.Some? ==> exists i :: 0 <= i < |entries| && entries[i] == Entry(key, r.value)
  {
    if entries == [] then None
    else if entries[0].key == key then Some(entries[0].value)
    else Lookup(entries[1..], key)
  }

  function NoAttributeGet(v: Value): string
  {
    "'" + TypeName(v) + "' object has no attribute 'get'"
  }

  /** `v.get(key, default)`: only an object has `get`. */
  function Get(v: Value, key: string, default: Value): (r: Result<Value, string>)
    ensures r.Err? <==> !v.Dict?
    ensures r.Err? ==> r.error == NoAttributeGet(v)
    ensures v.Dict? ==> r.value == match Lookup(v.entries, key) case Some(x) => x case None => default
  {
    if !v.Dict? then Err(NoAttributeGet(v))
    else match Lookup(v.entries, key)
      case Some(x) => Ok(x)
      case None => Ok(default)
  }

  /** `v[:k]`: strings and lists slice, an object raises, anything else is not subscriptable.
      The object's message is the one Python 3.11 and earlier give; from Python 3.12 on
      slices are hashable and the lookup raises a KeyError instead. */
  function SliceTo(v: Value, k: nat): (r: Result<Value, string>)
    ensures r.Ok? <==> v.Str? || v.List?
    ensures v.Str? ==> r == Ok(Str(Take(v.s, k)))
    ensures v.List? ==> r == Ok(List(Take(v.items, k)))
  {
    match v
    case Str(s) => Ok(Str(Take(s, k)))
    case List(items) => Ok(List(Take(items, k)))
    case Dict(_) => Err("unhashable type: 'slice'")
    case _ => Err("'" + TypeName(v) + "' object is not subscriptable")
  }

  /** `len(v)` */
  function Len(v: Value): (r: Result<nat, string>)
    ensures r.Ok? <==> v.Str? || v.List? || v.Dict?
    ensures v.Str? ==> r == Ok(|v.s|)
    ensures v.List? ==> r == Ok(|v.items|)
    ensures v.Dict? ==> r == Ok(|v.entries|)
  {
    match v
    case Str(s) => Ok(|s|)
    case List(items) => Ok(|items|)
    case Dict(entries) => Ok(|entries|)
    case _ => Err("object of type '" + TypeName(v) + "' has no len()")
  }

  function Chars(s: string): (r: seq<Value>)
    ensures |r| == |s|
    ensures forall i :: 0 <= i < |s| ==> r[i] == Str([s[i]])
  {
    if s == [] then [] else [Str([s[0]])] + Chars(s[1..])
  }

  function Keys(entries: seq<Entry>): (r: seq<Value>)
    ensures |r| == |entries|
    ensures forall i :: 0 <= i < |entries| ==> r[i] == Str(entries[i].key)
  {
    if entries == [] then [] else [Str(entries[0].key)] + Keys(entries[1..])
  }

  /** `iter(v)`: a list yields its items, an object its keys, a string its characters. */
  function Iterate(v: Value): (r: Result<seq<Value>, string>)
    ensures r.Ok? <==> v.Str? || v.List? || v.Dict?
    ensures v.List? ==> r == Ok(v.items)
    ensures v.Dict? ==> r == Ok(Keys(v.entries))
    ensures v.Str? ==> r == Ok(Chars(v.s))
    ensures r.Err? ==> r.error == "'" + TypeName(v) + "' object is not iterable"
  {
    match v
    case List(items) => Ok(items)
    case Dict(entries) => Ok(Keys(entries))
    case Str(s) => Ok(Chars(s))
    case _ => Err("'" + TypeName(v) + "' object is not iterable")
  }

  predicate AllStr(xs: seq<Value>)
  {
    forall i :: 0 <= i < |xs| ==> xs[i].Str?
  }

  function Strings(xs: seq<Value>): (r: seq<string>)
    requires AllStr(xs)
    ensures |r| == |xs|
    ensures forall i :: 0 <= i < |xs| ==> r[i] == xs[i].s
  {
    if xs == [] then [] else [xs[0].s] + Strings(xs[1..])
  }

  /** The index of the first item that is not a string. */
  function FirstNonStr(xs: seq<Value>): (i: nat)
    requires !AllStr(xs)
    ensures i < |xs| && !xs[i].Str? && AllStr(xs[..i])
  {
    if !xs[0].Str? then 0
    else
      var k := FirstNonStr(xs[1..]);
      assert xs[..k + 1] == [xs[0]] + xs[1..][..k];
      k + 1
  }

  /** `sep.join(v)`: every item the value yields must be a string. */
  function JoinItems(sep: string, v: Value): (r: Result<string, string>)
    ensures v.List? && AllStr(v.items) ==> r == Ok(Join(sep, Strings(v.items)))
    ensures v.List? && !AllStr(v.items) ==> r.Err?
    ensures !(v.Str? || v.List? || v.Dict?) ==> r == Err("can only join an iterable")
  {
    match Iterate(v)
    case Err(_) => Err("can only join an iterable")
    case Ok(xs) =>
      if AllStr(xs) then Ok(Join(sep, Strings(xs)))
      else
        var i := FirstNonStr(xs);
        Err("sequence item " + NatToString(i) + ": expected str instance, " + TypeName(xs[i]) + " found")
  }

  /** `bool(v)` */
  predicate Truthy(v: Value)
  {
    match v
    case Null => false
    case Bool(b) => b
    case Int(i) => i != 0
    case Real(_, zero) => !zero
    case Str(s) => s != ""
    case List(items) => items != []
    case Dict(entries) => entries != []
  }

  // ---- field renderings ------------------------------------------------------
  // Each takes the entries of a record that is an object; a record that is not one
  // fails at its first `.get`, before any field is rendered.

  /** `record.get(key, default)` */
  function Field(entries: seq<Entry>, key: string, default: Value): (v: Value)
    ensures Lookup(entries, key).None? ==> v == default
    ensures Lookup(entries, key).Some? ==> v == Lookup(entries, key).value
  {
    match Lookup(entries, key)
    case Some(x) => x
    case None => default
  }

  /** A text field cut to `limit` characters, `record.get(key, '-')[:limit]`, followed by
      "..." when `len(record.get(key, ''))` exceeds the limit. */
  function Shortened(entries: seq<Entry>, key: string, limit: nat): (out: Result<string, string>)
    ensures Lookup(entries, key).None? ==> out == Ok(Take("-", limit))
    ensures Lookup(entries, key).Some? && Lookup(entries, key).value.Str? ==>
              var s := Lookup(entries, key).value.s;
              out == Ok(Take(s, limit) + (if |s| > limit then "..." else ""))
    ensures out.Err? <==> Lookup(entries, key).Some? && !(Lookup(entries, key).value.Str? || Lookup(entries, key).value.List?)
  {
    match Lookup(entries, key)
    case None => Ok(Take("-", limit))
    case Some(v) =>
      match SliceTo(v, limit)
      case Err(e) => Err(e)
      case Ok(cut) => Ok(Show(cut) + (if Len(v).value > limit then "..." else ""))
  }

  const MoreMarker: string := "...더 있음"

  /** A list field showing its first `cap` strings, `", ".join(record.get(key, [])[:cap])`,
      then a space, then "...더 있음" when the list has more than `cap` entries. */
  function Capped(entries: seq<Entry>, key: string, cap: nat): (out: Result<string, string>)
    ensures Lookup(entries, key).None? ==> out == Ok(" ")
    ensures Lookup(entries, key).Some? && Lookup(entries, key).value.List? &&
            AllStr(Lookup(entries, key).value.items) ==>
              var items := Lookup(entries, key).value.items;
              out == Ok(Join(", ", Take(Strings(items), cap)) + " " + (if |items| > cap then MoreMarker else ""))
  {
    match Lookup(entries, key)
    case None => Ok(" ")
    case Some(v) =>
      match SliceTo(v, cap)
      case Err(e) => Err(e)
      case Ok(cut) =>
        match JoinItems(", ", cut)
        case Err(e) => Err(e)
        case Ok(shown) =>
          assert v.List? && AllStr(v.items) ==> Strings(Take(v.items, cap)) == Take(Strings(v.items), cap);
          Ok(shown + " " + (if Len(v).value > cap then MoreMarker else ""))
  }

  /** A list field joined in full, `", ".join(record.get(key, []))`. */
  function Joined(entries: seq<Entry>, key: string): (out: Result<string, string>)
    ensures Lookup(entries, key).None? ==> out == Ok("")
    ensures Lookup(entries, key).Some? && Lookup(entries, key).value.List? &&
            AllStr(Lookup(entries, key).value.items) ==>
              out == Ok(Join(", ", Strings(Lookup(entries, key).value.items)))
  {
    match Lookup(entries, key)
    case None => Ok("")
    case Some(v) => JoinItems(", ", v)
  }

  /** A timestamp field cut to its first ten characters (the date), `record.get(key, '-')[:10]`. */
  function DatePart(entries: seq<Entry>, key: string): (out: Result<string, string>)
    ensures Lookup(entries, key).None? ==> out == Ok("-")
    ensures Lookup(entries, key).Some? && Lookup(entries, key).value.Str? ==>
              out == Ok(Take(Lookup(entries, key).value.s, 10))
    ensures out.Err? <==> Lookup(entries, key).Some? && !(Lookup(entries, key).value.Str? || Lookup(entries, key).value.List?)
  {
    match Lookup(entries, key)
    case None => Ok("-")
    case Some(v) =>
      match SliceTo(v, 10)
      case Err(e) => Err(e)
      case Ok(cut) => Ok(Show(cut))
  }

  /** `record.get('location', {})` with its "lat" and "lng" (each '-' when missing): the
      location must itself be an object. */
  function Location(entries: seq<Entry>): (out: Result<(string, string), string>)
    ensures Lookup(entries, "location").None? ==> out == Ok(("-", "-"))
    ensures out.Err? <==> !Field(entries, "location", Dict([])).Dict?
  {
    var place := Field(entries, "location", Dict([]));
    if !place.Dict? then Err(NoAttributeGet(place))
    else Ok((Show(Field(place.entries, "lat", Str("-"))), Show(Field(place.entries, "lng", Str("-")))))
  }

  // ---- one block per record ----------------------------------------------------

  const Rule: string := "─────────────────────────────"

  function TwinBlock(e: seq<Entry>): Result<string, string>
  {
    var (lat, lng) :- Location(e);
    var desc :- Shortened(e, "description", 100);
    var tags :- Capped(e, "tags", 5);
    var created :- DatePart(e, "creation_time");
    Ok("\n ID: `" + Show(Field(e, "digital_twin_id", Str("-"))) + "`\n" +
       " 이름: **" + Show(Field(e, "digital_twin_name", Str("-"))) + "**\n" +
       " 위치: 위도 " + lat + ", 경도 " + lng + "\n" +
       " 설명: " + desc + "\n" +
       " 센서: " + Show(Field(e, "number_of_sensors", Int(0))) +
       "개, DO: " + Show(Field(e, "number_of_digital_objects", Int(0))) +
       "개, 시뮬레이션: " + Show(Field(e, "number_of_simulations", Int(0))) + "개\n" +
       " 태그: " + tags + "\n" +
       " 생성자: " + Show(Field(e, "creator_id", Str("-"))) + ", 생성일: " + created + "\n" +
       Rule)
  }

  function SensorBlock(e: seq<Entry>): Result<string, string>
  {
    var desc :- Shortened(e, "description", 100);
    var tags :- Capped(e, "tags", 5);
    var created :- DatePart(e, "creation_time");
    Ok("\n ID: `" + Show(Field(e, "sensor_id", Str("-"))) +
       "` / 이름: **" + Show(Field(e, "sensor_name", Str("-"))) + "**\n" +
       " 설명: " + desc + "\n" +
       " 소속 DT: `" + Show(Field(e, "digital_twin_id", Str("-"))) +
       "` / 생성자: `" + Show(Field(e, "creator_id", Str("-"))) + "`\n" +
       " 전달 방식: `" + Show(Field(e, "internal_delivery_mode", Str("-"))) +
       "` / 포맷: `" + Show(Field(e, "data_source_format", Str("-"))) +
       "` / 타입: `" + Show(Field(e, "data_source_type", Str("-"))) + "`\n" +
       " 태그: " + tags + "\n" +
       " 생성일: " + created + "\n" +
       Rule)
  }

  function ObjectBlock(e: seq<Entry>): Result<string, string>
  {
    var desc :- Shortened(e, "description", 80);
    var members :- Capped(e, "member_sensor_ids", 3);
    var tags :- Capped(e, "tags", 5);
    var created :- DatePart(e, "creation_time");
    Ok("\n ID: `" + Show(Field(e, "digital_object_id", Str("-"))) +
       "` / 이름: **" + Show(Field(e, "digital_object_name", Str("-"))) + "**\n" +
       " 설명: " + desc + "\n" +
       " 소속 DT: `" + Show(Field(e, "digital_twin_id", Str("-"))) +
       "` / 생성자: `" + Show(Field(e, "creator_id", Str("-"))) + "`\n" +
       " 접근 방식: `" + Show(Field(e, "access_protocol", Str("-"))) +
       "` / 센서 수: `" + Show(Field(e, "member_sensor_count", Int(0))) + "`\n" +
       " 연결 센서: " + members + "\n" +
       " 태그: " + tags + "\n" +
       " 생성일: " + created + "\n" +
       Rule)
  }

  function SimulationBlock(e: seq<Entry>): Result<string, string>
  {
    var desc :- Shortened(e, "description", 80);
    var subjects :- Joined(e, "simulation_subject");
    var created :- DatePart(e, "creation_time");
    Ok("\n ID: `" + Show(Field(e, "simulation_id", Str("-"))) +
       "` / 이름: **" + Show(Field(e, "simulation_name", Str("-"))) + "**\n" +
       " 설명: " + desc + "\n" +
       " 소속 DT: `" + Show(Field(e, "dt_id", Str("-"))) +
       "` / 생성자: `" + Show(Field(e, "creator_id", Str("-"))) + "`\n" +
       " 접근 URL: `" + Show(Field(e, "simulation_access_url", Str("-"))) +
       "` / 상태: `" + Show(Field(e, "simulation_state", Str("-"))) + "`\n" +
       " 주제: " + subjects + "\n" +
       " 생성일: " + created + "\n" +
       Rule)
  }

  function SubscriptionBlock(e: seq<Entry>): Result<string, string>
  {
    var desc :- Shortened(e, "description", 80);
    var urls :- Joined(e, "notification_url");
    var subjects :- Capped(e, "subscription_subject", 3);
    var expires :- DatePart(e, "expiration_time");
    Ok("\n ID: `" + Show(Field(e, "subscription_id", Str("-"))) +
       "` / 이름: **" + Show(Field(e, "subscription_name", Str("-"))) + "**\n" +
       " 설명: " + desc + "\n" +
       " 소속 DT: `" + Show(Field(e, "dt_id", Str("-"))) +
       "` / 생성자: `" + Show(Field(e, "creator_id", Str("-"))) + "`\n" +
       " 프로토콜: `" + Show(Field(e, "subscription_protocol", Str("-"))) + "`\n" +
       " 알림 URL: " + Take(urls, 100) + "\n" +
       " 주제: " + subjects + "\n" +
       " 만료일: " + expires + " / 실패 횟수: " + Show(Field(e, "fail_count", Int(0))) + "회\n" +
       Rule)
  }

  // ---- the list_* tools --------------------------------------------------------

  datatype Kind = Twins | Sensors | Objects | Simulations | Subscriptions

  function Header(kind: Kind): string
  {
    match kind
    case Twins => "📦 등록된 디지털 트윈 목록:\n"
    case Sensors => "\U{1F6F0}\U{FE0F} 등록된 센서 목록:\n"
    case Objects => "🧱 등록된 디지털 객체 목록:\n"
    case Simulations => "🧪 등록된 시뮬레이션 목록:\n"
    case Subscriptions => "📡 등록된 구독 목록:\n"
  }

  function NotListMessage(kind: Kind): string
  {
    match kind
    case Twins => "[오류] 디지털 트윈 데이터를 불러올 수 없습니다."
    case Sensors => "[오류] 센서 데이터를 불러오지 못했습니다."
    case Objects => "[오류] 디지털 객체 데이터를 불러오지 못했습니다."
    case Simulations => "[오류] 시뮬레이션 데이터를 불러오지 못했습니다."
    case Subscriptions => "[오류] 구독 데이터를 불러오지 못했습니다."
  }

  function EmptyMessage(kind: Kind): string
  {
    match kind
    case Twins => "등록된 디지털 트윈이 없습니다."
    case Sensors => "등록된 센서가 없습니다."
    case Objects => "등록된 디지털 객체(DO)가 없습니다."
    case Simulations => "등록된 시뮬레이션이 없습니다."
    case Subscriptions => "등록된 구독 정보가 없습니다."
  }

  /** The block of one record; a record that is not an object fails at its first `.get`. */
  function Block(kind: Kind, record: Value): (r: Result<string, string>)
    ensures !record.Dict? ==> r == Err(NoAttributeGet(record))
  {
    if !record.Dict? then Err(NoAttributeGet(record))
    else match kind
      case Twins => TwinBlock(record.entries)
      case Sensors => SensorBlock(record.entries)
      case Objects => ObjectBlock(record.entries)
      case Simulations => SimulationBlock(record.entries)
      case Subscriptions => SubscriptionBlock(record.entries)
  }

  type Renderer = Value -> Result<string, string>

  function BlockOf(kind: Kind): Renderer
  {
    record => Block(kind, record)
  }

  /** The message every tool returns for an exception it caught. */
  function Crash(message: string): string
  {
    "[예외 발생] " + message
  }

  /** The blocks of all records, in order; the first record that raises decides the error. */
  function RenderAll(render: Renderer, records: seq<Value>): (r: Result<seq<string>, string>)
    ensures r.Ok? <==> forall i :: 0 <= i < |records| ==> render(records[i]).Ok?
    ensures r.Ok? ==> |r.value| == |records|
    ensures r.Ok? ==> forall i :: 0 <= i < |records| ==> render(records[i]) == Ok(r.value[i])
    ensures r.Err? ==> exists i :: 0 <= i < |records| && render(records[i]) == Err(r.error) &&
                                   forall j :: 0 <= j < i ==> render(records[j]).Ok?
  {
    if records == [] then Ok([])
    else
      var init := records[..|records| - 1];
      var last := records[|records| - 1];
      match RenderAll(render, init)
      case Err(e) => Err(e)
      case Ok(done) =>
        match render(last)
        case Err(e) => Err(e)
        case Ok(b) => Ok(done + [b])
  }

  /** The fixed parts of one list_* tool: its header line, its answers for data that is
      not a list and for an empty list, and how it renders one record. */
  datatype Listing = Listing(header: string, notList: string, empty: string, render: Renderer)

  /** The table of fixed parts, one entry per list_* tool. */
  function ListingOf(kind: Kind): Listing
  {
    Listing(Header(kind), NotListMessage(kind), EmptyMessage(kind), BlockOf(kind))
  }

  /** What a list_* tool returns for what the gateway fetched. */
  function FormatList(l: Listing, fetched: Fetch): (out: string)
    ensures fetched.Raised? ==> out == Crash(fetched.message)
    ensures fetched.Returned? && !fetched.data.List? ==> out == l.notList
    ensures fetched == Returned(List([])) ==> out == l.empty
    ensures fetched.Returned? && fetched.data.List? && fetched.data.items != [] ==>
              match RenderAll(l.render, fetched.data.items)
              case Ok(blocks) => out == l.header + Concat(blocks)
              case Err(e) => out == Crash(e)
  {
    match fetched
    case Raised(m) => Crash(m)
    case Returned(v) =>
      if !v.List? then l.notList
      else if v.items == [] then l.empty
      else match RenderAll(l.render, v.items)
        case Ok(blocks) => l.header + Concat(blocks)
        case Err(e) => Crash(e)
  }

  lemma {:induction false} RenderKeepsError(render: Renderer, records: seq<Value>, i: nat, j: nat)
    requires i < j <= |records|
    requires RenderAll(render, records[..i]).Ok? && render(records[i]).Err?
    ensures RenderAll(render, records[..j]) == Err(render(records[i]).error)
    decreases j
  {
    if j == i + 1 {
      assert records[..j][..i] == records[..i];
    } else {
      RenderKeepsError(render, records, i, j - 1);
      assert records[..j][..j - 1] == records[..j - 1];
    }
  }

  /** The list_* tools (run with `ListingOf(kind)`): the loop appends one block per record
      to the header, and an exception in any record replaces the whole answer with the
      crash message. */
  method ListRecords(l: Listing, fetched: Fetch) returns (out: string)
    ensures out == FormatList(l, fetched)
  {
    if fetched.Raised? {
      return Crash(fetched.message);
    }
    var records := fetched.data;
    if !records.List? {
      return l.notList;
    }
    if records.items == [] {
      return l.empty;
    }
    var items := records.items;
    var result := l.header;
    var i := 0;
    while i < |items|
      invariant 0 <= i <= |items|
      invariant RenderAll(l.render, items[..i]).Ok?
      invariant result == l.header + Concat(RenderAll(l.render, items[..i]).value)
    {
      var b := l.render(items[i]);
      if b.Err? {
        RenderKeepsError(l.render, items, i, |items|);
        assert items[..|items|] == items;
        return Crash(b.error);
      }
      assert items[..i + 1][..i] == items[..i];
      ConcatAppend(RenderAll(l.render, items[..i]).value, b.value);
      result := result + b.value;
      i := i + 1;
    }
    assert items[..i] == items;
    return result;
  }

  /** When every record renders, the answer is the header followed by each record's
      block at its place, in input order. */
  lemma ListShowsRecordsInOrder(l: Listing, items: seq<Value>, i: nat)
    requires i < |items|
    requires RenderAll(l.render, items).Ok?
    ensures var blocks := RenderAll(l.render, items).value;
      var at := |l.header| + |Concat(blocks[..i])|;
      var out := FormatList(l, Returned(List(items)));
      at + |blocks[i]| <= |out| && out[at..at + |blocks[i]|] == l.render(items[i]).value
  {
    var blocks := RenderAll(l.render, items).value;
    FormattedListing(l, items);
    BlockAt(l.header, blocks, i, FormatList(l, Returned(List(items))));
  }

  /** After a header, the i-th of the concatenated blocks follows the header and the
      blocks before it. */
  lemma BlockAt(header: string, blocks: seq<string>, i: nat, out: string)
    requires i < |blocks| && out == header + Concat(blocks)
    ensures var at := |header| + |Concat(blocks[..i])|;
      at + |blocks[i]| <= |out| && out[at..at + |blocks[i]|] == blocks[i]
  {
    var all := Concat(blocks);
    ConcatAt(blocks, i);
    var before := |Concat(blocks[..i])|;
    SliceOfMiddle(header, all, "", before, before + |blocks[i]|);
    assert header + all + "" == header + all;
  }

  lemma FormattedListing(l: Listing, items: seq<Value>)
    requires items != [] && RenderAll(l.render, items).Ok?
    ensures FormatList(l, Returned(List(items))) == l.header + Concat(RenderAll(l.render, items).value)
  {
  }

  /** The first record that fails to render decides the answer. */
  lemma FirstFailureDecides(l: Listing, items: seq<Value>, i: nat)
    requires i < |items| && l.render(items[i]).Err?
    requires forall j :: 0 <= j < i ==> l.render(items[j]).Ok?
    ensures FormatList(l, Returned(List(items))) == Crash(l.render(items[i]).error)
  {
    var r := RenderAll(l.render, items);
    assert r.Err?;
    var k :| 0 <= k < |items| && l.render(items[k]) == Err(r.error) && forall j :: 0 <= j < k ==> l.render(items[j]).Ok?;
    assert k == i;
  }

  /** A record that is not an object, after records that all render, makes the list
      tool answer with the `get` error of that record. */
  lemma NonObjectRecordCrashesList(kind: Kind, items: seq<Value>, i: nat)
    requires i < |items| && !items[i].Dict?
    requires forall j :: 0 <= j < i ==> BlockOf(kind)(items[j]).Ok?
    ensures FormatList(ListingOf(kind), Returned(List(items))) == Crash(NoAttributeGet(items[i]))
  {
    FirstFailureDecides(ListingOf(kind), items, i);
  }

  // ---- the get_*_data tools ----------------------------------------------------

  /** `f"{n}. {d}"` */
  function Line(n: nat, d: Value): string
  {
    NatToString(n) + ". " + Show(d)
  }

  /** The lines for items, numbered from `first`. */
  function NumberedFrom(items: seq<Value>, first: nat): seq<string>
  {
    seq(|items|, i requires 0 <= i < |items| => Line(first + i, items[i]))
  }

  /** `"\n".join(f"{i+1}. {d}" for i, d in enumerate(data))` */
  function Summary(data: Value): (r: Result<string, string>)
    ensures r.Ok? <==> data.Str? || data.List? || data.Dict?
    ensures data.List? ==> r == Ok(Join("\n", NumberedFrom(data.items, 1)))
    ensures r.Ok? ==> r.value == Join("\n", NumberedFrom(Iterate(data).value, 1))
    ensures r.Err? ==> r.error == Iterate(data).error
  {
    var xs :- Iterate(data);
    Ok(Join("\n", NumberedFrom(xs, 1)))
  }

  /** The fixed texts of one get_*_data tool: what follows "[<error>] " on failure, the
      answer when there is no data, and the title line above the numbered lines. */
  datatype Messages = Messages(failure: string, noData: string, title: string)

  predicate IsErrorReport(data: Value)
  {
    data.Dict? && Lookup(data.entries, "error").Some?
  }

  /** What a get_*_data tool promises: a caught exception is reported as a crash, an
      object with an "error" key as "[<error>] <failure>", any other falsy data as "no
      data", and any other data as the title, a blank line and one numbered line per item
      it yields (a list's items, an object's keys, a string's characters), or as the crash
      of iterating a value that cannot be iterated. */
  predicate SummarizesAs(m: Messages, fetched: Fetch, out: string)
  {
    (fetched.Raised? ==> out == Crash(fetched.message)) &&
    (fetched.Returned? && IsErrorReport(fetched.data) ==>
       out == "[" + Show(Lookup(fetched.data.entries, "error").value) + "] " + m.failure) &&
    (fetched.Returned? && !IsErrorReport(fetched.data) && !Truthy(fetched.data) ==> out == m.noData) &&
    (fetched.Returned? && fetched.data.List? && fetched.data.items != [] ==>
       out == m.title + "\n\n" + Join("\n", NumberedFrom(fetched.data.items, 1))) &&
    (fetched.Returned? && !IsErrorReport(fetched.data) && Truthy(fetched.data) ==>
       match Iterate(fetched.data)
       case Ok(xs) => out == m.title + "\n\n" + Join("\n", NumberedFrom(xs, 1))
       case Err(e) => out == Crash(e))
  }

  /** The shared shape of the get_*_data tools. */
  function Summarize(m: Messages, fetched: Fetch): (out: string)
    ensures SummarizesAs(m, fetched, out)
  {
    match fetched
    case Raised(e) => Crash(e)
    case Returned(data) =>
      if IsErrorReport(data) then "[" + Show(Lookup(data.entries, "error").value) + "] " + m.failure
      else if !Truthy(data) then m.noData
      else match Summary(data)
        case Err(e) => Crash(e)
        case Ok(lines) => m.title + "\n\n" + lines
  }

  lemma LineHasNoBreak(n: nat, d: Value)
    requires '\n' !in Show(d)
    ensures '\n' !in Line(n, d)
  {
    var digits := NatToString(n);
    var line := Line(n, d);
    forall k | 0 <= k < |line| ensures line[k] != '\n' {
      if k < |digits| {
        assert line[k] == digits[k] && IsDigit(digits[k]);
      } else if k < |digits| + 2 {
        assert line[k] == ". "[k - |digits|];
      } else {
        assert line[k] == Show(d)[k - |digits| - 2];
      }
    }
  }

  /** The numbered lines split back into one line per item, numbered from 1, as long as
      no item's rendering contains a line break. */
  lemma SummaryLinesSplitBack(items: seq<Value>)
    requires items != []
    requires forall i :: 0 <= i < |items| ==> '\n' !in Show(items[i])
    ensures Split(Join("\n", NumberedFrom(items, 1)), '\n') == NumberedFrom(items, 1)
  {
    var lines := NumberedFrom(items, 1);
    assert |lines| == |items|;
    forall i | 0 <= i < |lines| ensures '\n' !in lines[i] {
      assert lines[i] == Line(1 + i, items[i]);
      LineHasNoBreak(1 + i, items[i]);
    }
    SplitJoin(lines, '\n');
  }

  function SensorTitle(dtId: string, sensorId: string): string
  {
    "센서 '" + sensorId + "' (DT: " + dtId + ")"
  }

  function ObjectTitle(dtId: string, doId: string): string
  {
    "디지털 객체 '" + doId + "' (DT: " + dtId + ")"
  }

  function SimulationTitle(dtId: string, simulationId: string): string
  {
    "시뮬레이션 '" + simulationId + "' (DT: " + dtId + ")"
  }

  /** get_sensor_data */
  function GetSensorData(dtId: string, sensorId: string, count: int, fetched: Fetch): (out: string)
    ensures SummarizesAs(Messages("센서 데이터 조회 실패",
                                  SensorTitle(dtId, sensorId) + "에 대한 데이터가 없습니다.",
                                  SensorTitle(dtId, sensorId) + "의 최신 데이터 " + IntToString(count) + "개:"), fetched, out)
  {
    Summarize(Messages("센서 데이터 조회 실패",
                       SensorTitle(dtId, sensorId) + "에 대한 데이터가 없습니다.",
                       SensorTitle(dtId, sensorId) + "의 최신 데이터 " + IntToString(count) + "개:"), fetched)
  }

  /** get_do_data */
  function GetDoData(dtId: string, doId: string, count: int, fetched: Fetch): (out: string)
    ensures SummarizesAs(Messages("디지털 객체 데이터 조회 실패",
                                  ObjectTitle(dtId, doId) + "에 대한 데이터가 없습니다.",
                                  ObjectTitle(dtId, doId) + "의 최신 데이터 " + IntToString(count) + "개:"), fetched, out)
  {
    Summarize(Messages("디지털 객체 데이터 조회 실패",
                       ObjectTitle(dtId, doId) + "에 대한 데이터가 없습니다.",
                       ObjectTitle(dtId, doId) + "의 최신 데이터 " + IntToString(count) + "개:"), fetched)
  }

  /** get_sensor_data_time */
  function GetSensorDataTime(dtId: string, sensorId: string, fromTime: string, toTime: string, fetched: Fetch): (out: string)
    ensures SummarizesAs(Messages("센서 시간 조회 실패",
                                  SensorTitle(dtId, sensorId) + "의 해당 기간 데이터가 없습니다.",
                                  SensorTitle(dtId, sensorId) + "의 " + fromTime + " ~ " + toTime + " 데이터:"), fetched, out)
  {
    Summarize(Messages("센서 시간 조회 실패",
                       SensorTitle(dtId, sensorId) + "의 해당 기간 데이터가 없습니다.",
                       SensorTitle(dtId, sensorId) + "의 " + fromTime + " ~ " + toTime + " 데이터:"), fetched)
  }

  /** get_do_data_time */
  function GetDoDataTime(dtId: string, doId: string, fromTime: string, toTime: string, fetched: Fetch): (out: string)
    ensures SummarizesAs(Messages("DO 시간 조회 실패",
                                  ObjectTitle(dtId, doId) + "의 해당 기간 데이터가 없습니다.",
                                  ObjectTitle(dtId, doId) + "의 " + fromTime + " ~ " + toTime + " 데이터:"), fetched, out)
  {
    Summarize(Messages("DO 시간 조회 실패",
                       ObjectTitle(dtId, doId) + "의 해당 기간 데이터가 없습니다.",
                       ObjectTitle(dtId, doId) + "의 " + fromTime + " ~ " + toTime + " 데이터:"), fetched)
  }

  /** get_simulation_data_time */
  function GetSimulationDataTime(dtId: string, simulationId: string, fromTime: string, toTime: string, fetched: Fetch): (out: string)
    ensures SummarizesAs(Messages("시뮬레이션 시간 조회 실패",
                                  SimulationTitle(dtId, simulationId) + "의 해당 기간 데이터가 없습니다.",
                                  SimulationTitle(dtId, simulationId) + "의 " + fromTime + " ~ " + toTime + " 데이터:"), fetched, out)
  {
    Summarize(Messages("시뮬레이션 시간 조회 실패",
                       SimulationTitle(dtId, simulationId) + "의 해당 기간 데이터가 없습니다.",
                       SimulationTitle(dtId, simulationId) + "의 " + fromTime + " ~ " + toTime + " 데이터:"), fetched)
  }

  /** get_simulation_data: the error and no-data checks apply to objects only; any other
      value goes straight to the numbered lines. */
  function GetSimulationData(dtId: string, simulationId: string, count: int, fetched: Fetch): (out: string)
    ensures fetched.Raised? ==> out == Crash(fetched.message)
    ensures fetched.Returned? && IsErrorReport(fetched.data) ==>
              var message := Get(fetched.data, "message", Str("")).value;
              out == "[" + Show(Lookup(fetched.data.entries, "error").value) + "] 시뮬레이션 데이터 조회 실패 - " + Show(message)
    ensures fetched == Returned(Dict([])) ==>
              out == "📭 " + SimulationTitle(dtId, simulationId) + "에 대한 데이터가 없습니다."
    ensures fetched.Returned? && fetched.data.List? ==>
              out == SimulationTitle(dtId, simulationId) + "의 최신 데이터 " + IntToString(count) + "개:\n\n" +
                     Join("\n", NumberedFrom(fetched.data.items, 1))
    ensures fetched.Returned? && !(fetched.data.Str? || fetched.data.List? || fetched.data.Dict?) ==>
              out == Crash("'" + TypeName(fetched.data) + "' object is not iterable")
    ensures fetched.Returned? && (fetched.data.Str? || (fetched.data.Dict? && fetched.data.entries != [] && !IsErrorReport(fetched.data))) ==>
              out == SimulationTitle(dtId, simulationId) + "의 최신 데이터 " + IntToString(count) + "개:\n\n" +
                     Join("\n", NumberedFrom(Iterate(fetched.data).value, 1))
  {
    match fetched
    case Raised(e) => Crash(e)
    case Returned(data) =>
      if data.Dict? && IsErrorReport(data) then
        var message := Get(data, "message", Str("")).value;
        "[" + Show(Lookup(data.entries, "error").value) + "] 시뮬레이션 데이터 조회 실패 - " + Show(message)
      else if data.Dict? && data.entries == [] then
        "📭 " + SimulationTitle(dtId, simulationId) + "에 대한 데이터가 없습니다."
      else match Summary(data)
        case Err(e) => Crash(e)
        case Ok(lines) => SimulationTitle(dtId, simulationId) + "의 최신 데이터 " + IntToString(count) + "개:\n\n" + lines
  }

  /** An empty list is "no data" for get_sensor_data but a title over nothing for
      get_simulation_data, which checks emptiness only for objects. */
  lemma EmptyListIsNoDataOnlyForSensors(dtId: string, id: string, count: int)
    ensures GetSensorData(dtId, id, count, Returned(List([]))) == SensorTitle(dtId, id) + "에 대한 데이터가 없습니다."
    ensures GetSimulationData(dtId, id, count, Returned(List([]))) ==
              SimulationTitle(dtId, id) + "의 최신 데이터 " + IntToString(count) + "개:\n\n"
  {
    assert !IsErrorReport(List([])) && !Truthy(List([]));
    var lines := NumberedFrom([], 1);
    assert lines == [];
    assert Join("\n", lines) == "";
  }

  /** An object without "error" is summarised by its keys: `enumerate` walks the keys. */
  lemma ObjectIsNumberedByKeys(dtId: string, id: string, count: int)
    ensures GetSensorData(dtId, id, count, Returned(Dict([Entry("temp", Int(21))]))) ==
              SensorTitle(dtId, id) + "의 최신 데이터 " + IntToString(count) + "개:\n\n1. temp"
  {
    var obj := Dict([Entry("temp", Int(21))]);
    assert !IsErrorReport(obj) && Truthy(obj);
    assert Iterate(obj).value == [Str("temp")];
    var lines := NumberedFrom([Str("temp")], 1);
    assert NatToString(1) == "1";
    assert lines[0] == Line(1, Str("temp")) == "1. temp";
    assert lines == ["1. temp"];
  }

  /** A string is summarised by its characters, one numbered line each. */
  lemma StringIsNumberedByCharacters(dtId: string, id: string, count: int)
    ensures GetSimulationData(dtId, id, count, Returned(Str("ab"))) ==
              SimulationTitle(dtId, id) + "의 최신 데이터 " + IntToString(count) + "개:\n\n1. a\n2. b"
  {
    assert Iterate(Str("ab")).value == [Str("a"), Str("b")];
    var lines := NumberedFrom([Str("a"), Str("b")], 1);
    assert NatToString(1) == "1" && NatToString(2) == "2";
    assert lines[0] == Line(1, Str("a")) == "1. a";
    assert lines[1] == Line(2, Str("b")) == "2. b";
    assert lines == ["1. a", "2. b"];
    assert Join("\n", lines) == "1. a" + "\n" + "2. b";
  }

  /** None is "no data" for get_sensor_data and a crash for get_simulation_data. */
  lemma NoneIsNoDataOnlyForSensors(dtId: string, id: string, count: int)
    ensures GetSensorData(dtId, id, count, Returned(Null)) == SensorTitle(dtId, id) + "에 대한 데이터가 없습니다."
    ensures GetSimulationData(dtId, id, count, Returned(Null)) == Crash("'" + "NoneType" + "' object is not iterable")
  {
    assert !IsErrorReport(Null) && !Truthy(Null);
  }
}
