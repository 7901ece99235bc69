/**
 * The SmartRent device API client (src/lib/api.ts): which unit's hub is asked for
 * its rooms, how the rooms' device lists are joined, and which paths the state
 * calls address. The server's replies are inputs; the requests sent are outputs.
 */
module Api {
  import opened Wrappers
  import opened Devices

  /** A record of `GET /units`, reduced to the fields discovery reads. */
  datatype UnitRecord = UnitRecord(marketingName: string, hubId: int)

  /** A record of `GET /hubs/<hubId>/rooms`. */
  datatype RoomRecord = RoomRecord(id: int, name: string, devices: seq<Device>)

  /** A request of the device API. */
  datatype ApiRequest =
    | GetUnits
    | GetRooms(hub: int)
    | GetDevice(hubId: string, deviceId: string)
    | PatchDevice(hubId: string, deviceId: string, attributes: Attributes)  // body `{attributes}`

  /** Outcome of `discoverDevices`: the devices found and the requests sent, in order. */
  datatype Discovery = Discovery(devices: seq<Device>, sent: seq<ApiRequest>)

  /** Outcome of `getState` / `setState`: the request sent and the attributes returned. */
  datatype StateExchange = StateExchange(request: ApiRequest, attributes: Attributes)

  /** The optional `unitName` setting is truthy: present and not empty. */
  predicate IsNamed(unitName: Option<string>) { unitName.Some? && unitName.value != "" }

  /** The unit to use: the first one with the configured marketing name, or else the first one. */
  function SelectUnit(records: seq<UnitRecord>, unitName: Option<string>): (u: Option<UnitRecord>)
    ensures IsNamed(unitName) && u.Some? ==>
      exists i :: 0 <= i < |records| && records[i] == u.value && u.value.marketingName == unitName.value
        && forall j :: 0 <= j < i ==> records[j].marketingName != unitName.value
    ensures IsNamed(unitName) && u.None? ==>
      forall i :: 0 <= i < |records| ==> records[i].marketingName != unitName.value
    ensures !IsNamed(unitName) ==> (u.Some? <==> |records| > 0) && (u.Some? ==> u.value == records[0])
  {
    if IsNamed(unitName) then
      match FindIndex(records, (r: UnitRecord) => r.marketingName == unitName.value)
      case None => None
      case Some(i) => Some(records[i])
    else if |records| == 0 then None
    else Some(records[0])
  }

  /** The rooms' device lists joined in room order, as the `reduce` builds them. */
  function Flatten(rooms: seq<RoomRecord>): (r: seq<Device>)
    ensures forall d :: d in r <==> exists i :: 0 <= i < |rooms| && d in rooms[i].devices
  {
    if |rooms| == 0 then []
    else
      var init := rooms[..|rooms| - 1];
      assert forall i :: 0 <= i < |init| ==> init[i] == rooms[i];
      Flatten(init) + rooms[|rooms| - 1].devices
  }

  /** The number of devices over all rooms. */
  function DeviceCount(rooms: seq<RoomRecord>): nat
  {
    if |rooms| == 0 then 0 else |rooms[0].devices| + DeviceCount(rooms[1..])
  }

  /**
   * `discoverDevices`: list the units, pick one, and when it has a hub ask for that
   * hub's rooms (`rooms` is the reply) and return their devices.
   */
  function DiscoverDevices(records: seq<UnitRecord>, unitName: Option<string>, rooms: seq<RoomRecord>): (r: Discovery)
    ensures 1 <= |r.sent| <= 2 && r.sent[0] == GetUnits
    ensures |r.sent| == 2 <==> SelectUnit(records, unitName).Some? && SelectUnit(records, unitName).value.hubId != 0
    ensures |r.sent| == 2 ==> r.sent[1] == GetRooms(SelectUnit(records, unitName).value.hubId) && r.devices == Flatten(rooms)
    ensures |r.sent| == 1 ==> r.devices == []
  {
    match SelectUnit(records, unitName)
    case None => Discovery([], [GetUnits])
    case Some(unit) =>
      if unit.hubId == 0 then Discovery([], [GetUnits])
      else Discovery(Flatten(rooms), [GetUnits, GetRooms(unit.hubId)])
  }

  /** Flattening distributes over concatenation of room lists. */
  lemma {:induction false} FlattenAppend(a: seq<RoomRecord>, b: seq<RoomRecord>)
    ensures Flatten(a + b) == Flatten(a) + Flatten(b)
    decreases |b|
  {
    if |b| == 0 {
      assert a + b == a;
    } else {
      var b' := b[..|b| - 1];
      assert (a + b)[..|a + b| - 1] == a + b';
      FlattenAppend(a, b');
    }
  }

  /** The discovered list has as many devices as the rooms hold together. */
  lemma {:induction false} FlattenLength(rooms: seq<RoomRecord>)
    ensures |Flatten(rooms)| == DeviceCount(rooms)
    decreases |rooms|
  {
    if |rooms| > 0 {
      assert rooms == [rooms[0]] + rooms[1..];
      FlattenAppend([rooms[0]], rooms[1..]);
      assert [rooms[0]][..0] == [];
      FlattenLength(rooms[1..]);
    }
  }

  /**
   * Room order is kept: the devices of room `i` appear, in their own order, right
   * after the devices of the rooms before it.
   */
  lemma FlattenPosition(rooms: seq<RoomRecord>, i: nat, k: nat)
    requires i < |rooms| && k < |rooms[i].devices|
    ensures DeviceCount(rooms[..i]) + k < |Flatten(rooms)|
    ensures Flatten(rooms)[DeviceCount(rooms[..i]) + k] == rooms[i].devices[k]
  {
    assert rooms == rooms[..i] + [rooms[i]] + rooms[i + 1..];
    FlattenAppend(rooms[..i] + [rooms[i]], rooms[i + 1..]);
    FlattenAppend(rooms[..i], [rooms[i]]);
    assert [rooms[i]][..0] == [];
    FlattenLength(rooms[..i]);
  }

  // Request paths

  /** The decimal digit character for `d`. */
  function DigitChar(d: nat): (c: char)
    requires d < 10
    ensures '0' <= c <= '9'
  {
    "0123456789"[d]
  }

  predicate IsDigit(c: char) { '0' <= c <= '9' }

  predicate AllDigits(s: string) { forall i :: 0 <= i < |s| ==> IsDigit(s[i]) }

  /** Decimal rendering of a natural number, most significant digit first. */
  function NatToString(n: nat): (s: string)
    ensures |s| > 0 && AllDigits(s)
    decreases n
  {
    if n < 10 then [DigitChar(n)] else NatToString(n / 10) + [DigitChar(n % 10)]
  }

  /**
   * How an integer is written into a template string (`${hubId}`). JavaScript agrees
   * with this plain decimal form only below 1e21 in magnitude; from there on it
   * writes exponential notation (`1e+21`).
   */
  function IntToString(n: int): string
  {
    if n < 0 then "-" + NatToString(-n) else NatToString(n)
  }

  /** The value of a string of decimal digits. */
  function ParseNat(s: string): int
    requires AllDigits(s)
  {
    if |s| == 0 then 0
    else 10 * ParseNat(s[..|s| - 1]) + (s[|s| - 1] as int - '0' as int)
  }

  /** Reads back what `IntToString` writes: an optional minus sign and at least one digit. */
  function ParseInt(s: string): Option<int>
  {
    if |s| > 1 && s[0] == '-' && AllDigits(s[1..]) then Some(-ParseNat(s[1..]))
    else if |s| > 0 && AllDigits(s) then Some(ParseNat(s))
    else None
  }

  lemma {:induction false} NatToStringRoundTrip(n: nat)
    ensures ParseNat(NatToString(n)) == n
    decreases n
  {
    if n >= 10 {
      var s := NatToString(n);
      NatToStringRoundTrip(n / 10);
      assert s[..|s| - 1] == NatToString(n / 10);
    }
  }

  /** The number written into a path can be read back from it. */
  lemma IntToStringRoundTrip(n: int)
    ensures ParseInt(IntToString(n)) == Some(n)
  {
    var s := IntToString(n);
    if n < 0 {
      NatToStringRoundTrip(-n);
      assert s[1..] == NatToString(-n);
    } else {
      NatToStringRoundTrip(n);
      assert IsDigit(s[0]);
    }
  }

  /** `/hubs/<hubId>/devices/<deviceId>`, the path of both state calls. */
  function DevicePath(hubId: string, deviceId: string): string
  {
    "/hubs/" + hubId + "/devices/" + deviceId
  }

  /** The path each request addresses. */
  function PathOf(req: ApiRequest): string
  {
    match req
    case GetUnits => "/units"
    case GetRooms(hubId) => "/hubs/" + IntToString(hubId) + "/rooms"
    case GetDevice(hubId, deviceId) => DevicePath(hubId, deviceId)
    case PatchDevice(hubId, deviceId, _) => DevicePath(hubId, deviceId)
  }

  /** `getState`: read the device and return the attributes of the reply. */
  function GetState(hubId: string, deviceId: string, reply: Attributes): (x: StateExchange)
    ensures PathOf(x.request) == DevicePath(hubId, deviceId) && x.request.GetDevice?
    ensures x.attributes == reply
  {
    StateExchange(GetDevice(hubId, deviceId), reply)
  }

  /** `setState`: patch the device with `{attributes}` and return the attributes of the reply. */
  function SetState(hubId: string, deviceId: string, attributes: Attributes, reply: Attributes): (x: StateExchange)
    ensures PathOf(x.request) == DevicePath(hubId, deviceId)
    ensures x.request.PatchDevice? && x.request.attributes == attributes
    ensures x.attributes == reply
  {
    StateExchange(PatchDevice(hubId, deviceId, attributes), reply)
  }

  /** Reads `/hubs/<hubId>/devices/<deviceId>` back into its two segments. */
  function ParseDevicePath(p: string): Option<(string, string)>
  {
    if |p| < 6 || p[..6] != "/hubs/" then None
    else
      var rest := p[6..];
      match FindIndex(rest, (c: char) => c == '/')
      case None => None
      case Some(k) =>
        var tail := rest[k..];
        if |tail| >= 9 && tail[..9] == "/devices/" && '/' !in tail[9..] then Some((rest[..k], tail[9..]))
        else None
  }

  /**
   * The state calls address one path per device: ids without `/` are read back from
   * it, so `getState` and `setState` on the same ids hit the same device and
   * different ids hit different paths.
   */
  lemma DevicePathRoundTrip(hubId: string, deviceId: string)
    requires '/' !in hubId && '/' !in deviceId
    ensures ParseDevicePath(DevicePath(hubId, deviceId)) == Some((hubId, deviceId))
  {
    var p := DevicePath(hubId, deviceId);
    assert p[..6] == "/hubs/";
    var rest := p[6..];
    assert rest == hubId + "/devices/" + deviceId;
    assert rest[|hubId|] == '/';
    var k := FindIndex(rest, (c: char) => c == '/');
    assert k == Some(|hubId|) by {
      assert forall j :: 0 <= j < |hubId| ==> rest[j] == hubId[j];
    }
    assert rest[..|hubId|] == hubId;
    assert rest[|hubId|..] == "/devices/" + deviceId;
  }

  /** Different hub ids give different room paths. */
  lemma RoomsPathInjective(a: int, b: int)
    requires PathOf(GetRooms(a)) == PathOf(GetRooms(b))
    ensures a == b
  {
    var sa, sb := IntToString(a), IntToString(b);
    var pa, pb := PathOf(GetRooms(a)), PathOf(GetRooms(b));
    assert |sa| == |sb|;
    assert sa == pa[6..6 + |sa|];
    assert sb == pb[6..6 + |sb|];
    IntToStringRoundTrip(a);
    IntToStringRoundTrip(b);
  }
}
