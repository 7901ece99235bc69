/**
 * The dynamic platform (src/platform.ts): it keeps the accessories restored from
 * the host's cache, maps each discovered device to an accessory kind, registers
 * the devices the cache does not know, updates the ones it does, and unregisters
 * cached accessories that were not discovered.
 *
 * Calls into the host are recorded, in order, in the platform's `calls` log.
 * `uuidOf` stands for `uuid.generate(device.id.toString())`, a given function.
 */
module Platform {
  import opened Wrappers
  import opened Devices

  type Uuid = string

  /** The accessory handler a device gets. */
  datatype Kind = Lock | Switch | LeakSensor

  /**
   * A call into the host:
   * `Register`: a new accessory named after the device, with this UUID and the
   * device as its context, gets a `kind` handler and is registered;
   * `Update`: the cached accessory at `cacheIndex` gets the device as its context,
   * is updated and gets a `kind` handler;
   * `Unregister`: the cached accessory at `cacheIndex` is unregistered.
   */
  datatype HostCall =
    | Register(uuid: Uuid, device: Device, kind: Kind)
    | Update(cacheIndex: nat, device: Device, kind: Kind)
    | Unregister(cacheIndex: nat)

  /** The type dispatch of `_initAccessory`; `None` for a device no handler supports. */
  function KindOf(d: Device): (k: Option<Kind>)
    ensures k == Some(Lock) <==> d.deviceType == "entry_control"
    ensures k == Some(Switch) <==> d.deviceType == "switch_binary"
    ensures k == Some(LeakSensor) <==> d.deviceType == "sensor_notification" && "leak" in d.attributes
  {
    if d.deviceType == "sensor_notification" then
      if "leak" in d.attributes then Some(LeakSensor) else None
    else if d.deviceType == "entry_control" then Some(Lock)
    else if d.deviceType == "switch_binary" then Some(Switch)
    else None
  }

  /** The index of the first cached UUID equal to `u` (`accessories.find`). */
  function CachedMatch(cached: seq<Uuid>, u: Uuid): Option<nat>
  {
    FindIndex(cached, (c: Uuid) => c == u)
  }

  /** The host calls of `_initAccessory` for one device and its cached accessory, if any. */
  function InitCalls(existing: Option<nat>, uuid: Uuid, d: Device): seq<HostCall>
  {
    match KindOf(d)
    case None => []
    case Some(k) =>
      match existing
      case Some(i) => [Update(i, d, k)]
      case None => [Register(uuid, d, k)]
  }

  /**
   * One `_initAccessory` makes at most one host call, and none for an unsupported
   * device; the call carries the device and its kind, and it is an update of the
   * cached accessory exactly when there is one, otherwise a registration under `uuid`.
   */
  lemma InitCallsShape(existing: Option<nat>, uuid: Uuid, d: Device)
    ensures var r := InitCalls(existing, uuid, d);
      && |r| <= 1 && (r == [] <==> KindOf(d).None?)
      && (r != [] ==> !r[0].Unregister? && r[0].device == d && Some(r[0].kind) == KindOf(d))
      && (r != [] ==> (r[0].Update? <==> existing.Some?))
      && (r != [] && r[0].Update? ==> Some(r[0].cacheIndex) == existing)
      && (r != [] && r[0].Register? ==> r[0].uuid == uuid)
  {
  }

  /** The UUIDs of the discovered devices, one per device, in order (the kept list). */
  function DeviceUuids(uuidOf: int -> Uuid, devices: seq<Device>): (us: seq<Uuid>)
    ensures |us| == |devices|
    ensures forall j :: 0 <= j < |devices| ==> us[j] == uuidOf(devices[j].id)
  {
    if |devices| == 0 then []
    else DeviceUuids(uuidOf, devices[..|devices| - 1]) + [uuidOf(devices[|devices| - 1].id)]
  }

  /** The host calls of the first loop of `discoverDevices`, device by device. */
  function DeviceCalls(cached: seq<Uuid>, uuidOf: int -> Uuid, devices: seq<Device>): seq<HostCall>
  {
    if |devices| == 0 then []
    else
      var d := devices[|devices| - 1];
      var u := uuidOf(d.id);
      DeviceCalls(cached, uuidOf, devices[..|devices| - 1]) + InitCalls(CachedMatch(cached, u), u, d)
  }

  /** One more device extends the kept list and the first loop's calls by that device's share. */
  lemma DiscoveryStep(log: seq<HostCall>, cached: seq<Uuid>, uuidOf: int -> Uuid, devices: seq<Device>, j: nat)
    requires j < |devices|
    ensures DeviceUuids(uuidOf, devices[..j + 1]) == DeviceUuids(uuidOf, devices[..j]) + [uuidOf(devices[j].id)]
    ensures var u := uuidOf(devices[j].id);
      DeviceCalls(cached, uuidOf, devices[..j + 1])
        == DeviceCalls(cached, uuidOf, devices[..j]) + InitCalls(CachedMatch(cached, u), u, devices[j])
    ensures var u := uuidOf(devices[j].id);
      log + DeviceCalls(cached, uuidOf, devices[..j + 1])
        == (log + DeviceCalls(cached, uuidOf, devices[..j])) + InitCalls(CachedMatch(cached, u), u, devices[j])
  {
    assert devices[..j + 1][..j] == devices[..j];
  }

  /** The host calls of the second loop: one `Unregister` per cached UUID not kept. */
  function UnregisterCalls(cached: seq<Uuid>, kept: seq<Uuid>): seq<HostCall>
  {
    if |cached| == 0 then []
    else
      var n := |cached| - 1;
      UnregisterCalls(cached[..n], kept) + (if cached[n] in kept then [] else [Unregister(n)])
  }

  /** The context device of cached accessory `i` after `calls`: the last update's, else `prior`. */
  function LastUpdate(calls: seq<HostCall>, i: nat, prior: Option<Device>): Option<Device>
  {
    if |calls| == 0 then prior
    else
      var c := calls[|calls| - 1];
      if c.Update? && c.cacheIndex == i then Some(c.device) else LastUpdate(calls[..|calls| - 1], i, prior)
  }

  /** One `_initAccessory` call changes the context of accessory `i` only if it updates that very accessory. */
  lemma LastUpdateAfterInit(calls: seq<HostCall>, existing: Option<nat>, uuid: Uuid, d: Device, i: nat, prior: Option<Device>)
    ensures LastUpdate(calls + InitCalls(existing, uuid, d), i, prior) ==
      if KindOf(d).Some? && existing == Some(i) then Some(d) else LastUpdate(calls, i, prior)
  {
    var added := InitCalls(existing, uuid, d);
    if |added| == 1 {
      assert (calls + added)[..|calls|] == calls;
    } else {
      assert calls + added == calls;
    }
  }

  /** Device `d` has a handler and cached accessory `i` is the first one with its UUID. */
  predicate Targets(cached: seq<Uuid>, uuidOf: int -> Uuid, d: Device, i: nat)
  {
    KindOf(d).Some? && CachedMatch(cached, uuidOf(d.id)) == Some(i)
  }

  /**
   * What a call of the first loop may be: the registration of a supported
   * discovered device whose UUID no cached accessory has, or the update of the
   * first cached accessory with the UUID of a supported discovered device.
   */
  predicate Justified(cached: seq<Uuid>, uuidOf: int -> Uuid, devices: seq<Device>, c: HostCall)
  {
    match c
    case Register(u, d, k) => d in devices && KindOf(d) == Some(k) && u == uuidOf(d.id) && u !in cached
    case Update(i, d, k) =>
      && d in devices && KindOf(d) == Some(k) && i < |cached| && cached[i] == uuidOf(d.id)
      && forall m :: 0 <= m < i ==> cached[m] != cached[i]
    case Unregister(_) => false
  }

  /** Registration only for uncached UUIDs, updates only of the first cached match, nothing for unsupported devices. */
  lemma {:induction false} DeviceCallsJustified(cached: seq<Uuid>, uuidOf: int -> Uuid, devices: seq<Device>)
    ensures forall c :: c in DeviceCalls(cached, uuidOf, devices) ==> Justified(cached, uuidOf, devices, c)
    decreases |devices|
  {
    if |devices| > 0 {
      var init := devices[..|devices| - 1];
      var d := devices[|devices| - 1];
      var u := uuidOf(d.id);
      DeviceCallsJustified(cached, uuidOf, init);
      forall c | c in DeviceCalls(cached, uuidOf, devices)
        ensures Justified(cached, uuidOf, devices, c)
      {
        if c in DeviceCalls(cached, uuidOf, init) {
          assert Justified(cached, uuidOf, init, c);
          assert c.device in init;
        } else {
          assert c in InitCalls(CachedMatch(cached, u), u, d);
        }
      }
    }
  }

  /**
   * Every supported discovered device is registered when its UUID is not cached
   * and otherwise updates the first cached accessory with that UUID.
   */
  lemma {:induction false} SupportedDeviceHandled(cached: seq<Uuid>, uuidOf: int -> Uuid, devices: seq<Device>, j: nat)
    requires j < |devices| && KindOf(devices[j]).Some?
    ensures var d := devices[j]; var u := uuidOf(d.id);
      && (u !in cached ==> Register(u, d, KindOf(d).value) in DeviceCalls(cached, uuidOf, devices))
      && (u in cached ==> CachedMatch(cached, u).Some?
                          && Update(CachedMatch(cached, u).value, d, KindOf(d).value) in DeviceCalls(cached, uuidOf, devices))
    decreases |devices|
  {
    var init := devices[..|devices| - 1];
    var d := devices[j];
    var u := uuidOf(d.id);
    if u in cached {
      var k :| 0 <= k < |cached| && cached[k] == u;
      assert CachedMatch(cached, u).Some?;
    }
    if j < |devices| - 1 {
      SupportedDeviceHandled(cached, uuidOf, init, j);
    }
  }

  /** Cached accessory `i` is unregistered exactly when its UUID is not in the kept list. */
  lemma {:induction false} UnregisterCallsExact(cached: seq<Uuid>, kept: seq<Uuid>, i: nat)
    ensures Unregister(i) in UnregisterCalls(cached, kept) <==> i < |cached| && cached[i] !in kept
    ensures forall c :: c in UnregisterCalls(cached, kept) ==> c.Unregister? && c.cacheIndex < |cached|
    decreases |cached|
  {
    if |cached| > 0 {
      var n := |cached| - 1;
      UnregisterCallsExact(cached[..n], kept, i);
    }
  }

  /**
   * After discovery, cached accessory `i` is unregistered exactly when no
   * discovered device, of whatever type, has its UUID.
   */
  lemma UnregisteredIffUndiscovered(cached: seq<Uuid>, uuidOf: int -> Uuid, devices: seq<Device>, i: nat)
    ensures Unregister(i) in UnregisterCalls(cached, DeviceUuids(uuidOf, devices)) <==>
      i < |cached| && forall j :: 0 <= j < |devices| ==> uuidOf(devices[j].id) != cached[i]
  {
    var kept := DeviceUuids(uuidOf, devices);
    UnregisterCallsExact(cached, kept, i);
    if i < |cached| && cached[i] in kept {
      var j :| 0 <= j < |kept| && kept[j] == cached[i];
      assert uuidOf(devices[j].id) == cached[i];
    }
  }

  /** Cached accessory `i` keeps its context when no supported discovered device targets it. */
  lemma {:induction false} ContextUntouched(cached: seq<Uuid>, uuidOf: int -> Uuid, devices: seq<Device>, i: nat, prior: Option<Device>)
    requires forall j :: 0 <= j < |devices| ==> !Targets(cached, uuidOf, devices[j], i)
    ensures LastUpdate(DeviceCalls(cached, uuidOf, devices), i, prior) == prior
    decreases |devices|
  {
    if |devices| > 0 {
      var n := |devices| - 1;
      var d := devices[n];
      var u := uuidOf(d.id);
      assert !Targets(cached, uuidOf, d, i);
      ContextUntouched(cached, uuidOf, devices[..n], i, prior);
      LastUpdateAfterInit(DeviceCalls(cached, uuidOf, devices[..n]), CachedMatch(cached, u), u, d, i, prior);
    }
  }

  /** Otherwise its context is the last supported discovered device that targets it. */
  lemma {:induction false} ContextIsLastTarget(cached: seq<Uuid>, uuidOf: int -> Uuid, devices: seq<Device>, i: nat,
                                               prior: Option<Device>, j: nat)
    requires j < |devices| && Targets(cached, uuidOf, devices[j], i)
    requires forall m :: j < m < |devices| ==> !Targets(cached, uuidOf, devices[m], i)
    ensures LastUpdate(DeviceCalls(cached, uuidOf, devices), i, prior) == Some(devices[j])
    decreases |devices|
  {
    var n := |devices| - 1;
    var d := devices[n];
    var u := uuidOf(d.id);
    LastUpdateAfterInit(DeviceCalls(cached, uuidOf, devices[..n]), CachedMatch(cached, u), u, d, i, prior);
    if j < n {
      assert !Targets(cached, uuidOf, d, i);
      ContextIsLastTarget(cached, uuidOf, devices[..n], i, prior, j);
    }
  }

  /** A host accessory: its UUID and name are fixed, its context device is replaced in place. */
  class Accessory {
    const uuid: Uuid
    const displayName: string
    var device: Option<Device>

    constructor (uuid: Uuid, displayName: string, device: Option<Device>)
      ensures this.uuid == uuid && this.displayName == displayName && this.device == device
    {
      this.uuid := uuid;
      this.displayName := displayName;
      this.device := device;
    }
  }

  /** The UUIDs of a list of accessories. */
  function UuidsOf(accs: seq<Accessory>): (us: seq<Uuid>)
    ensures |us| == |accs|
    ensures forall i :: 0 <= i < |accs| ==> us[i] == accs[i].uuid
  {
    if |accs| == 0 then [] else UuidsOf(accs[..|accs| - 1]) + [accs[|accs| - 1].uuid]
  }

  class SmartRentPlatform {
    const uuidOf: int -> Uuid
    var accessories: seq<Accessory>
    var calls: seq<HostCall>

    constructor (uuidOf: int -> Uuid)
      ensures this.uuidOf == uuidOf && accessories == [] && calls == []
    {
      this.uuidOf := uuidOf;
      accessories := [];
      calls := [];
    }

    /** No accessory object is cached twice. */
    predicate Distinct()
      reads this
    {
      forall i, j :: 0 <= i < j < |accessories| ==> accessories[i] != accessories[j]
    }

    /** `configureAccessory`: the host hands back one cached accessory. */
    method ConfigureAccessory(accessory: Accessory)
      modifies this
      ensures accessories == old(accessories) + [accessory]
      ensures calls == old(calls)
    {
      accessories := accessories + [accessory];
    }

    /**
     * `_initAccessory`: dispatch on the device type; a supported device updates the
     * cached accessory `existing` (an index into `accessories`) or is registered anew.
     */
    method InitAccessory(uuid: Uuid, device: Device, existing: Option<nat>)
      requires existing.Some? ==> existing.value < |accessories|
      requires Distinct()
      modifies this, if existing.Some? then {accessories[existing.value]} else {}
      ensures accessories == old(accessories)
      ensures calls == old(calls) + InitCalls(existing, uuid, device)
      ensures forall i :: 0 <= i < |accessories| ==>
        accessories[i].device == if KindOf(device).Some? && existing == Some(i) then Some(device) else old(accessories[i].device)
    {
      var kind: Kind;
      if device.deviceType == "sensor_notification" {
        if "leak" in device.attributes {
          kind := LeakSensor;
        } else {
          return;
        }
      } else if device.deviceType == "entry_control" {
        kind := Lock;
      } else if device.deviceType == "switch_binary" {
        kind := Switch;
      } else {
        return;
      }
      if existing.Some? {
        accessories[existing.value].device := Some(device);
        calls := calls + [Update(existing.value, device, kind)];
      } else {
        calls := calls + [Register(uuid, device, kind)];
      }
    }

    /**
     * `discoverDevices`, given the devices the API returned: initialise every
     * device, then unregister the cached accessories whose UUID was not discovered.
     * Returns the kept UUID list.
     */
    method DiscoverDevices(devices: seq<Device>) returns (uuids: seq<Uuid>)
      requires Distinct()
      modifies this, accessories
      ensures accessories == old(accessories)
      ensures uuids == DeviceUuids(uuidOf, devices)
      ensures calls == old(calls) + DeviceCalls(UuidsOf(accessories), uuidOf, devices)
                                  + UnregisterCalls(UuidsOf(accessories), uuids)
      ensures forall i :: 0 <= i < |accessories| ==>
        accessories[i].device == LastUpdate(DeviceCalls(UuidsOf(accessories), uuidOf, devices), i, old(accessories[i].device))
    {
      uuids := InitDevices(devices);
      UnregisterUndiscovered(uuids);
    }

    /** The first loop of `discoverDevices` (`devices.map`): one `_initAccessory` per device. */
    method InitDevices(devices: seq<Device>) returns (uuids: seq<Uuid>)
      requires Distinct()
      modifies this, accessories
      ensures accessories == old(accessories)
      ensures uuids == DeviceUuids(uuidOf, devices)
      ensures calls == old(calls) + DeviceCalls(UuidsOf(accessories), uuidOf, devices)
      ensures forall i :: 0 <= i < |accessories| ==>
        accessories[i].device == LastUpdate(DeviceCalls(UuidsOf(accessories), uuidOf, devices), i, old(accessories[i].device))
    {
      var cached := UuidsOf(accessories);
      uuids := [];
      var j := 0;
      while j < |devices|
        invariant 0 <= j <= |devices|
        invariant accessories == old(accessories) && Distinct()
        invariant uuids == DeviceUuids(uuidOf, devices[..j])
        invariant calls == old(calls) + DeviceCalls(cached, uuidOf, devices[..j])
        invariant forall i :: 0 <= i < |accessories| ==>
          accessories[i].device == LastUpdate(DeviceCalls(cached, uuidOf, devices[..j]), i, old(accessories[i].device))
      {
        var device := devices[j];
        var uuid := uuidOf(device.id);
        var existing := CachedMatch(cached, uuid);
        ghost var before := DeviceCalls(cached, uuidOf, devices[..j]);
        label Before:
        InitAccessory(uuid, device, existing);
        DiscoveryStep(old(calls), cached, uuidOf, devices, j);
        uuids := uuids + [uuid];
        forall i | 0 <= i < |accessories|
          ensures accessories[i].device == LastUpdate(before + InitCalls(existing, uuid, device), i, old(accessories[i].device))
        {
          assert old@Before(accessories[i].device) == LastUpdate(before, i, old(accessories[i].device));
          LastUpdateAfterInit(before, existing, uuid, device, i, old(accessories[i].device));
        }
        j := j + 1;
      }
      assert devices[..j] == devices;
    }

    /** The second loop of `discoverDevices` (`accessories.forEach`): unregister what was not kept. */
    method UnregisterUndiscovered(kept: seq<Uuid>)
      modifies this
      ensures accessories == old(accessories)
      ensures calls == old(calls) + UnregisterCalls(UuidsOf(accessories), kept)
    {
      var cached := UuidsOf(accessories);
      var i := 0;
      while i < |accessories|
        invariant 0 <= i <= |accessories|
        invariant accessories == old(accessories)
        invariant calls == old(calls) + UnregisterCalls(cached[..i], kept)
      {
        if accessories[i].uuid !in kept {
          calls := calls + [Unregister(i)];
        }
        assert cached[..i + 1][..i] == cached[..i];
        i := i + 1;
      }
      assert cached[..i] == cached;
    }

    /** The `didFinishLaunching` handler, given what `getAccessToken()` resolved to. */
    method DidFinishLaunching(token: Option<string>, devices: seq<Device>) returns (discovered: bool)
      requires Distinct()
      modifies this, accessories
      ensures discovered <==> token.Some? && token.value != ""
      ensures accessories == old(accessories)
      ensures !discovered ==> calls == old(calls)
      ensures discovered ==> calls == old(calls) + DeviceCalls(UuidsOf(accessories), uuidOf, devices)
                                  + UnregisterCalls(UuidsOf(accessories), DeviceUuids(uuidOf, devices))
      ensures !discovered ==> forall i :: 0 <= i < |accessories| ==> accessories[i].device == old(accessories[i].device)
      ensures discovered ==> forall i :: 0 <= i < |accessories| ==>
        accessories[i].device == LastUpdate(DeviceCalls(UuidsOf(accessories), uuidOf, devices), i, old(accessories[i].device))
    {
      discovered := token.Some? && token.value != "";
      if discovered {
        var _ := DiscoverDevices(devices);
      }
    }
  }
}
