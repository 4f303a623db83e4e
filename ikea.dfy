/**
 * The package-level operations of ikea.go over the gateway client: the two
 * listings, the one-shot reconnect-and-retry reads, and the filter by type.
 * The process-wide client is the Transport passed in; reconnecting replaces
 * its session, which the model records as a Reconnect call.
 */
module Ikea {
  import opened Options
  import opened Text
  import opened Gateway
  import opened Sorting
  import opened Listing

  /**
   * Outcome of a read that is tried once and, on any error, once more after a
   * reconnect: the first answer that succeeded, or the zero value and the
   * second error wrapped as a device-state error.
   */
  function Retried<T>(first: Reply<T>, second: Reply<T>, zero: T): (r: (T, Option<Error>))
    ensures r.1 == None <==> first.Ok? || second.Ok?
    ensures first.Ok? ==> r.0 == first.value
    ensures first.Fail? && second.Ok? ==> r.0 == second.value
    ensures r.1 != None ==> r.0 == zero && r.1 == Some(DeviceStateError(GatewayError(second.detail)))
  {
    match first
    case Ok(v) => (v, None)
    case Fail(_) =>
      match second
      case Ok(v) => (v, None)
      case Fail(e) => (zero, Some(DeviceStateError(GatewayError(e))))
  }

  /** A fetch error wrapped once more by a caller reads as the prefix twice, then the gateway's text. */
  lemma RewrappedFetchMessage(detail: string)
    ensures DeviceStateError(DeviceStateError(GatewayError(detail))).Message()
            == "error getting device state: error getting device state: " + detail
  {
    var prefix := "error getting device state: ";
    assert DeviceStateError(GatewayError(detail)).Message() == prefix + detail;
    AppendAssoc(prefix, prefix, detail);
  }

  /** What GetDevice returns when the transport's single-device counter stands at k. */
  function DeviceFetch(t: Transport, k: nat, deviceId: int): (Device, Option<Error>) {
    Retried(t.deviceReply(k, deviceId), t.deviceReply(k + 1, deviceId), ZeroDevice)
  }

  /** The requests a retried device read makes, given the answer to its first fetch. */
  function FetchCalls(first: Reply<Device>, deviceId: int): (calls: seq<Call>)
    ensures |calls| == 2 * Attempts(first) - 1
    ensures calls[0] == calls[|calls| - 1] == FetchDevice(deviceId)
    ensures forall c | c in calls :: !IsWrite(c)
    ensures |calls| == 3 ==> calls[1] == Call.Reconnect
  {
    if first.Ok? then [FetchDevice(deviceId)] else [FetchDevice(deviceId), Call.Reconnect, FetchDevice(deviceId)]
  }

  /** The number of fetches a retried read makes. */
  function Attempts<T>(first: Reply<T>): (n: nat)
    ensures 1 <= n <= 2 && (n == 1 <==> first.Ok?)
  {
    if first.Ok? then 1 else 2
  }

  /**
   * GetDevice: fetch the device; on any error reconnect and fetch once more.
   * A first success costs one fetch and no reconnect; a first failure costs
   * exactly one reconnect and a second fetch, whose answer decides the result.
   */
  method GetDevice(t: Transport, deviceId: int) returns (device: Device, err: Option<Error>)
    modifies t
    ensures (device, err) == DeviceFetch(t, old(t.fetches), deviceId)
    ensures var first := t.deviceReply(old(t.fetches), deviceId);
      && t.fetches == old(t.fetches) + Attempts(first)
      && t.reconnects == old(t.reconnects) + Attempts(first) - 1
      && t.calls == old(t.calls) + FetchCalls(first, deviceId)
    ensures t.listings == old(t.listings)
    ensures t.writeCount == old(t.writeCount) && t.writes == old(t.writes)
  {
    var reply := t.GetDevice(deviceId);
    if reply.Fail? {
      t.Reconnect();
      reply := t.GetDevice(deviceId);
      if reply.Fail? {
        return ZeroDevice, Some(DeviceStateError(GatewayError(reply.detail)));
      }
    }
    return reply.value, None;
  }

  /** GetDevices: the same one-shot retry around the device-list fetch. */
  method GetDevices(t: Transport) returns (deviceList: seq<Device>, err: Option<Error>)
    modifies t
    ensures (deviceList, err) == Retried(t.listReply(old(t.listings)), t.listReply(old(t.listings) + 1), [])
    ensures var first := t.listReply(old(t.listings));
      && t.listings == old(t.listings) + Attempts(first)
      && t.reconnects == old(t.reconnects) + Attempts(first) - 1
      && t.calls == old(t.calls) + if first.Ok? then [FetchList] else [FetchList, Call.Reconnect, FetchList]
    ensures t.fetches == old(t.fetches)
    ensures t.writeCount == old(t.writeCount) && t.writes == old(t.writes)
  {
    var reply := t.ListDevices();
    if reply.Fail? {
      t.Reconnect();
      reply := t.ListDevices();
      if reply.Fail? {
        return [], Some(DeviceStateError(GatewayError(reply.detail)));
      }
    }
    return reply.value, None;
  }

  /**
   * The filtering loop of GetDevicesOfType: the devices of the given type, in
   * list order, each as often as it occurs in the list.
   */
  method SelectType(deviceList: seq<Device>, deviceType: int) returns (ofType: seq<Device>)
    ensures ofType == Keep(deviceList, OfType(deviceType))
    ensures forall d | d in ofType :: d.deviceType == deviceType
    ensures forall d: Device | d.deviceType == deviceType :: multiset(ofType)[d] == multiset(deviceList)[d]
  {
    ofType := [];
    for i := 0 to |deviceList|
      invariant ofType == Keep(deviceList[..i], OfType(deviceType))
    {
      assert deviceList[..i + 1][..i] == deviceList[..i];
      if deviceList[i].deviceType == deviceType {
        ofType := ofType + [deviceList[i]];
      }
    }
    assert deviceList[..|deviceList|] == deviceList;
    forall d: Device | d.deviceType == deviceType ensures multiset(ofType)[d] == multiset(deviceList)[d] {
      KeepCount(deviceList, OfType(deviceType), d);
    }
    forall d | d in ofType ensures d.deviceType == deviceType {
      KeepCount(deviceList, OfType(deviceType), d);
      assert d in multiset(ofType);
    }
  }

  /** GetDevicesOfType: the retried device list filtered by type; on error an empty list. */
  method GetDevicesOfType(t: Transport, deviceType: int) returns (ofType: seq<Device>, err: Option<Error>)
    modifies t
    ensures var (all, e) := Retried(t.listReply(old(t.listings)), t.listReply(old(t.listings) + 1), []);
      && err == e
      && ofType == if e == None then Keep(all, OfType(deviceType)) else []
    ensures var first := t.listReply(old(t.listings));
      && t.listings == old(t.listings) + Attempts(first)
      && t.reconnects == old(t.reconnects) + Attempts(first) - 1
      && t.calls == old(t.calls) + if first.Ok? then [FetchList] else [FetchList, Call.Reconnect, FetchList]
    ensures t.fetches == old(t.fetches)
    ensures t.writeCount == old(t.writeCount) && t.writes == old(t.writes)
  {
    var deviceList;
    deviceList, err := GetDevices(t);
    if err != None {
      return [], err;
    }
    ofType := SelectType(deviceList, deviceType);
  }

  /** One turn of the DeviceRows loop keeps its invariant. */
  lemma DeviceRowsStep(list: string, s: seq<Device>, i: nat, includeDead: bool, now: int)
    requires i < |s|
    requires list == Header + Rows(Shown(s[..i], includeDead), now)
    ensures (if !includeDead && s[i].alive == 0 then list else list + Row(s[i], now))
            == Header + Rows(Shown(s[..i + 1], includeDead), now)
  {
    ShownStep(s, i, includeDead, now);
    var before := Rows(Shown(s[..i], includeDead), now);
    if !includeDead && s[i].alive == 0 {
      assert before + "" == before;
    } else {
      AppendAssoc(Header, before, Row(s[i], now));
    }
  }

  /**
   * The row-building loop of ListDevicesWithDead over the sorted list: the
   * header, then one row per device, skipping dead ones unless includeDead.
   */
  method DeviceRows(deviceList: seq<Device>, includeDead: bool, now: int) returns (list: string)
    ensures list == Header + Rows(Shown(deviceList, includeDead), now)
  {
    list := Header;
    for i := 0 to |deviceList|
      invariant list == Header + Rows(Shown(deviceList[..i], includeDead), now)
    {
      var device := deviceList[i];
      DeviceRowsStep(list, deviceList, i, includeDead, now);
      if !includeDead && device.alive == 0 {
        continue;
      }
      list := list + Row(device, now);
    }
    assert deviceList[..|deviceList|] == deviceList;
  }

  /** One turn of the BatteryRowsOf loop keeps its invariant. */
  lemma BatteryRowsStep(list: string, s: seq<Device>, i: nat)
    requires i < |s|
    requires list == BatteryHeader + BatteryRows(Keep(s[..i], BatteryPowered))
    ensures (if Selects(BatteryPowered, s[i])
             then list + (PadRight(s[i].name, 28) + " - ") + (PrintPercent(s[i].battery) + "\n")
             else list)
            == BatteryHeader + BatteryRows(Keep(s[..i + 1], BatteryPowered))
  {
    BatteryStep(s, i);
    var before := BatteryRows(Keep(s[..i], BatteryPowered));
    if Selects(BatteryPowered, s[i]) {
      AppendAssoc(BatteryHeader, before, BatteryRow(s[i]));
      AppendAssoc(list, PadRight(s[i].name, 28) + " - ", PrintPercent(s[i].battery) + "\n");
    } else {
      assert before + "" == before;
    }
  }

  /**
   * The row-building loop of ListDevicesBattery over the name-sorted list: the
   * header, then a row for each alive remote, motion sensor and blind.
   */
  method BatteryRowsOf(deviceList: seq<Device>) returns (list: string)
    ensures list == BatteryHeader + BatteryRows(Keep(deviceList, BatteryPowered))
  {
    list := BatteryHeader;
    for i := 0 to |deviceList|
      invariant list == BatteryHeader + BatteryRows(Keep(deviceList[..i], BatteryPowered))
    {
      var device := deviceList[i];
      BatteryRowsStep(list, deviceList, i);
      if device.alive == 0 || (device.deviceType != 0 && device.deviceType != 4 && device.deviceType != 7) {
        continue;
      }
      list := list + (PadRight(device.name, 28) + " - ");
      list := list + (PrintPercent(device.battery) + "\n");
    }
    assert deviceList[..|deviceList|] == deviceList;
  }

  /**
   * ListDevicesWithDead: one fetch of the device list (not retried), three
   * sorts, then one row per device, skipping dead ones unless includeDead.
   * `now` is the current time in Unix nanoseconds.
   */
  method ListDevicesWithDead(t: Transport, includeDead: bool, now: int) returns (list: string, err: Option<Error>)
    modifies t
    ensures var reply := t.listReply(old(t.listings));
      && (reply.Fail? ==> list == "" && err == Some(GatewayError(reply.detail)))
      && (reply.Ok? ==> list == DeviceListing(reply.value, includeDead, now) && err == None)
    ensures t.listings == old(t.listings) + 1 && t.calls == old(t.calls) + [FetchList]
    ensures t.fetches == old(t.fetches) && t.reconnects == old(t.reconnects)
    ensures t.writeCount == old(t.writeCount) && t.writes == old(t.writes)
  {
    var reply := t.ListDevices();
    if reply.Fail? {
      return "", Some(GatewayError(reply.detail));
    }
    var deviceList := reply.value;
    deviceList := Sort(deviceList, ByDeviceId);
    deviceList := Sort(deviceList, ByType);
    deviceList := Sort(deviceList, ByAlive);
    list := DeviceRows(deviceList, includeDead, now);
    err := None;
  }

  /** ListDevices: the listing without dead devices. */
  method ListDevices(t: Transport, now: int) returns (list: string, err: Option<Error>)
    modifies t
    ensures var reply := t.listReply(old(t.listings));
      && (reply.Fail? ==> list == "" && err == Some(GatewayError(reply.detail)))
      && (reply.Ok? ==> list == DeviceListing(reply.value, false, now) && err == None)
    ensures t.listings == old(t.listings) + 1 && t.calls == old(t.calls) + [FetchList]
    ensures t.fetches == old(t.fetches) && t.reconnects == old(t.reconnects)
    ensures t.writeCount == old(t.writeCount) && t.writes == old(t.writes)
  {
    list, err := ListDevicesWithDead(t, false, now);
  }

  /**
   * ListDevicesBattery: one fetch (not retried), a sort by name, then a row
   * for each alive remote, motion sensor and blind.
   */
  method ListDevicesBattery(t: Transport) returns (list: string, err: Option<Error>)
    modifies t
    ensures var reply := t.listReply(old(t.listings));
      && (reply.Fail? ==> list == "" && err == Some(GatewayError(reply.detail)))
      && (reply.Ok? ==> list == BatteryListing(reply.value) && err == None)
    ensures t.listings == old(t.listings) + 1 && t.calls == old(t.calls) + [FetchList]
    ensures t.fetches == old(t.fetches) && t.reconnects == old(t.reconnects)
    ensures t.writeCount == old(t.writeCount) && t.writes == old(t.writes)
  {
    var reply := t.ListDevices();
    if reply.Fail? {
      return "", Some(GatewayError(reply.detail));
    }
    var deviceList := Sort(reply.value, ByName);
    list := BatteryRowsOf(deviceList);
    err := None;
  }
}
