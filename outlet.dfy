/**
 * outlet.go: reading and switching a smart outlet. Every read goes through
 * the retried GetDevice of ikea.go; a power write is sent only to an outlet
 * whose reported power differs from the one requested.
 */
module Outlet {
  import opened Options
  import opened Gateway
  import opened Ikea

  /** IsOutletOn's answer for the outcome of the retried fetch: errors and other types read as off. */
  predicate ReportsOn(fetched: (Device, Option<Error>)) {
    fetched.1 == None && fetched.0.deviceType == OutletType && fetched.0.power == 1
  }

  /** The write SetOutletPowerState sends after the fetch, if any. */
  function OutletWrite(fetched: (Device, Option<Error>), deviceId: int, powerState: int): (write: Option<Call>)
    ensures write.Some? ==> write.value == PutPower(deviceId, powerState)
  {
    var (device, err) := fetched;
    if err == None && device.deviceType == OutletType && device.power != powerState
    then Some(PutPower(deviceId, powerState))
    else None
  }

  /**
   * The error SetOutletPowerState returns, given the fetch and the gateway's
   * answer to the write (which matters only when a write is sent).
   */
  function OutletResult(fetched: (Device, Option<Error>), powerState: int, writeFailure: Option<string>): (err: Option<Error>)
    ensures err == None <==> fetched.1 == None && fetched.0.deviceType == OutletType
                             && (fetched.0.power == powerState || writeFailure == None)
  {
    var (device, fetchErr) := fetched;
    if fetchErr.Some? then Some(DeviceStateError(fetchErr.value))
    else if device.deviceType != OutletType then Some(NotAnOutlet)
    else if device.power == powerState then None
    else if writeFailure.Some? then Some(SettingDeviceError(GatewayError(writeFailure.value)))
    else None
  }

  /** IsOutletOn: the retried fetch, read as on only for an outlet reporting power 1. */
  method IsOutletOn(t: Transport, deviceId: int) returns (on: bool)
    modifies t
    ensures on == ReportsOn(DeviceFetch(t, old(t.fetches), deviceId))
    ensures var first := t.deviceReply(old(t.fetches), deviceId);
      && t.fetches == old(t.fetches) + Attempts(first)
      && t.reconnects == old(t.reconnects) + Attempts(first) - 1
      && t.calls == old(t.calls) + FetchCalls(first, deviceId)
    ensures t.listings == old(t.listings)
    ensures t.writeCount == old(t.writeCount) && t.writes == old(t.writes)
  {
    var device, err := GetDevice(t, deviceId);
    if err != None {
      return false;
    }
    if device.deviceType != OutletType {
      return false;
    }
    return device.power == 1;
  }

  /**
   * SetOutletPowerState: fetch the device (with one retry), refuse anything
   * but an outlet, and write the power only when it differs from the request.
   */
  method SetOutletPowerState(t: Transport, deviceId: int, powerState: int) returns (err: Option<Error>)
    requires t.Valid()
    modifies t
    ensures t.Valid()
    ensures var fetched := DeviceFetch(t, old(t.fetches), deviceId);
      var write := OutletWrite(fetched, deviceId, powerState);
      && t.writes == old(t.writes) + Sent(write)
      && t.writeCount == old(t.writeCount) + |Sent(write)|
      && t.calls == old(t.calls) + FetchCalls(t.deviceReply(old(t.fetches), deviceId), deviceId) + Sent(write)
      && err == OutletResult(fetched, powerState, t.writeReply(old(t.writeCount)))
    ensures var first := t.deviceReply(old(t.fetches), deviceId);
      && t.fetches == old(t.fetches) + Attempts(first)
      && t.reconnects == old(t.reconnects) + Attempts(first) - 1
    ensures t.listings == old(t.listings)
  {
    var device, fetchErr := GetDevice(t, deviceId);
    if fetchErr != None {
      return Some(DeviceStateError(fetchErr.value));
    }
    if device.deviceType != OutletType {
      return Some(NotAnOutlet);
    }
    if device.power != powerState {
      var failure := t.PutDevicePower(deviceId, powerState);
      if failure != None {
        return Some(SettingDeviceError(GatewayError(failure.value)));
      }
    }
    return None;
  }

  /** TurnOutletOn: request power 1. */
  method TurnOutletOn(t: Transport, deviceId: int) returns (err: Option<Error>)
    requires t.Valid()
    modifies t
    ensures t.Valid()
    ensures var fetched := DeviceFetch(t, old(t.fetches), deviceId);
      var write := OutletWrite(fetched, deviceId, 1);
      && t.writes == old(t.writes) + Sent(write)
      && t.writeCount == old(t.writeCount) + |Sent(write)|
      && t.calls == old(t.calls) + FetchCalls(t.deviceReply(old(t.fetches), deviceId), deviceId) + Sent(write)
      && err == OutletResult(fetched, 1, t.writeReply(old(t.writeCount)))
    ensures var first := t.deviceReply(old(t.fetches), deviceId);
      && t.fetches == old(t.fetches) + Attempts(first)
      && t.reconnects == old(t.reconnects) + Attempts(first) - 1
    ensures t.listings == old(t.listings)
  {
    err := SetOutletPowerState(t, deviceId, 1);
  }

  /** TurnOutletOff: request power 0. */
  method TurnOutletOff(t: Transport, deviceId: int) returns (err: Option<Error>)
    requires t.Valid()
    modifies t
    ensures t.Valid()
    ensures var fetched := DeviceFetch(t, old(t.fetches), deviceId);
      var write := OutletWrite(fetched, deviceId, 0);
      && t.writes == old(t.writes) + Sent(write)
      && t.writeCount == old(t.writeCount) + |Sent(write)|
      && t.calls == old(t.calls) + FetchCalls(t.deviceReply(old(t.fetches), deviceId), deviceId) + Sent(write)
      && err == OutletResult(fetched, 0, t.writeReply(old(t.writeCount)))
    ensures var first := t.deviceReply(old(t.fetches), deviceId);
      && t.fetches == old(t.fetches) + Attempts(first)
      && t.reconnects == old(t.reconnects) + Attempts(first) - 1
    ensures t.listings == old(t.listings)
  {
    err := SetOutletPowerState(t, deviceId, 0);
  }

  /**
   * The write policy: a write is sent exactly when the fetch succeeded, the
   * device is an outlet and its power differs; a refused request writes nothing.
   */
  lemma OutletWritePolicy(fetched: (Device, Option<Error>), deviceId: int, powerState: int)
    ensures OutletWrite(fetched, deviceId, powerState).Some?
            <==> fetched.1 == None && fetched.0.deviceType == OutletType && fetched.0.power != powerState
    ensures fetched.1 != None ==> OutletResult(fetched, powerState, None) == Some(DeviceStateError(fetched.1.value))
    ensures fetched.1 == None && fetched.0.deviceType != OutletType
            ==> OutletResult(fetched, powerState, None) == Some(NotAnOutlet)
  {
  }

  /**
   * Repeating a request is harmless: once the outlet reports the requested
   * power, the same request sends nothing and succeeds whatever the gateway
   * would have answered a write.
   */
  lemma OutletIdempotent(device: Device, deviceId: int, powerState: int, writeFailure: Option<string>)
    requires device.deviceType == OutletType
    ensures var after := (device.(power := powerState), None);
      OutletWrite(after, deviceId, powerState) == None && OutletResult(after, powerState, writeFailure) == None
  {
  }

  /**
   * IsOutletOn and TurnOutletOn agree: for an outlet that was read, switching it
   * on sends a write exactly when it does not read as on.
   */
  lemma TurnOnWritesUnlessOn(fetched: (Device, Option<Error>), deviceId: int)
    requires fetched.1 == None && fetched.0.deviceType == OutletType
    ensures OutletWrite(fetched, deviceId, 1).Some? <==> !ReportsOn(fetched)
  {
  }

  /** For an outlet reporting 0 or 1, exactly one of TurnOutletOn and TurnOutletOff writes. */
  lemma OnOffExclusive(fetched: (Device, Option<Error>), deviceId: int)
    requires fetched.1 == None && fetched.0.deviceType == OutletType
    requires fetched.0.power == 0 || fetched.0.power == 1
    ensures OutletWrite(fetched, deviceId, 1).Some? != OutletWrite(fetched, deviceId, 0).Some?
  {
  }

  /**
   * The texts SetOutletPowerState's errors carry: a fetch that failed twice is
   * wrapped by GetDevice and again here, a refused type names a nil cause, and
   * a failed write wraps the gateway's text.
   */
  lemma OutletErrorMessages(first: Reply<Device>, second: Reply<Device>, powerState: int, writeFailure: Option<string>)
    ensures var err := OutletResult(Retried(first, second, ZeroDevice), powerState, writeFailure);
      first.Fail? && second.Fail? ==>
        (err.Some? && err.value.Message() == "error getting device state: error getting device state: " + second.detail)
    ensures var fetched := Retried(first, second, ZeroDevice);
      var err := OutletResult(fetched, powerState, writeFailure);
      fetched.1 == None && fetched.0.deviceType != OutletType ==>
        (err.Some? && err.value.Message() == "device is not an outlet: <nil>")
    ensures var fetched := Retried(first, second, ZeroDevice);
      var err := OutletResult(fetched, powerState, writeFailure);
      fetched.1 == None && fetched.0.deviceType == OutletType && fetched.0.power != powerState && writeFailure.Some? ==>
        (err.Some? && err.value.Message() == "error setting device: " + writeFailure.value)
  {
    if second.Fail? {
      RewrappedFetchMessage(second.detail);
    }
  }
}
