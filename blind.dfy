/**
 * blind.go: reading and moving a motorised blind. Every read goes through the
 * retried GetDevice of ikea.go. A position write is sent when the blind
 * reports another position, and always for a target of 0, because blinds
 * sometimes report 0 when they are not closed.
 */
module Blind {
  import opened Options
  import opened Gateway
  import opened Listing
  import opened Ikea

  /**
   * GetBlindPosition's answer for the outcome of the retried fetch: the
   * position truncated toward zero, or 0 and the error.
   */
  function BlindReading(fetched: (Device, Option<Error>)): (r: (int, Option<Error>))
    ensures r.1 == None <==> fetched.1 == None && fetched.0.deviceType == BlindType
    ensures r.1 != None ==> r.0 == 0
    ensures r.1 == None && 0.0 <= fetched.0.position ==> r.0 as real <= fetched.0.position < r.0 as real + 1.0
  {
    var (device, err) := fetched;
    if err.Some? then (0, Some(DeviceStateError(err.value)))
    else if device.deviceType != BlindType then (0, Some(NotABlind))
    else (Truncate(device.position), None)
  }

  /** The write SetBlindPosition sends after the fetch, if any. */
  function BlindWrite(fetched: (Device, Option<Error>), deviceId: int, position: real): (write: Option<Call>)
    ensures write.Some? ==> write.value == PutPosition(deviceId, position)
  {
    var (device, err) := fetched;
    if err == None && device.deviceType == BlindType && (device.position != position || position == 0.0)
    then Some(PutPosition(deviceId, position))
    else None
  }

  /**
   * The error SetBlindPosition returns, given the fetch and the gateway's
   * answer to the write (which matters only when a write is sent).
   */
  function BlindResult(fetched: (Device, Option<Error>), position: real, writeFailure: Option<string>): (err: Option<Error>)
    ensures err == None <==> fetched.1 == None && fetched.0.deviceType == BlindType
                             && ((fetched.0.position == position && position != 0.0) || writeFailure == None)
  {
    var (device, fetchErr) := fetched;
    if fetchErr.Some? then Some(DeviceStateError(fetchErr.value))
    else if device.deviceType != BlindType then Some(NotABlind)
    else if device.position != position || position == 0.0 then
      if writeFailure.Some? then Some(SettingBlindError(GatewayError(writeFailure.value))) else None
    else None
  }

  /** GetBlindPosition: the retried fetch, read as a whole percentage; `position` is not used. */
  method GetBlindPosition(t: Transport, deviceId: int, position: real) returns (pos: int, err: Option<Error>)
    modifies t
    ensures (pos, err) == BlindReading(DeviceFetch(t, old(t.fetches), deviceId))
    ensures var first := t.deviceReply(old(t.fetches), deviceId);
      && t.fetches == old(t.fetches) + Attempts(first)
      && t.reconnects == old(t.reconnects) + Attempts(first) - 1
      && t.calls == old(t.calls) + FetchCalls(first, deviceId)
    ensures t.listings == old(t.listings)
    ensures t.writeCount == old(t.writeCount) && t.writes == old(t.writes)
  {
    var device, fetchErr := GetDevice(t, deviceId);
    if fetchErr != None {
      return 0, Some(DeviceStateError(fetchErr.value));
    }
    if device.deviceType != BlindType {
      return 0, Some(NotABlind);
    }
    return Truncate(device.position), None;
  }

  /**
   * SetBlindPosition: fetch the device (with one retry), refuse anything but
   * a blind, and write the position when it differs or the target is 0.
   */
  method SetBlindPosition(t: Transport, deviceId: int, position: real) returns (err: Option<Error>)
    requires t.Valid()
    modifies t
    ensures t.Valid()
    ensures var fetched := DeviceFetch(t, old(t.fetches), deviceId);
      var write := BlindWrite(fetched, deviceId, position);
      && t.writes == old(t.writes) + Sent(write)
      && t.writeCount == old(t.writeCount) + |Sent(write)|
      && t.calls == old(t.calls) + FetchCalls(t.deviceReply(old(t.fetches), deviceId), deviceId) + Sent(write)
      && err == BlindResult(fetched, position, t.writeReply(old(t.writeCount)))
    ensures var first := t.deviceReply(old(t.fetches), deviceId);
      && t.fetches == old(t.fetches) + Attempts(first)
      && t.reconnects == old(t.reconnects) + Attempts(first) - 1
    ensures t.listings == old(t.listings)
  {
    var device, fetchErr := GetDevice(t, deviceId);
    if fetchErr != None {
      return Some(DeviceStateError(fetchErr.value));
    }
    if device.deviceType != BlindType {
      return Some(NotABlind);
    }
    if device.position != position || position == 0.0 {
      var failure := t.PutDevicePositioning(deviceId, position);
      if failure != None {
        return Some(SettingBlindError(GatewayError(failure.value)));
      }
    }
    return None;
  }

  /**
   * The write policy: a write is sent exactly when the fetch succeeded, the
   * device is a blind, and it reports another position or the target is 0.
   */
  lemma BlindWritePolicy(fetched: (Device, Option<Error>), deviceId: int, position: real)
    ensures BlindWrite(fetched, deviceId, position).Some?
            <==> fetched.1 == None && fetched.0.deviceType == BlindType
                 && (fetched.0.position != position || position == 0.0)
    ensures fetched.1 != None ==> BlindResult(fetched, position, None) == Some(DeviceStateError(fetched.1.value))
    ensures fetched.1 == None && fetched.0.deviceType != BlindType
            ==> BlindResult(fetched, position, None) == Some(NotABlind)
  {
  }

  /** A target of 0 is always written to a blind, even one that already reports 0. */
  lemma ZeroTargetAlwaysWritten(device: Device, deviceId: int)
    requires device.deviceType == BlindType
    ensures BlindWrite((device, None), deviceId, 0.0) == Some(PutPosition(deviceId, 0.0))
  {
  }

  /**
   * A non-zero target the blind already reports sends nothing and succeeds, so
   * repeating such a request is harmless.
   */
  lemma SettledTargetNotWritten(device: Device, deviceId: int, position: real, writeFailure: Option<string>)
    requires device.deviceType == BlindType && position != 0.0
    ensures var after := (device.(position := position), None);
      BlindWrite(after, deviceId, position) == None && BlindResult(after, position, writeFailure) == None
  {
  }

  /** Reading back a whole-percent position the blind reports gives that percentage. */
  lemma ReadingOfWholePosition(device: Device, percent: nat)
    requires device.deviceType == BlindType && device.position == percent as real
    ensures BlindReading((device, None)) == (percent, None)
  {
  }

  /**
   * The texts the blind operations' errors carry: a fetch that failed twice is
   * wrapped by GetDevice and again here, a refused type names a nil cause, and
   * a failed write wraps the gateway's text.
   */
  lemma BlindErrorMessages(first: Reply<Device>, second: Reply<Device>, position: real, writeFailure: Option<string>)
    ensures var fetched := Retried(first, second, ZeroDevice);
      var reading := BlindReading(fetched).1;
      var err := BlindResult(fetched, position, writeFailure);
      first.Fail? && second.Fail? ==>
        (reading.Some? && err.Some? && err.value.Message() == reading.value.Message()
         && reading.value.Message() == "error getting device state: error getting device state: " + second.detail)
    ensures var fetched := Retried(first, second, ZeroDevice);
      var reading := BlindReading(fetched).1;
      var err := BlindResult(fetched, position, writeFailure);
      fetched.1 == None && fetched.0.deviceType != BlindType ==>
        (reading.Some? && err.Some? && err.value.Message() == reading.value.Message()
         && reading.value.Message() == "device is not a blind: <nil>")
    ensures var fetched := Retried(first, second, ZeroDevice);
      var err := BlindResult(fetched, position, writeFailure);
      fetched.1 == None && fetched.0.deviceType == BlindType && writeFailure.Some?
      && (fetched.0.position != position || position == 0.0) ==>
        (err.Some? && err.value.Message() == "error setting blind: " + writeFailure.value)
  {
    if second.Fail? {
      RewrappedFetchMessage(second.detail);
    }
  }
}
