/**
 * What the core sees of the smart-home gateway: the device record it reads,
 * the errors it reports, and the gateway client it calls through.
 *
 * The client is an abstract transport. What each request answers is fixed in
 * advance as a script indexed by how many requests of that kind were issued
 * before it, so a test scenario ("the first fetch fails, the second succeeds")
 * is simply a choice of script. Counters and ghost logs record which requests
 * were made and which writes reached the gateway.
 */
module Gateway {
  import opened Options

  /** Device type codes as the gateway reports them. */
  const RemoteType: int := 0
  const OutletType: int := 3
  const MotionType: int := 4
  const RepeaterType: int := 6
  const BlindType: int := 7

  /**
   * One device record. Every device carries every field; `power` is the first
   * outlet-control entry and `position` the first blind-control entry, which
   * are meaningful only for an outlet and a blind respectively.
   */
  datatype Device = Device(
    deviceId: int,
    name: string,
    deviceType: int,
    alive: int,
    lastSeen: int,    // Unix seconds
    battery: int,     // percent
    power: int,       // outlet: 0 off, otherwise on
    position: real    // blind: percent
  )

  /** The zero value of a device record, returned beside an error. */
  const ZeroDevice := Device(0, "", 0, 0, 0, 0, 0, 0.0)

  /** The answer of one gateway request: a value, or the gateway's error text. */
  datatype Reply<+T> = Ok(value: T) | Fail(detail: string)

  /** The errors the core returns, each wrapping the one that caused it. */
  datatype Error =
    | GatewayError(detail: string)     // straight from the gateway client
    | DeviceStateError(cause: Error)   // fetching a device (or the list) failed
    | NotAnOutlet                      // the device's type is not 3
    | NotABlind                        // the device's type is not 7
    | SettingDeviceError(cause: Error) // an outlet power write failed
    | SettingBlindError(cause: Error)  // a blind position write failed
  {
    /** The error's text as Go's fmt renders it (the type errors wrap a nil error). */
    function Message(): string {
      match this
      case GatewayError(d) => d
      case DeviceStateError(c) => "error getting device state: " + c.Message()
      case NotAnOutlet => "device is not an outlet: <nil>"
      case NotABlind => "device is not a blind: <nil>"
      case SettingDeviceError(c) => "error setting device: " + c.Message()
      case SettingBlindError(c) => "error setting blind: " + c.Message()
    }
  }

  /** A request made to the gateway, as recorded in the transport's log. */
  datatype Call =
    | FetchDevice(deviceId: int)
    | FetchList
    | PutPower(deviceId: int, power: int)
    | PutPosition(deviceId: int, position: real)
    | Reconnect

  predicate IsWrite(c: Call) {
    c.PutPower? || c.PutPosition?
  }

  /** The log entry of a write that may or may not have been sent. */
  function Sent(write: Option<Call>): (log: seq<Call>)
    ensures |log| <= 1 && (log == [] <==> write == None)
  {
    if write.Some? then [write.value] else []
  }

  class Transport {
    /** The answer to the k-th single-device fetch, for each device id. */
    const deviceReply: (nat, int) -> Reply<Device>
    /** The answer to the k-th device-list fetch. */
    const listReply: nat -> Reply<seq<Device>>
    /** The k-th write: None when the gateway accepts it, else its error text. */
    const writeReply: nat -> Option<string>

    var fetches: nat
    var listings: nat
    var writeCount: nat
    var reconnects: nat

    /** Every request, in order. */
    ghost var calls: seq<Call>
    /** Every write request, in order. */
    ghost var writes: seq<Call>

    ghost predicate Valid()
      reads this
    {
      && (forall i | 0 <= i < |writes| :: IsWrite(writes[i]))
      && |writes| == writeCount
    }

    constructor (deviceReply: (nat, int) -> Reply<Device>, listReply: nat -> Reply<seq<Device>>,
                 writeReply: nat -> Option<string>)
      ensures Valid()
      ensures this.deviceReply == deviceReply && this.listReply == listReply
      ensures this.writeReply == writeReply
      ensures fetches == listings == writeCount == reconnects == 0
      ensures calls == [] && writes == []
    {
      this.deviceReply := deviceReply;
      this.listReply := listReply;
      this.writeReply := writeReply;
      fetches, listings, writeCount, reconnects := 0, 0, 0, 0;
      calls, writes := [], [];
    }

    /** The gateway client's GetDevice. */
    method GetDevice(id: int) returns (r: Reply<Device>)
      modifies this
      ensures r == deviceReply(old(fetches), id)
      ensures fetches == old(fetches) + 1
      ensures calls == old(calls) + [FetchDevice(id)]
      ensures listings == old(listings) && reconnects == old(reconnects)
      ensures writeCount == old(writeCount) && writes == old(writes)
    {
      r := deviceReply(fetches, id);
      fetches := fetches + 1;
      calls := calls + [FetchDevice(id)];
    }

    /** The gateway client's ListDevices. */
    method ListDevices() returns (r: Reply<seq<Device>>)
      modifies this
      ensures r == listReply(old(listings))
      ensures listings == old(listings) + 1
      ensures calls == old(calls) + [FetchList]
      ensures fetches == old(fetches) && reconnects == old(reconnects)
      ensures writeCount == old(writeCount) && writes == old(writes)
    {
      r := listReply(listings);
      listings := listings + 1;
      calls := calls + [FetchList];
    }

    /** The gateway client's PutDevicePower. */
    method PutDevicePower(id: int, power: int) returns (failure: Option<string>)
      requires Valid()
      modifies this
      ensures Valid()
      ensures failure == writeReply(old(writeCount))
      ensures writeCount == old(writeCount) + 1
      ensures calls == old(calls) + [PutPower(id, power)]
      ensures writes == old(writes) + [PutPower(id, power)]
      ensures fetches == old(fetches) && listings == old(listings) && reconnects == old(reconnects)
    {
      failure := writeReply(writeCount);
      writeCount := writeCount + 1;
      calls := calls + [PutPower(id, power)];
      writes := writes + [PutPower(id, power)];
    }

    /** The gateway client's PutDevicePositioning. */
    method PutDevicePositioning(id: int, position: real) returns (failure: Option<string>)
      requires Valid()
      modifies this
      ensures Valid()
      ensures failure == writeReply(old(writeCount))
      ensures writeCount == old(writeCount) + 1
      ensures calls == old(calls) + [PutPosition(id, position)]
      ensures writes == old(writes) + [PutPosition(id, position)]
      ensures fetches == old(fetches) && listings == old(listings) && reconnects == old(reconnects)
    {
      failure := writeReply(writeCount);
      writeCount := writeCount + 1;
      calls := calls + [PutPosition(id, position)];
      writes := writes + [PutPosition(id, position)];
    }

    /**
     * Re-reading the configuration and replacing the client. Its own error is
     * ignored by every caller, so here it is a step that only gets counted.
     */
    method Reconnect()
      modifies this
      ensures reconnects == old(reconnects) + 1
      ensures calls == old(calls) + [Call.Reconnect]
      ensures fetches == old(fetches) && listings == old(listings)
      ensures writeCount == old(writeCount) && writes == old(writes)
    {
      reconnects := reconnects + 1;
      calls := calls + [Call.Reconnect];
    }
  }
}
