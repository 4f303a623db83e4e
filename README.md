# ikea — a verified model of the gateway-client core

The `ikea` Go package reads and controls IKEA smart-home devices (remotes,
outlets, motion sensors, repeaters and blinds) through a gateway. This project models the package's own logic in
Dafny, together with the properties it promises:

- **the device listing** (`ListDevicesWithDead`, `ListDevices`): one fetch of
  the device list, three chained sorts (by id, then stably by type, then
  stably by alive), a filter for dead devices, and one text row per shown
  device. A row holds a state column chosen by device type, a last-seen
  bucket, and the name.
- **the battery listing** (`ListDevicesBattery`, `printPercent`): the alive
  battery-powered devices (remotes, motion sensors, blinds) sorted by name,
  one row each.
- **the reconnect-and-retry reads** (`GetDevice`, `GetDevices`) and the
  type filter (`GetDevicesOfType`). A read is tried once. On any error the
  client reconnects and tries exactly once more.
- **the outlet policy** (`IsOutletOn`, `SetOutletPowerState`, `TurnOutletOn`,
  `TurnOutletOff`): a power write goes only to an outlet whose reported power
  differs from the one requested.
- **the blind policy** (`GetBlindPosition`, `SetBlindPosition`): a position
  write goes to a blind whose reported position differs. A target of 0 is
  always written, because blinds sometimes report 0 wrongly.

The gateway client is an abstract `Transport` class (module `Gateway`). Its
answers are fixed in advance as scripts indexed by how many requests of each
kind came before, so a scenario such as "the first fetch fails, the second
succeeds" is a choice of script. Counters and ghost logs record every request
and every write. The package-level client that a reconnect replaces is the
`Transport` passed to each operation. A reconnect is a recorded step whose own
error is ignored, as in the code.

Modules:

- `Text`: Go's `%v` for ints and `%-Nv` padding, each with its inverse.
- `Gateway`: the device record, the errors, and the transport.
- `Sorting`: a stable sort and an order-preserving filter.
- `Listing`: the listing texts as functions of the device list.
- `Ikea`, `Outlet`, `Blind`: the operations as methods over the transport.

Behaviour worth noting:

- A read is retried after any error, whatever its cause, including a
  malformed device id.
- The listings fetch the device list once, without the retry.
- When an outlet or blind request cannot fetch its device, the error is
  wrapped twice: `GetDevice` wraps it as "error getting device state: …",
  and the caller wraps it again.
- The listing is plain text, one line per shown device when no device name
  holds a line break, its columns joined by " - ". Column widths count runes, so an emoji glyph counts as one.

## Model

| member | source | states |
|---|---|---|
| Text.IntToString | ikea.go:115 | `%v` of an int: a leading '-' exactly for negatives, then at least one digit with no leading zero unless the number is 0, and no space or line break |
| Text.IntToStringRoundTrip | ikea.go:115 | the decimal text of an int parses back to the same int, so the text determines the number |
| Text.PadRight | ikea.go:190 | `%-Nv`: the text, then only spaces up to N runes; never truncated, so the result is at least as long as the text |
| Text.TrimRightPadRight | ikea.go:190 | padding adds only spaces: trimming them restores any text that did not end in a space |
| Listing.PrintPercent | ikea.go:188-192 | the decimal of p and '%', left-justified to at least 4 runes with trailing spaces, on one line |
| Listing.PrintPercentRoundTrip | ikea.go:188-192 | the padded percentage reads back as p for every int p: nothing is truncated |
| Listing.Truncate | ikea.go:130 | Go's float-to-int conversion truncates toward zero: within 1 of x on x's side of zero |
| Listing.StateColumn | ikea.go:116-133 | the outlet and repeater columns are exactly 15 runes wide |
| Listing.BatteryColumnShowsLevel | ikea.go:117-126 | a remote's or motion sensor's column gives back its battery level (`ColumnBattery` reads the percentage after "Remote - 🔋" or "Motion - 🔋") and no position |
| Listing.BlindColumnShowsLevels | ikea.go:129-130 | a blind's column gives back both its truncated position (between "📏" and " - 🔋") and its battery level (after "🔋") |
| Listing.LevelsReadBack | ikea.go:130 | after the ruler glyph, the two printed percentages split back at the battery glyph into the position and the battery level |
| Listing.NoBatteryGlyphInPercent | ikea.go:188-192 | a printed percentage never contains the battery glyph, so the blind column's split is unambiguous |
| Listing.StateColumnShowsType | ikea.go:116-133 | for every type code, the state column gives back the device's type (labels for 0, 3, 4, 6, 7, the number followed by 5 spaces otherwise) |
| Listing.StateColumnOneLine | ikea.go:116-133 | no state column contains a line break |
| Listing.OutletColumnShowsPower | ikea.go:119-124 | an outlet's column reads "Outlet - Off" exactly when its power is 0, and "Outlet - On" otherwise |
| Listing.BucketOf | ikea.go:142-155 | exactly one last-seen bucket applies, by strict thresholds: over 365 days, over 7 days, over 24 hours, over 2 hours, else recently |
| Listing.BucketMonotone | ikea.go:143-155 | a device seen longer ago never lands in a fresher bucket |
| Listing.RoundDiv | ikea.go:147-152 | rounding elapsed time to whole days or hours keeps its sign |
| Listing.RoundedText | ikea.go:147-152 | the printed rounded number is one line |
| Listing.BucketText | ikea.go:143-155 | every bucket's text starts with " - " and the eye glyph and holds no line break |
| Listing.BucketRest | ikea.go:143-155 | after the eye: 9 spaces over a year, a text ending in " days" for the days bucket, one ending in " hours" for the days-and-hours and hours buckets, " Recently" otherwise |
| Listing.DaysText | ikea.go:147 | the days text starts with a space, ends with " days" and is at least 9 runes long (the day count takes at least 3) |
| Listing.DaysAndHoursText | ikea.go:148-150 | the days-and-hours text starts with a space, ends with " hours" and is at least 17 runes long |
| Listing.HoursLeftText | ikea.go:150 | the hours left after the rounded days: at least 8 runes, ending with " hours" |
| Listing.HoursText | ikea.go:151-152 | the hours text starts with a space, ends with " hours" and is at least 9 runes long |
| Listing.Rounded | ikea.go:147-152 | `%-Nv` of a rounded figure: at least N runes, and trimming the padding gives the figure's own text back |
| Listing.SeenText | ikea.go:142-155 | the last-seen column (of `Elapsed`, the nanoseconds since the last-seen second) starts with " - " and the eye glyph and holds no line break, for any elapsed time |
| Listing.Row | ikea.go:115-157 | a row begins with the device id and " - ", and ends with " - ", the name and a line break |
| Listing.RowOneLine | ikea.go:115-157 | a row holds exactly one line break when the name holds none |
| Sorting.StrLessAsymmetric | ikea.go:171 | Go's `<` on names (`StrLess`, code point by code point, which is also UTF-8 byte order) never holds both ways |
| Sorting.StrLessTotal | ikea.go:171 | of two different names, one is less than the other |
| Sorting.StrLessTransitive | ikea.go:171 | the name order is transitive |
| Sorting.LeTotal | ikea.go:101-171 | for every sort key (the comparators `Less` of ikea.go:101, 104, 107 and 171), any two devices are comparable |
| Sorting.LeTransitive | ikea.go:101-171 | for every sort key, the non-strict order of the comparator is transitive |
| Sorting.Sort | ikea.go:101-107 | a library sort, ordered by the comparator `Less` of one key, returns a permutation of the list |
| Sorting.SortOrdered | ikea.go:101-107 | sorting by a key orders by that key, and devices that tie on it stay ordered by the keys the list was already ordered by (stability) |
| Listing.ArrangedOrder | ikea.go:100-107 | after the three sorts (`Arranged`) the list is a permutation of the gateway's list, ordered lexicographically by (Alive, Type, DeviceId) |
| Listing.ShownOrdered | ikea.go:100-114 | the devices that get a row (`Shown`) are in (Alive, Type, DeviceId) order, with or without dead devices |
| Listing.ShownDevices | ikea.go:110-114 | with includeDead every device gets a row, as often as it occurs; without it exactly the devices with Alive != 0 do |
| Listing.AllAliveListing | ikea.go:110-114 | when every device is alive, the listing with and without dead devices is the same text |
| Listing.DeviceListingLines | ikea.go:109-158 | the listing text (`DeviceListing`) is the header line plus exactly one line per shown device, when no device name holds a line break |
| Listing.ShownStep | ikea.go:110-157 | one more device in the loop adds its row exactly when it is shown |
| Ikea.DeviceRows | ikea.go:109-158 | the row loop yields the fixed header followed by the rows of the shown devices, in list order |
| Ikea.ListDevicesWithDead | ikea.go:95-163 | one list fetch, without a retry. A failed fetch gives "" and the gateway's error. Otherwise the text is the header and the rows of the arranged, filtered devices |
| Ikea.ListDevices | ikea.go:91-93 | the same as ListDevicesWithDead with includeDead false |
| Sorting.Keep | ikea.go:176-178 | a filter returns only devices its selector accepts (`Selects`: the skip conditions of ikea.go:112, 176 and 240), and is never longer than the list; `KeepCount` states which devices are kept |
| Sorting.KeepCount | ikea.go:238-243 | every selected device is kept as often as it occurs; every other device is dropped |
| Sorting.KeepOrdered | ikea.go:238-243 | filtering keeps any order the list had |
| Sorting.KeptIndices | ikea.go:238-243 | the kept devices sit at strictly increasing positions of the list: the filtered list is a subsequence, in list order |
| Listing.BatteryDevicesSelected | ikea.go:171-181 | battery rows (`BatteryDevices`, `BatteryListing`) go to exactly the alive remotes, motion sensors and blinds, each as often as listed, in name order |
| Listing.BatteryStep | ikea.go:174-181 | one more device in the loop adds its battery row exactly when it is an alive battery device |
| Listing.BatteryRowRoundTrip | ikea.go:179-180 | a name of at most 28 runes not ending in a space, and the battery level, can both be read back from the row (`BatteryRow`) |
| Ikea.BatteryRowsOf | ikea.go:173-181 | the row loop yields the battery header followed by the rows of the selected devices, in list order |
| Ikea.ListDevicesBattery | ikea.go:165-186 | one list fetch, without a retry. A failed fetch gives "" and the error. Otherwise the text is the battery listing of the name-sorted list |
| Ikea.Retried | ikea.go:194-228 | the first success wins. If both attempts fail, the result is the zero value and the second error, wrapped as a device-state error |
| Ikea.Attempts | ikea.go:194-228 | a retried read makes one fetch when the first succeeds and two otherwise, never more |
| Ikea.FetchCalls | ikea.go:196-204 | a retried read logs one fetch, or after a failure three calls: a fetch, a reconnect and a second fetch. No call is a write |
| Ikea.GetDevice | ikea.go:194-210 | the result is the retried outcome of the device fetch (`DeviceFetch`). There is a reconnect exactly when the first fetch fails, and no write |
| Ikea.RewrappedFetchMessage | ikea.go:206 | a fetch error wrapped again by a caller reads "error getting device state: " twice, then the gateway's text (`Error.Message` renders each wrapper) |
| Ikea.GetDevices | ikea.go:212-228 | the same retry around the device-list fetch; on a double failure, an empty list |
| Ikea.SelectType | ikea.go:236-243 | the loop keeps exactly the devices of the requested type, in list order, each as often as listed |
| Ikea.GetDevicesOfType | ikea.go:230-246 | the filtered retried list, or an empty list and the error. One list fetch, or two with a reconnect between them when the first fails; nothing else is requested and nothing is written |
| Gateway.Transport.GetDevice | ikea.go:196 | a single-device fetch answers from the script, counts itself and is logged |
| Gateway.Transport.ListDevices | ikea.go:96 | a list fetch answers from the script, counts itself and is logged |
| Gateway.Transport.PutDevicePower | outlet.go:40 | a power write answers from the script and is logged as a write; every logged write is a write request |
| Gateway.Transport.PutDevicePositioning | blind.go:35 | a position write answers from the script and is logged as a write |
| Gateway.Transport.Reconnect | ikea.go:202 | a reconnect is counted and logged and changes nothing else |
| Outlet.IsOutletOn | outlet.go:5-18 | true exactly when the retried fetch succeeds, the device is an outlet and its power is 1 (`ReportsOn`). No write |
| Outlet.OutletWrite | outlet.go:38-40 | the only write ever sent is PutPower of the requested device and state |
| Outlet.OutletResult | outlet.go:27-51 | success exactly when the fetch succeeded, the device is an outlet, and either no write was needed or the write succeeded |
| Outlet.SetOutletPowerState | outlet.go:27-51 | the write log grows by the policy's write and nothing else. The returned error is the policy's outcome for the fetch and the write's answer |
| Outlet.OutletWritePolicy | outlet.go:28-40 | a write is sent if and only if the fetch succeeded, the type is 3 and the power differs. A fetch error or another type is refused, with the matching error |
| Outlet.OutletIdempotent | outlet.go:38-50 | once the outlet reports the requested power, the same request writes nothing and succeeds |
| Outlet.TurnOutletOn | outlet.go:20-22 | exactly SetOutletPowerState with power 1: the same write, request log, counters and error |
| Outlet.TurnOutletOff | outlet.go:23-25 | exactly SetOutletPowerState with power 0: the same write, request log, counters and error |
| Outlet.OutletErrorMessages | outlet.go:28-42 | the error texts: a double fetch failure reads "error getting device state: " twice then the gateway's text; another type reads "device is not an outlet: <nil>"; a failed write reads "error setting device: " then the gateway's text |
| Outlet.TurnOnWritesUnlessOn | outlet.go:17-38 | for a fetched outlet, TurnOutletOn writes exactly when IsOutletOn would answer false |
| Outlet.OnOffExclusive | outlet.go:20-38 | for an outlet reporting 0 or 1, exactly one of TurnOutletOn and TurnOutletOff writes |
| Blind.BlindReading | blind.go:8-20 | no error exactly for a fetched blind, whose position is returned truncated. Otherwise the result is 0 and an error |
| Blind.GetBlindPosition | blind.go:8-20 | the reading of the retried fetch, independent of the unused position argument. No write |
| Blind.BlindWrite | blind.go:33-35 | the only write ever sent is PutPosition of the requested device and position |
| Blind.BlindResult | blind.go:22-42 | success exactly when the fetch succeeded, the device is a blind, and either no write was needed or the write succeeded |
| Blind.SetBlindPosition | blind.go:22-42 | the write log grows by the policy's write and nothing else. The returned error is the policy's outcome for the fetch and the write's answer |
| Blind.BlindWritePolicy | blind.go:23-35 | a write is sent if and only if the fetch succeeded, the type is 7, and the position differs or the target is 0. A fetch error or another type is refused |
| Blind.ZeroTargetAlwaysWritten | blind.go:32-33 | a target of 0 is written even to a blind that already reports 0 |
| Blind.SettledTargetNotWritten | blind.go:33-41 | a non-zero target the blind already reports writes nothing and succeeds |
| Blind.ReadingOfWholePosition | blind.go:19 | a whole-percent position is read back unchanged |
| Blind.BlindErrorMessages | blind.go:8-37 | the error texts of both blind operations: a double fetch failure reads "error getting device state: " twice then the gateway's text; another type reads "device is not a blind: <nil>"; a failed write reads "error setting blind: " then the gateway's text |

## Left out

- The gateway client library (DTLS/CoAP) and all network I/O. Its four calls are the abstract `Transport` methods, answering from scripts.
- Reading the configuration and key files, JSON decoding, and `IntitGateway`'s own errors. A reconnect is a logged step that always goes ahead.
- `performTokenExchange`: a goroutine with a timer, configuration writing, a file rename and process exit. This is concurrency and I/O.
- The wall clock. The current time is the parameter `now`, in Unix nanoseconds, read once for the whole listing; the code calls `time.Since` again for each row.
- Printing and logging (`fmt.Println`, `fmt.Printf`, `log.Printf`), including the messages printed by `IsOutletOn` and by the retry.
- Terminal rendering width of the emoji glyphs.
- Listing.RoundDiv: the day and hour figures use exact rational rounding, halves away from zero, on integer nanoseconds. float64 rounding error in `since.Hours()` is not modelled. Go's "-0" for a negative zero is kept.
- Listing.Elapsed: `time.Since` saturates at the largest Duration and `int64` seconds-to-nanoseconds can overflow. Integers here are unbounded.
- Sorting.Sort: the first sort (by id) is Go's unstable `sort.Slice` and the battery sort by name is too. The model uses a stable sort, which picks one of the orders the library may produce among devices with equal id or name.
- Blind.BlindWrite: positions are exact reals. float32 rounding, NaN, and the exact-equality pitfalls of float32 comparison are not modelled.
- `OutletControl[0]` and `BlindControl[0]` are assumed present. Go panics on an empty control list; the model's device record always has one power and one position.
- Device names are Unicode code points. Invalid UTF-8 in a name, which Go would pad by bytes, is not modelled.
