# greefan device session and property cache, in Dafny

This project models the device layer of greefan, a client for Gree-protocol
air-conditioning and fan units on a local network (`greefan/device.py`). It covers:

- the `Props` table that maps the five properties (power, mode, fan speed,
  horizontal and vertical swing) to their wire codes "Pow", "Mod", "WdSpd",
  "SwingLfRig" and "SwUpDn";
- the `DeviceInfo` identity record: its default name and its equality, which
  ignores ip and port;
- the `Device` session: the bind procedure, firmware version extraction from
  the hardware id, the pull of all properties (`update_state`), the push of
  locally changed properties (`push_state_update`), and the dirty-tracking
  property cache behind the typed accessors.

Layout, one module per file:

- `Wrappers.dfy`: `Option` and Python truthiness of an optional string.
- `Props.dfy`: the property enumeration and its wire codes.
- `DeviceIdentity.dfy`: `DeviceInfo`, its constructor default and `__eq__` / `__ne__`.
- `FirmwareVersion.dfy`: the search for `(?<=V)([\d.]+)\.bin$`. The predicate
  `MatchesAt` says what a match of the pattern is. The function `SearchVersion`
  computes the result. The lemmas prove that a match is unique, so the
  leftmost, greedy choice of the regex engine does not matter. They also prove
  that `SearchVersion` finds a match exactly when one exists.
- `PropertyCache.dfy`: the cache and the dirty list as values. `Lookup` is
  `get_property`, `Write` is `set_property`, and `Pending` is the map that the
  push loop builds. The lemmas state the no-op, idempotence, no-duplicate and
  order properties.
- `Network.dfy`: the interface to the transport layer. Each awaited call is a
  `Reply` (a timeout or a returned value). `Call` records one request with its
  arguments.
- `Device.dfy`: the `Device` class. Its fields are the ones the source assigns
  (`device_key`, `hid`, `version`, `_properties`, `_dirty`). Each method takes
  the replies of the network calls it may make. It returns how it ended (an
  `Outcome`) and the calls it issued, in order. The cache methods are specified
  by the `PropertyCache` functions. `Valid()` is the object invariant: the
  dirty list has no duplicates, and a non-empty dirty list always has a cache
  dict behind it. The scenario methods at the end are clients whose contracts
  follow from the class's specifications alone: a push that times out, an
  empty push, binding with a supplied key or with no identity, a first update,
  and a pull that drops a dirty code.

Behaviours of the code that a reader might not expect, and that the model
keeps:

- A dirty code need not be in the cache: `update_state` replaces the whole
  cache but keeps the dirty list (greefan/device.py:183-185). A later push then sends that code with
  `None` (`PendingAfterReplacedCache`, `ReplacedCacheScenario`).
- The dirty list is emptied after the push map is built and before the send.
  It is not restored when the send times out (greefan/device.py:212-217).
- A timeout during negotiation leaves the key held before the call. A key that
  was already held stays held, so the key is not reset to unset
  (greefan/device.py:152-156).
- An empty or missing negotiated key is still stored before
  `DeviceNotBoundError` is raised, so it replaces an earlier key
  (greefan/device.py:152-159).
- A hardware id with no match sets `version` to `None`, even if a version was
  known before (greefan/device.py:169-171).
- `request_version` called on its own does not translate a timeout. The
  transport's timeout reaches the caller as `AsyncioTimeoutError`. Inside
  `update_state` the same timeout becomes `DeviceTimeoutError`
  (greefan/device.py:165, 190-194).

## Model

| member | source | states |
|---|---|---|
| Props.AllCodes | greefan/device.py:180 | `update_state` requests exactly "Pow", "Mod", "WdSpd", "SwingLfRig", "SwUpDn", in that order |
| Props.CodeInjective | greefan/device.py:11-17 | two properties share a wire code only if they are the same property |
| Props.AllCodesExact | greefan/device.py:180 | the pull asks for every property, and for no code twice |
| DeviceIdentity.StripColons | greefan/device.py:69 | `mac.replace(":", "")` contains no colon |
| DeviceIdentity.StripColonsKeepsOthers | greefan/device.py:69 | only colons are removed: every other character keeps its count |
| DeviceIdentity.StripColonsConcat | greefan/device.py:69 | colon removal distributes over concatenation, so the remaining characters keep their order |
| DeviceIdentity.StripColonsNoColon | greefan/device.py:69 | a mac without colons is used unchanged |
| DeviceIdentity.NewDeviceInfo | greefan/device.py:65-72 | a truthy name is kept; a missing or empty name becomes the colon-free mac; the other fields are stored as given |
| DeviceIdentity.DefaultNameExample | greefan/device.py:69 | with no name or an empty name, "aa:bb:cc" gives the name "aabbcc" |
| DeviceIdentity.Equal | greefan/device.py:77-87 | equality holds exactly when the records agree after copying ip and port over; a non-`DeviceInfo` operand is never equal |
| DeviceIdentity.NotEqual | greefan/device.py:89-91 | inequality holds exactly when the records differ outside ip and port, and always for a non-`DeviceInfo` operand |
| DeviceIdentity.NotEqualIsNegation | greefan/device.py:89-91 | `__ne__` is the negation of `__eq__` |
| DeviceIdentity.EqualIsEquivalence | greefan/device.py:77-87 | equality is reflexive, symmetric and transitive |
| DeviceIdentity.EqualIgnoresAddress | greefan/device.py:77-87 | changing ip and port keeps a record equal to itself |
| DeviceIdentity.EqualAtSameAddress | greefan/device.py:77-87 | at the same ip and port, equality is identity of the records |
| FirmwareVersion.BinAtUnique | greefan/device.py:170 | at most one position holds a ".bin" followed by the end anchor |
| FirmwareVersion.SuffixStart | greefan/device.py:170 | a reported position holds ".bin" followed by the end of the string or a final newline |
| FirmwareVersion.SuffixStartComplete | greefan/device.py:170 | if an anchored ".bin" exists, `SuffixStart` reports its position |
| FirmwareVersion.RunStart | greefan/device.py:170 | returns the start of the longest run of digits and dots ending at a position |
| FirmwareVersion.RunStartIs | greefan/device.py:170 | any start that satisfies the run conditions is the one `RunStart` returns |
| FirmwareVersion.SearchVersion | greefan/device.py:168-171 | a found version is non-empty, made only of digits and dots, and is the group of a match: preceded by 'V' and followed by a final ".bin" |
| FirmwareVersion.MatchIsUnique | greefan/device.py:170 | the pattern matches a string in at most one place |
| FirmwareVersion.SearchFindsEveryMatch | greefan/device.py:170-171 | whenever the pattern matches, the search returns that match's group |
| FirmwareVersion.SearchNoneIffNoMatch | greefan/device.py:170-171 | the search reports `None` exactly when the pattern does not occur |
| FirmwareVersion.UpdatedVersion | greefan/device.py:169-171 | an absent or empty hid keeps the version; a present hid sets it to `None` exactly when there is no match, and otherwise to the matched group |
| FirmwareVersion.HardwareIdExample | greefan/device.py:168 | "362001000762+U-CS532AE(LT)V3.31.bin" gives "3.31" |
| FirmwareVersion.TrailingNewlineExample | greefan/device.py:170 | `$` also matches before a final newline, so "...V3.31.bin\n" gives "3.31" |
| FirmwareVersion.MissingPrefixExample | greefan/device.py:170 | without a 'V' right before the number there is no version |
| FirmwareVersion.MissingAnchorExample | greefan/device.py:170 | a ".bin" that does not end the string gives no version |
| PropertyCache.Lookup | greefan/device.py:219-223 | `None` for a missing or empty cache; otherwise the cached value when the code is present and `None` when it is absent |
| PropertyCache.OccurrencesWithoutDuplicates | greefan/device.py:234-235 | in a list without duplicates, a code occurs once if it occurs at all |
| PropertyCache.MarkDirty | greefan/device.py:234-235 | the code is listed afterwards; nothing else is added; the old list is a prefix of the new one, so the order is kept; no duplicate is introduced |
| PropertyCache.Write | greefan/device.py:225-235 | after a write the code reads back the value and other codes read as before; writing the cached value changes nothing; otherwise the code is marked dirty; the object invariant is preserved |
| PropertyCache.WriteIsIdempotent | greefan/device.py:230-231 | writing the same value twice equals writing it once |
| PropertyCache.EffectiveWriteListsOnce | greefan/device.py:227-235 | a write that changes the value leaves its code in the dirty list exactly once |
| PropertyCache.RepeatedWriteListsAtMostOnce | greefan/device.py:230-235 | repeating a write never lists its code more than once |
| PropertyCache.PowerTwiceExample | greefan/device.py:225-235 | power set to 1 twice on a fresh device: "Pow" is cached as 1 and is dirty exactly once |
| PropertyCache.PendingContents | greefan/device.py:206-210 | the pushed map has exactly the dirty codes as keys, each mapped to `_properties.get(code)` |
| PropertyCache.PendingSize | greefan/device.py:206-210 | with no duplicate dirty codes, the pushed map has one entry per dirty code |
| PropertyCache.PendingAfterReplacedCache | greefan/device.py:208 | a dirty code missing from the cache is pushed with `None` |
| GreeDevice.BindStep | greefan/device.py:143-159 | with no identity: `DeviceNotBoundError` and no call; a truthy key is taken as-is with no call, replacing the old key; otherwise one handshake is made; a timeout gives `DeviceTimeoutError` and keeps the old key; a reply is stored, and an empty one gives `DeviceNotBoundError`; success always leaves a truthy key |
| GreeDevice.RebindWithSameKey | greefan/device.py:149-150 | binding again with the key already held succeeds and makes no call |
| GreeDevice.NegotiatedKeyExample | greefan/device.py:152-159 | a handshake answered with "s3cr3tKey" binds with that key after exactly one call |
| GreeDevice.Device.constructor | greefan/device.py:112-122 | a new device has no key, no hid, no version, no cache and an empty dirty list |
| GreeDevice.Device.Bind | greefan/device.py:124-161 | the outcome, the key held afterwards and the calls are those of `BindStep`; nothing else changes |
| GreeDevice.Device.RequestVersion | greefan/device.py:163-171 | one request for "hid" and "time"; a timeout escapes untranslated and changes nothing; an answer stores the hid and updates the version as `UpdatedVersion` says |
| GreeDevice.Device.UpdateState | greefan/device.py:173-194 | binds only when no truthy key is held, and a failed bind ends the call; the pull requests every code; a timed-out pull leaves the cache; an answer replaces the cache wholesale; the version is requested only when no truthy hid is known; every timeout becomes `DeviceTimeoutError`; the dirty list never changes |
| GreeDevice.Device.PushStateUpdate | greefan/device.py:196-217 | with nothing dirty: no call and no change; a failed bind keeps the dirty list and sends nothing; otherwise one send of `Pending(dirty, cache)`, the dirty list empty afterwards whether or not the send times out, and the cache unchanged |
| GreeDevice.Device.GetProperty | greefan/device.py:219-223 | reads the cache under the property's wire code, as `Lookup` specifies |
| GreeDevice.Device.SetProperty | greefan/device.py:225-235 | the new cache and dirty list are `Write` of the old ones; the invariant is kept; key, hid and version are untouched |
| GreeDevice.Device.Power | greefan/device.py:237-239 | power is on exactly when a non-zero value is cached under "Pow" |
| GreeDevice.Device.Mode | greefan/device.py:245-247 | the mode is the cached "Mod" value |
| GreeDevice.Device.FanSpeed | greefan/device.py:253-255 | the fan speed is the cached "WdSpd" value |
| GreeDevice.Device.HorizontalSwing | greefan/device.py:261-263 | the horizontal swing is the cached "SwingLfRig" value |
| GreeDevice.Device.VerticalSwing | greefan/device.py:269-271 | the vertical swing is the cached "SwUpDn" value |
| GreeDevice.Device.SetPower | greefan/device.py:241-243 | writes "Pow" through `set_property` |
| GreeDevice.Device.SetMode | greefan/device.py:249-251 | writes "Mod" through `set_property` |
| GreeDevice.Device.SetFanSpeed | greefan/device.py:257-259 | writes "WdSpd" through `set_property` |
| GreeDevice.Device.SetHorizontalSwing | greefan/device.py:265-267 | writes "SwingLfRig" through `set_property` |
| GreeDevice.Device.SetVerticalSwing | greefan/device.py:273-275 | writes "SwUpDn" through `set_property` |
| GreeDevice.PoweredDevice | greefan/device.py:225-243 | a device bound with a supplied key whose power was set to 1 twice holds "Pow" as 1 and lists it dirty once |
| GreeDevice.PushTimeoutScenario | greefan/device.py:206-217 | power set twice, then a push whose send times out: "Pow" is sent once with value 1, `DeviceTimeoutError` is raised and the dirty list stays empty |
| GreeDevice.EmptyPushScenario | greefan/device.py:198-199 | a push with nothing dirty makes no call, not even a handshake |
| GreeDevice.BindWithKeyScenario | greefan/device.py:149-150 | a supplied key replaces a negotiated one with no call |
| GreeDevice.BindWithoutInfoScenario | greefan/device.py:143-144 | without an identity, binding raises `DeviceNotBoundError` with no call |
| GreeDevice.FirstUpdateScenario | greefan/device.py:173-194 | an unbound device's first update binds, pulls every code, reads the hid and gets version "3.31" |
| GreeDevice.ReplacedCacheScenario | greefan/device.py:183-185 | a pull that lacks a dirty code keeps it dirty, and the next push sends it with `None` |

## Left out

- The transport layer `greefan.network` is not part of this model. This covers UDP
  sockets, discovery broadcast, payload encryption, envelopes and
  sequence-number correlation. Its three calls (`bind_device`,
  `request_state`, `send_state`) are replies passed in as parameters. The calls
  the device issues, with their arguments, are returned as a list.
- Errors the transport could raise other than a timeout (for example a decode
  failure) are not modelled, because the device code does not handle them.
- Logging and `DeviceInfo.__str__` are left out. The string is only used in log messages.
- The awaits are sequential steps. The model does not capture concurrency, for
  example a setter that runs while a push is in flight.
- The `Mode`, `FanSpeed`, `HorizontalSwing` and `VerticalSwing` enumerations are
  left out. The accessors never check values against them.
- The setters take an `int`. The `int(...)` coercion of other Python values
  (bools, floats, strings) is not modelled.
- Cached values are integers. Python's dict could hold any JSON value the device returns.
- `request_version` is modelled through the "hid" entry of the answer only. The
  source ignores the "time" entry.
- `_dirty` and `_properties` are values. The model does not capture the
  identity of the Python list and dict objects, or aliasing of them.
- The pushed map is a Dafny `map`. The insertion order of the Python dict, which
  follows the dirty list, is not recorded.
- FirmwareVersion.SearchVersion: reads `\d` as an ASCII digit. Python's `\d` on
  `str` also matches other Unicode decimal digits.
- `tests/common.py` is test scaffolding (fixtures and a UDP responder) and is not part of this model.
