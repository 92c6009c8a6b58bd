/**
 The `Device` class: one physical unit's session key, firmware identification,
 property cache and dirty list, and the bind, pull and push procedures that
 keep them in step with the unit.
 */
module GreeDevice {
  import opened Wrappers
  import opened Props
  import opened DeviceIdentity
  import opened FirmwareVersion
  import opened PropertyCache
  import opened Network

  /** The exceptions a device operation can end with. */
  datatype Error =
    | DeviceNotBoundError
    | DeviceTimeoutError
    /** a transport timeout that reaches the caller without being translated */
    | AsyncioTimeoutError

  /** How an operation ended: normally, or by raising. */
  datatype Outcome = Completed | Raised(error: Error)

  /** The diagnostic codes `request_version` asks for. */
  const DiagnosticCodes: seq<string> := ["hid", "time"]

  /** What one run of the bind procedure ends with: its outcome, the key held after it, its calls. */
  datatype Binding = Binding(outcome: Outcome, key: Option<string>, calls: seq<Call>)

  /**
   The bind procedure for a device with identity `info`, called with `key` while
   `current` is held, when the handshake would end with `reply`.
   */
  function BindStep(info: Option<DeviceInfo>, key: Option<string>, current: Option<string>,
                    reply: Reply<Option<string>>): (b: Binding)
    // without an identity nothing else happens
    ensures info.None? ==> b == Binding(Raised(DeviceNotBoundError), current, [])
    // a supplied key is taken as it is, replacing any earlier one, without a network exchange
    ensures info.Some? && Truthy(key) ==> b == Binding(Completed, key, [])
    // otherwise exactly one handshake is attempted
    ensures info.Some? && !Truthy(key) ==> b.calls == [BindDevice(info.value)]
    ensures b.outcome == Raised(DeviceTimeoutError) <==> info.Some? && !Truthy(key) && reply.TimedOut?
    ensures b.outcome == Raised(DeviceTimeoutError) ==> b.key == current
    ensures info.Some? && !Truthy(key) && reply.Replied? ==>
              b.key == reply.value
              && b.outcome == (if Truthy(reply.value) then Completed else Raised(DeviceNotBoundError))
    // success always leaves a usable key
    ensures b.outcome == Completed ==> Truthy(b.key)
  {
    if info.None? then Binding(Raised(DeviceNotBoundError), current, [])
    else if Truthy(key) then Binding(Completed, key, [])
    else
      match reply
      case TimedOut => Binding(Raised(DeviceTimeoutError), current, [BindDevice(info.value)])
      case Replied(k) =>
        Binding(if Truthy(k) then Completed else Raised(DeviceNotBoundError), k, [BindDevice(info.value)])
  }

  /** Binding with a key that is held already is a no-op that succeeds. */
  lemma RebindWithSameKey(info: DeviceInfo, key: string, reply: Reply<Option<string>>)
    requires key != ""
    ensures BindStep(Some(info), Some(key), Some(key), reply) == Binding(Completed, Some(key), [])
  {
  }

  /** The handshake scenario: the unit answers with key "s3cr3tKey", which becomes the session key. */
  lemma NegotiatedKeyExample(info: DeviceInfo)
    ensures BindStep(Some(info), None, None, Replied(Some("s3cr3tKey")))
            == Binding(Completed, Some("s3cr3tKey"), [BindDevice(info)])
  {
  }

  class Device {
    var deviceInfo: Option<DeviceInfo>
    var deviceKey: Option<string>
    var hid: Option<string>
    var version: Option<string>
    var properties: Cache
    var dirty: seq<string>

    /** The object invariant: the dirty list has no duplicates and is backed by a cache dict. */
    ghost predicate Valid()
      reads this
    {
      Consistent(State())
    }

    /** The cache and dirty list as one value. */
    function State(): CacheState
      reads this
    {
      CacheState(properties, dirty)
    }

    constructor (info: Option<DeviceInfo>)
      ensures deviceInfo == info && deviceKey == None
      ensures hid == None && version == None
      ensures properties == None && dirty == []
      ensures Valid()
    {
      deviceInfo := info;
      deviceKey := None;
      hid := None;
      version := None;
      properties := None;
      dirty := [];
    }

    /** `bind(key)`, where `reply` is what the handshake would return if one is made. */
    method Bind(key: Option<string>, reply: Reply<Option<string>>) returns (outcome: Outcome, calls: seq<Call>)
      modifies this
      ensures Binding(outcome, deviceKey, calls) == BindStep(deviceInfo, key, old(deviceKey), reply)
      ensures deviceInfo == old(deviceInfo) && hid == old(hid) && version == old(version)
      ensures State() == old(State())
    {
      calls := [];
      if deviceInfo.None? {
        return Raised(DeviceNotBoundError), calls;
      }
      if Truthy(key) {
        deviceKey := key;
      } else {
        calls := [BindDevice(deviceInfo.value)];
        if reply.TimedOut? {
          return Raised(DeviceTimeoutError), calls;
        }
        deviceKey := reply.value;
      }
      if !Truthy(deviceKey) {
        return Raised(DeviceNotBoundError), calls;
      }
      outcome := Completed;
    }

    /**
     `request_version()`, where `reply` is the "hid" entry of the answer. A timeout is not
     translated here and reaches the caller as a transport timeout.
     */
    method RequestVersion(reply: Reply<Option<string>>) returns (outcome: Outcome, calls: seq<Call>)
      modifies this
      ensures calls == [RequestState(DiagnosticCodes, deviceInfo, deviceKey)]
      ensures reply.TimedOut? ==>
                outcome == Raised(AsyncioTimeoutError) && hid == old(hid) && version == old(version)
      ensures reply.Replied? ==>
                outcome == Completed && hid == reply.value
                && version == UpdatedVersion(old(version), reply.value)
      ensures deviceInfo == old(deviceInfo) && deviceKey == old(deviceKey)
      ensures State() == old(State())
    {
      calls := [RequestState(DiagnosticCodes, deviceInfo, deviceKey)];
      if reply.TimedOut? {
        return Raised(AsyncioTimeoutError), calls;
      }
      hid := reply.value;
      if Truthy(hid) {
        version := SearchVersion(hid.value);
      }
      outcome := Completed;
    }

    /**
     `update_state()`: bind first if no usable key is held (the handshake would give
     `bindReply`), pull every property (`stateReply`), and, the first time only, the
     firmware identification (`versionReply`).
     */
    method UpdateState(bindReply: Reply<Option<string>>, stateReply: Reply<map<string, int>>,
                       versionReply: Reply<Option<string>>) returns (outcome: Outcome, calls: seq<Call>)
      requires Valid()
      modifies this
      ensures Valid()
      ensures deviceInfo == old(deviceInfo) && dirty == old(dirty)
      ensures var b := BindStep(old(deviceInfo), None, old(deviceKey), bindReply);
              var binds := !Truthy(old(deviceKey));
              var bound := !binds || b.outcome == Completed;
              var pre := if binds then b.calls else [];
              var pull := RequestState(AllCodes(), old(deviceInfo), deviceKey);
              && deviceKey == (if binds then b.key else old(deviceKey))
              // a failed bind ends the update before anything is pulled
              && (!bound ==>
                    outcome == b.outcome && calls == b.calls
                    && properties == old(properties) && hid == old(hid) && version == old(version))
              // a timed-out pull leaves the cache as it was
              && (bound && stateReply.TimedOut? ==>
                    outcome == Raised(DeviceTimeoutError) && calls == pre + [pull]
                    && properties == old(properties) && hid == old(hid) && version == old(version))
              // an answered pull replaces the whole cache
              && (bound && stateReply.Replied? ==> properties == Some(stateReply.value))
              // a known hardware id means no further request
              && (bound && stateReply.Replied? && Truthy(old(hid)) ==>
                    outcome == Completed && calls == pre + [pull]
                    && hid == old(hid) && version == old(version))
              // otherwise the firmware identification is requested once
              && (bound && stateReply.Replied? && !Truthy(old(hid)) ==>
                    calls == pre + [pull, RequestState(DiagnosticCodes, old(deviceInfo), deviceKey)]
                    && (versionReply.TimedOut? ==>
                          outcome == Raised(DeviceTimeoutError) && hid == old(hid) && version == old(version))
                    && (versionReply.Replied? ==>
                          outcome == Completed && hid == versionReply.value
                          && version == UpdatedVersion(old(version), versionReply.value)))
    {
      calls := [];
      if !Truthy(deviceKey) {
        outcome, calls := Bind(None, bindReply);
        if outcome.Raised? {
          return;
        }
      }
      calls := calls + [RequestState(AllCodes(), deviceInfo, deviceKey)];
      if stateReply.TimedOut? {
        return Raised(DeviceTimeoutError), calls;
      }
      properties := Some(stateReply.value);
      if !Truthy(hid) {
        var versionOutcome, versionCalls := RequestVersion(versionReply);
        calls := calls + versionCalls;
        if versionOutcome.Raised? {
          return Raised(DeviceTimeoutError), calls;
        }
      }
      outcome := Completed;
    }

    /**
     `push_state_update()`: nothing at all when no code is dirty; otherwise bind first if
     no usable key is held (`bindReply`), send the dirty codes with their cached values,
     and empty the dirty list before the send, whose answer is `sendReply`.
     */
    method PushStateUpdate(bindReply: Reply<Option<string>>, sendReply: Reply<()>)
      returns (outcome: Outcome, calls: seq<Call>)
      requires Valid()
      modifies this
      ensures Valid()
      ensures deviceInfo == old(deviceInfo) && hid == old(hid) && version == old(version)
      ensures properties == old(properties)
      ensures old(dirty) == [] ==> outcome == Completed && calls == [] && deviceKey == old(deviceKey) && dirty == []
      ensures old(dirty) != [] ==>
                var b := BindStep(old(deviceInfo), None, old(deviceKey), bindReply);
                var binds := !Truthy(old(deviceKey));
                var bound := !binds || b.outcome == Completed;
                var pre := if binds then b.calls else [];
                && deviceKey == (if binds then b.key else old(deviceKey))
                // a failed bind sends nothing and keeps every dirty code
                && (!bound ==> outcome == b.outcome && calls == b.calls && dirty == old(dirty))
                // otherwise the dirty codes are sent and forgotten, even if the send times out
                && (bound ==>
                      dirty == []
                      && calls == pre + [SendState(Pending(old(dirty), old(properties).value),
                                                   old(deviceInfo), deviceKey)]
                      && outcome == (if sendReply.TimedOut? then Raised(DeviceTimeoutError) else Completed))
    {
      calls := [];
      if dirty == [] {
        return Completed, calls;
      }
      if !Truthy(deviceKey) {
        outcome, calls := Bind(None, bindReply);
        if outcome.Raised? {
          return;
        }
      }
      var cache := properties.value;
      var props: map<string, Option<int>> := map[];
      var i := 0;
      while i < |dirty|
        invariant 0 <= i <= |dirty|
        invariant props == Pending(dirty[..i], cache)
      {
        var name := dirty[i];
        assert dirty[..i + 1][..i] == dirty[..i];
        props := props[name := Get(cache, name)];
        i := i + 1;
      }
      assert dirty[..i] == dirty;
      dirty := [];
      calls := calls + [SendState(props, deviceInfo, deviceKey)];
      outcome := if sendReply.TimedOut? then Raised(DeviceTimeoutError) else Completed;
    }

    /** `get_property(name)`: the cached value under the property's wire code. */
    function GetProperty(p: Prop): (r: Option<int>)
      reads this
      ensures r == Lookup(properties, Code(p))
    {
      Lookup(properties, Code(p))
    }

    /** `set_property(name, value)`. */
    method SetProperty(p: Prop, value: int)
      requires Valid()
      modifies this
      ensures Valid()
      ensures State() == Write(old(State()), Code(p), value)
      ensures deviceInfo == old(deviceInfo) && deviceKey == old(deviceKey)
      ensures hid == old(hid) && version == old(version)
    {
      if properties.None? || properties.value == map[] {
        properties := Some(map[]);
      }
      var code := Code(p);
      if Get(properties.value, code) == Some(value) {
        return;
      }
      properties := Some(properties.value[code := value]);
      if code !in dirty {
        dirty := dirty + [code];
      }
    }

    /** The `power` getter: on exactly when a non-zero value is cached under "Pow". */
    function Power(): (on: bool)
      reads this
      ensures on <==> properties.Some? && "Pow" in properties.value && properties.value["Pow"] != 0
    {
      var v := GetProperty(Prop.Power);
      v.Some? && v.value != 0
    }

    /** The `mode` getter reads "Mod". */
    function Mode(): (r: Option<int>)
      reads this
      ensures r == Lookup(properties, "Mod")
    {
      GetProperty(Prop.Mode)
    }

    /** The `fan_speed` getter reads "WdSpd". */
    function FanSpeed(): (r: Option<int>)
      reads this
      ensures r == Lookup(properties, "WdSpd")
    {
      GetProperty(Prop.FanSpeed)
    }

    /** The `horizontal_swing` getter reads "SwingLfRig". */
    function HorizontalSwing(): (r: Option<int>)
      reads this
      ensures r == Lookup(properties, "SwingLfRig")
    {
      GetProperty(Prop.SwingHoriz)
    }

    /** The `vertical_swing` getter reads "SwUpDn". */
    function VerticalSwing(): (r: Option<int>)
      reads this
      ensures r == Lookup(properties, "SwUpDn")
    {
      GetProperty(Prop.SwingVert)
    }

    /** The `power` setter writes "Pow". */
    method SetPower(value: int)
      requires Valid()
      modifies this
      ensures Valid() && State() == Write(old(State()), "Pow", value)
      ensures deviceInfo == old(deviceInfo) && deviceKey == old(deviceKey)
      ensures hid == old(hid) && version == old(version)
    {
      SetProperty(Prop.Power, value);
    }

    /** The `mode` setter writes "Mod". */
    method SetMode(value: int)
      requires Valid()
      modifies this
      ensures Valid() && State() == Write(old(State()), "Mod", value)
      ensures deviceInfo == old(deviceInfo) && deviceKey == old(deviceKey)
      ensures hid == old(hid) && version == old(version)
    {
      SetProperty(Prop.Mode, value);
    }

    /** The `fan_speed` setter writes "WdSpd". */
    method SetFanSpeed(value: int)
      requires Valid()
      modifies this
      ensures Valid() && State() == Write(old(State()), "WdSpd", value)
      ensures deviceInfo == old(deviceInfo) && deviceKey == old(deviceKey)
      ensures hid == old(hid) && version == old(version)
    {
      SetProperty(Prop.FanSpeed, value);
    }

    /** The `horizontal_swing` setter writes "SwingLfRig". */
    method SetHorizontalSwing(value: int)
      requires Valid()
      modifies this
      ensures Valid() && State() == Write(old(State()), "SwingLfRig", value)
      ensures deviceInfo == old(deviceInfo) && deviceKey == old(deviceKey)
      ensures hid == old(hid) && version == old(version)
    {
      SetProperty(Prop.SwingHoriz, value);
    }

    /** The `vertical_swing` setter writes "SwUpDn". */
    method SetVerticalSwing(value: int)
      requires Valid()
      modifies this
      ensures Valid() && State() == Write(old(State()), "SwUpDn", value)
      ensures deviceInfo == old(deviceInfo) && deviceKey == old(deviceKey)
      ensures hid == old(hid) && version == old(version)
    {
      SetProperty(Prop.SwingVert, value);
    }
  }

  /** A unit found by discovery, in the shape of the test fixtures. */
  function FixtureInfo(): DeviceInfo
  {
    DeviceInfo("127.0.0.1", 7000, "aabbcc112233", "fake unit",
               Some("gree"), Some("gree"), Some("1.1.13"))
  }

  /** A device bound with key "s3cr3tKey" whose power was set to 1 twice. */
  method PoweredDevice() returns (d: Device)
    ensures fresh(d) && d.Valid()
    ensures d.deviceInfo == Some(FixtureInfo()) && d.deviceKey == Some("s3cr3tKey")
    ensures d.properties == Some(map["Pow" := 1]) && d.dirty == ["Pow"]
  {
    d := new Device(Some(FixtureInfo()));
    var _, _ := d.Bind(Some("s3cr3tKey"), TimedOut);
    d.SetPower(1);
    d.SetPower(1);
    PowerTwiceExample();
  }

  /**
   A bound device, power set to 1 twice, then pushed: "Pow" is sent once with value 1,
   the send times out, and the dirty list stays empty.
   */
  method PushTimeoutScenario() returns (outcome: Outcome, calls: seq<Call>, dirtyAfter: seq<string>)
    ensures outcome == Raised(DeviceTimeoutError)
    ensures dirtyAfter == []
    ensures calls == [SendState(map["Pow" := Some(1)], Some(FixtureInfo()), Some("s3cr3tKey"))]
  {
    var d := PoweredDevice();
    assert Pending(["Pow"], map["Pow" := 1]) == map["Pow" := Some(1)] by {
      assert ["Pow"][..0] == [];
    }
    outcome, calls := d.PushStateUpdate(TimedOut, TimedOut);
    dirtyAfter := d.dirty;
  }

  /** Nothing dirty: a push issues no call at all, not even a handshake. */
  method EmptyPushScenario() returns (outcome: Outcome, calls: seq<Call>)
    ensures outcome == Completed && calls == []
  {
    var d := new Device(Some(FixtureInfo()));
    outcome, calls := d.PushStateUpdate(Replied(Some("s3cr3tKey")), Replied(()));
  }

  /** A supplied key binds at once, replacing the negotiated one, with no network exchange. */
  method BindWithKeyScenario(key: string) returns (outcome: Outcome, calls: seq<Call>, held: Option<string>)
    requires key != ""
    ensures outcome == Completed && calls == [] && held == Some(key)
  {
    var d := new Device(Some(FixtureInfo()));
    var _, _ := d.Bind(None, Replied(Some("s3cr3tKey")));
    outcome, calls := d.Bind(Some(key), TimedOut);
    held := d.deviceKey;
  }

  /** Without an identity, binding fails before any exchange. */
  method BindWithoutInfoScenario() returns (outcome: Outcome, calls: seq<Call>)
    ensures outcome == Raised(DeviceNotBoundError) && calls == []
  {
    var d := new Device(None);
    outcome, calls := d.Bind(Some("s3cr3tKey"), Replied(Some("s3cr3tKey")));
  }

  /**
   The first update of an unbound device: it binds, pulls the properties, then reads
   the hardware id and extracts version "3.31" from it.
   */
  method FirstUpdateScenario() returns (outcome: Outcome, calls: seq<Call>, on: bool, version: Option<string>)
    ensures outcome == Completed && on && version == Some("3.31")
    ensures |calls| == 3 && calls[0] == BindDevice(FixtureInfo())
    ensures calls[1] == RequestState(AllCodes(), Some(FixtureInfo()), Some("s3cr3tKey"))
    ensures calls[2] == RequestState(DiagnosticCodes, Some(FixtureInfo()), Some("s3cr3tKey"))
  {
    var info := FixtureInfo();
    var hid := "362001000762+U-CS532AE(LT)V3.31.bin";
    HardwareIdExample();
    assert UpdatedVersion(None, Some(hid)) == Some("3.31");
    var d := new Device(Some(info));
    outcome, calls := d.UpdateState(Replied(Some("s3cr3tKey")), Replied(map["Pow" := 1, "Mod" := 0]),
                                    Replied(Some(hid)));
    assert d.properties == Some(map["Pow" := 1, "Mod" := 0]);
    on := d.Power();
    version := d.version;
  }

  /**
   A local write, then a pull whose answer lacks that code: the pull replaces the whole
   cache but keeps the dirty list, so the next push sends the code with no value.
   */
  method ReplacedCacheScenario() returns (calls: seq<Call>, dirtyBeforePush: seq<string>)
    ensures dirtyBeforePush == ["Pow"]
    ensures calls == [SendState(map["Pow" := None], Some(FixtureInfo()), Some("k"))]
  {
    var d := new Device(Some(FixtureInfo()));
    var _, _ := d.Bind(Some("k"), TimedOut);
    d.SetPower(1);
    var _, _ := d.UpdateState(TimedOut, Replied(map["Mod" := 0]), Replied(None));
    dirtyBeforePush := d.dirty;
    PendingAfterReplacedCache("Pow", map["Mod" := 0]);
    var _, c := d.PushStateUpdate(TimedOut, Replied(()));
    calls := c;
  }
}
