/**
 The `DeviceInfo` record that identifies one physical unit: where it listens and
 what it reports about itself during discovery.
 */
module DeviceIdentity {
  import opened Wrappers

  /** An immutable identity record; `port` is usually 7000, `mac` looks like "aabbcc112233". */
  datatype DeviceInfo = DeviceInfo(
    ip: string,
    port: int,
    mac: string,
    name: string,
    brand: Option<string>,
    model: Option<string>,
    version: Option<string>)

  /** The right-hand operand of `==`: another `DeviceInfo`, or an object of some other class. */
  datatype Comparand = Info(info: DeviceInfo) | NotDeviceInfo

  /** `mac.replace(":", "")`: the characters of `mac` in order, every colon dropped. */
  function StripColons(mac: string): (r: string)
    ensures ':' !in r
  {
    if mac == [] then []
    else (if mac[0] == ':' then [] else [mac[0]]) + StripColons(mac[1..])
  }

  /** Only colons are removed: every other character keeps its number of occurrences. */
  lemma {:induction false} StripColonsKeepsOthers(mac: string)
    ensures multiset(StripColons(mac)) == multiset(mac)[':' := 0]
  {
    if mac != [] {
      assert mac == [mac[0]] + mac[1..];
      StripColonsKeepsOthers(mac[1..]);
    }
  }

  /** Removing colons distributes over concatenation, so it keeps the order of the rest. */
  lemma {:induction false} StripColonsConcat(a: string, b: string)
    ensures StripColons(a + b) == StripColons(a) + StripColons(b)
  {
    if a == [] {
      assert a + b == b;
    } else {
      var head := if a[0] == ':' then [] else [a[0]];
      calc {
        StripColons(a + b);
        { assert (a + b)[0] == a[0] && (a + b)[1..] == a[1..] + b; }
        head + StripColons(a[1..] + b);
        { StripColonsConcat(a[1..], b); }
        head + (StripColons(a[1..]) + StripColons(b));
        (head + StripColons(a[1..])) + StripColons(b);
      }
    }
  }

  /** A mac written without separators is used unchanged. */
  lemma {:induction false} StripColonsNoColon(mac: string)
    requires ':' !in mac
    ensures StripColons(mac) == mac
  {
    if mac != [] {
      StripColonsNoColon(mac[1..]);
    }
  }

  /** `DeviceInfo.__init__`: a missing or empty name defaults to the colon-free mac. */
  function NewDeviceInfo(ip: string, port: int, mac: string, name: Option<string>,
                         brand: Option<string>, model: Option<string>,
                         version: Option<string>): (d: DeviceInfo)
    ensures d.ip == ip && d.port == port && d.mac == mac
    ensures d.brand == brand && d.model == model && d.version == version
    ensures Truthy(name) ==> d.name == name.value
    ensures !Truthy(name) ==> d.name == StripColons(mac) && ':' !in d.name
  {
    DeviceInfo(ip, port, mac, if Truthy(name) then name.value else StripColons(mac),
               brand, model, version)
  }

  /** `DeviceInfo.__eq__`: compares mac, name, brand, model and version; ip and port differ freely. */
  function Equal(a: DeviceInfo, other: Comparand): (r: bool)
    ensures other.NotDeviceInfo? ==> !r
    ensures other.Info? ==> (r <==> a.(ip := other.info.ip, port := other.info.port) == other.info)
  {
    match other
    case Info(b) =>
      && a.mac == b.mac
      && a.name == b.name
      && a.brand == b.brand
      && a.model == b.model
      && a.version == b.version
    case NotDeviceInfo => false
  }

  /** `DeviceInfo.__ne__`: holds exactly when the records differ somewhere outside ip and port. */
  function NotEqual(a: DeviceInfo, other: Comparand): (r: bool)
    ensures other.NotDeviceInfo? ==> r
    ensures other.Info? ==> (r <==> a.(ip := other.info.ip, port := other.info.port) != other.info)
  {
    !Equal(a, other)
  }

  /** `__ne__` is always the negation of `__eq__`. */
  lemma NotEqualIsNegation(a: DeviceInfo, other: Comparand)
    ensures NotEqual(a, other) == !Equal(a, other)
  {
  }

  /** Equality is an equivalence relation on `DeviceInfo` values. */
  lemma EqualIsEquivalence(a: DeviceInfo, b: DeviceInfo, c: DeviceInfo)
    ensures Equal(a, Info(a))
    ensures Equal(a, Info(b)) ==> Equal(b, Info(a))
    ensures Equal(a, Info(b)) && Equal(b, Info(c)) ==> Equal(a, Info(c))
  {
  }

  /** Moving a unit to another address or port keeps it equal to what it was. */
  lemma EqualIgnoresAddress(a: DeviceInfo, ip: string, port: int)
    ensures Equal(a, Info(a.(ip := ip, port := port)))
  {
  }

  /** Two records at the same address are equal exactly when they are identical. */
  lemma EqualAtSameAddress(a: DeviceInfo, b: DeviceInfo)
    requires a.ip == b.ip && a.port == b.port
    ensures Equal(a, Info(b)) <==> a == b
  {
  }

  /** A separated mac and no name: the name becomes the bare hexadecimal mac. */
  lemma DefaultNameExample()
    ensures NewDeviceInfo("127.0.0.1", 7000, "aa:bb:cc", None, None, None, None).name == "aabbcc"
    ensures NewDeviceInfo("127.0.0.1", 7000, "aa:bb:cc", Some(""), None, None, None).name == "aabbcc"
  {
  }
}
