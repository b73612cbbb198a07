/*
 * The driver-side data a HardwareDevice session is built from, abstracted
 * to plain values: configuration keys, channels, channel groups, the
 * identity strings of a device, the outcome of a foreign driver call and
 * the entries of a metadata packet.
 */
module Driver {

  datatype Option<+T> = None | Some(value: T)

  /** The configuration keys the session looks at: the four device-class
      keys, the metadata keys it decodes, and any other key. */
  datatype ConfigKey =
    | PowerSupplyKey | ElectronicLoadKey | MultimeterKey | DemoDevKey
    | Enabled | VoltageTarget | CurrentLimit
    | OverTemperatureProtection | OverTemperatureProtectionActive
    | OverVoltageProtectionEnabled | OverVoltageProtectionActive | OverVoltageProtectionThreshold
    | OverCurrentProtectionEnabled | OverCurrentProtectionActive | OverCurrentProtectionThreshold
    | UnderVoltageCondition | UnderVoltageConditionActive | UnderVoltageConditionThreshold
    | OtherKey(code: int)

  /** A channel is identified by the driver object it stands for. */
  type ChannelId = nat

  datatype ChannelKind = Logic | Analog

  datatype Channel = Channel(id: ChannelId, kind: ChannelKind, name: string)

  datatype ChannelGroup = ChannelGroup(name: string, channels: seq<ChannelId>)

  /** One driver device handle: `handle` is its object identity. */
  datatype DriverDevice = DriverDevice(
    handle: nat,
    vendor: string,
    model: string,
    version: string,
    serialNumber: string,
    connectionId: string,
    configKeys: set<ConfigKey>,
    channels: seq<Channel>,
    channelGroups: seq<ChannelGroup>)

  /** The result of a foreign driver call: it returns, or raises an error. */
  datatype Outcome = Ok | Error(what: string)

  /** The payload of a metadata entry, kept opaque. */
  datatype MetaValue = BoolValue(b: bool) | DoubleValue(d: real)

  datatype MetaEntry = MetaEntry(key: ConfigKey, value: MetaValue)

  /** `std::map::insert`: an existing key keeps its value. */
  function Insert<K, V>(m: map<K, V>, k: K, v: V): (r: map<K, V>)
    ensures r.Keys == m.Keys + {k}
    ensures k in m ==> r[k] == m[k]
    ensures k !in m ==> r[k] == v
    ensures forall k' :: k' in m ==> r[k'] == m[k']
  {
    if k in m then m else m[k := v]
  }

  /** Lexicographic order on strings, the key order of `std::map<string, ...>`. */
  predicate StrLess(a: string, b: string)
    decreases |a|
  {
    |b| > 0 && (|a| == 0 || a[0] < b[0] || (a[0] == b[0] && StrLess(a[1..], b[1..])))
  }

  lemma {:induction false} StrLessIrreflexive(a: string)
    ensures !StrLess(a, a)
  {
    if |a| > 0 {
      StrLessIrreflexive(a[1..]);
    }
  }

  /** The channel groups as a `std::map` keyed by name delivers them. */
  predicate NamesAscending(groups: seq<ChannelGroup>)
  {
    forall i, j :: 0 <= i < j < |groups| ==> StrLess(groups[i].name, groups[j].name)
  }

  lemma AscendingNamesDistinct(groups: seq<ChannelGroup>)
    requires NamesAscending(groups)
    ensures forall i, j :: 0 <= i < |groups| && 0 <= j < |groups| && i != j ==> groups[i].name != groups[j].name
  {
    forall i, j | 0 <= i < |groups| && 0 <= j < |groups| && i != j
      ensures groups[i].name != groups[j].name
    {
      if i < j {
        StrLessIrreflexive(groups[i].name);
      } else {
        StrLessIrreflexive(groups[j].name);
      }
    }
  }
}
