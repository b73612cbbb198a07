/*
 * Constructor-time classification of a HardwareDevice: the device class
 * chosen from the driver's configuration keys, and one signal per analog
 * channel with its time buffer, its quantity and unit (from the naming
 * convention on the channel's internal name), and the canonical voltage,
 * current and measurement signals.
 *
 * Signals and time buffers live in arenas: a signal handle is its index in
 * `signals`, and a signal refers to its time buffer by index in
 * `timeBuffers`. Two signals share a time buffer exactly when they hold the
 * same index.
 */
module Classification {
  import opened Driver

  datatype DeviceType = PowerSupply | ElectronicLoad | Multimeter | DemoDev | Unknown

  /** The device classes in the order the constructor tests their keys. */
  const ClassOrder: seq<DeviceType> := [PowerSupply, ElectronicLoad, Multimeter, DemoDev]

  function ClassKey(t: DeviceType): ConfigKey
    requires t != Unknown
  {
    match t
    case PowerSupply => PowerSupplyKey
    case ElectronicLoad => ElectronicLoadKey
    case Multimeter => MultimeterKey
    case DemoDev => DemoDevKey
  }

  /** The device class: the first class in `ClassOrder` whose key the driver
      reports, or Unknown when it reports none of them. */
  function DeviceTypeOf(keys: set<ConfigKey>): (t: DeviceType)
    ensures t == Unknown <==> forall i :: 0 <= i < |ClassOrder| ==> ClassKey(ClassOrder[i]) !in keys
    ensures t != Unknown ==>
      exists i :: 0 <= i < |ClassOrder| && ClassOrder[i] == t && ClassKey(t) in keys &&
        forall j :: 0 <= j < i ==> ClassKey(ClassOrder[j]) !in keys
  {
    assert ClassOrder[0] == PowerSupply && ClassOrder[1] == ElectronicLoad;
    assert ClassOrder[2] == Multimeter && ClassOrder[3] == DemoDev;
    if PowerSupplyKey in keys then PowerSupply
    else if ElectronicLoadKey in keys then ElectronicLoad
    else if MultimeterKey in keys then Multimeter
    else if DemoDevKey in keys then DemoDev
    else Unknown
  }

  /** Whether the device class pins each channel's quantity and unit. */
  predicate FixedQuantityFor(t: DeviceType)
  {
    t == PowerSupply || t == ElectronicLoad
  }

  /** Whether the device class has one time buffer shared by all its signals. */
  predicate SharesTimeBase(t: DeviceType)
  {
    t == ElectronicLoad
  }

  /** The policy as a function of the reported keys alone. */
  lemma DeviceClassPolicy(keys: set<ConfigKey>)
    ensures FixedQuantityFor(DeviceTypeOf(keys)) <==> PowerSupplyKey in keys || ElectronicLoadKey in keys
    ensures SharesTimeBase(DeviceTypeOf(keys)) <==> PowerSupplyKey !in keys && ElectronicLoadKey in keys
    ensures DeviceTypeOf(keys) == Unknown ==> !FixedQuantityFor(DeviceTypeOf(keys)) && !SharesTimeBase(DeviceTypeOf(keys))
  {
  }

  datatype Quantity = Voltage | Current | Frequency | Time

  datatype Unit = Volt | Ampere | Hertz | Second

  function SiUnit(q: Quantity): Unit
  {
    match q
    case Voltage => Volt
    case Current => Ampere
    case Frequency => Hertz
    case Time => Second
  }

  /** The metadata of a sample buffer. `None` means the attribute was never
      set and keeps the buffer's default. */
  datatype AnalogData = AnalogData(fixedQuantity: Option<bool>, quantity: Option<Quantity>, unit: Option<Unit>)

  /** A fresh time buffer: fixed quantity Time in Second. */
  function InitTimeData(): AnalogData
  {
    AnalogData(Some(true), Some(Time), Some(Second))
  }

  /** `QString::startsWith`, case sensitive. */
  predicate StartsWith(s: string, prefix: string)
  {
    |prefix| <= |s| && s[..|prefix|] == prefix
  }

  /** The value buffer of a new signal, classified by its internal name:
      "V..." voltage, "I..." current, "F..." frequency, exactly "P1" only the
      fixed flag, "A..." voltage, anything else left untouched. */
  function ClassifyData(name: string, fixedMq: bool): (d: AnalogData)
    ensures d.quantity == Some(Voltage) <==> StartsWith(name, "V") || StartsWith(name, "A")
    ensures d.quantity == Some(Current) <==> StartsWith(name, "I")
    ensures d.quantity == Some(Frequency) <==> StartsWith(name, "F")
    ensures d.quantity != Some(Time)
    ensures d.unit == if d.quantity.Some? then Some(SiUnit(d.quantity.value)) else None
    ensures d.fixedQuantity == if d.quantity.Some? || name == "P1" then Some(fixedMq) else None
  {
    if StartsWith(name, "V") then AnalogData(Some(fixedMq), Some(Voltage), Some(Volt))
    else if StartsWith(name, "I") then AnalogData(Some(fixedMq), Some(Current), Some(Ampere))
    else if StartsWith(name, "F") then AnalogData(Some(fixedMq), Some(Frequency), Some(Hertz))
    else if name == "P1" then AnalogData(Some(fixedMq), None, None)
    else if StartsWith(name, "A") then AnalogData(Some(fixedMq), Some(Voltage), Some(Volt))
    else AnalogData(None, None, None)
  }

  /** The channel names of the naming convention. */
  lemma NamingConvention(fixedMq: bool)
    ensures ClassifyData("V1", fixedMq) == AnalogData(Some(fixedMq), Some(Voltage), Some(Volt))
    ensures ClassifyData("I1", fixedMq) == AnalogData(Some(fixedMq), Some(Current), Some(Ampere))
    ensures ClassifyData("F1", fixedMq) == AnalogData(Some(fixedMq), Some(Frequency), Some(Hertz))
    ensures ClassifyData("P1", fixedMq) == AnalogData(Some(fixedMq), None, None)
    ensures ClassifyData("A1", fixedMq) == AnalogData(Some(fixedMq), Some(Voltage), Some(Volt))
    ensures ClassifyData("X1", fixedMq) == AnalogData(None, None, None)
  {
    assert StartsWith("V1", "V");
    assert StartsWith("I1", "I");
    assert StartsWith("F1", "F");
    assert StartsWith("A1", "A");
  }

  /** One signal: the channel it comes from, its internal name, the fixed
      quantity flag it was created with, its time buffer and its value buffer. */
  datatype Signal = Signal(channel: ChannelId, internalName: string, fixedMq: bool, timeData: nat, data: AnalogData)

  /** The three canonical signals a device records. */
  datatype Role = VoltageRole | CurrentRole | MeasurementRole

  predicate HasRole(name: string, role: Role)
  {
    match role
    case VoltageRole => StartsWith(name, "V")
    case CurrentRole => StartsWith(name, "I")
    case MeasurementRole => name == "P1" || name == "A1"
  }

  /** Everything the channel loop of the constructor builds. */
  datatype SignalTable = SignalTable(
    signals: seq<Signal>,
    timeBuffers: seq<AnalogData>,
    nameMap: map<string, nat>,
    channelMap: map<ChannelId, nat>,
    voltage: Option<nat>,
    current: Option<nat>,
    measurement: Option<nat>)
  {
    function Canonical(role: Role): Option<nat>
    {
      match role
      case VoltageRole => voltage
      case CurrentRole => current
      case MeasurementRole => measurement
    }
  }

  /** The shared time buffer, which only an electronic load has. */
  function CommonTimeData(t: DeviceType): Option<nat>
  {
    if SharesTimeBase(t) then Some(0) else None
  }

  /** The state before the first channel: only an electronic load has
      already made its shared time buffer. */
  function EmptyTable(t: DeviceType): SignalTable
  {
    SignalTable([], if SharesTimeBase(t) then [InitTimeData()] else [], map[], map[], None, None, None)
  }

  /** Records signal `k` named `name` as a canonical signal when it is the
      first of its kind; the tests are one else-if chain. */
  function NoteCanonical(tb: SignalTable, name: string, k: nat): SignalTable
  {
    if StartsWith(name, "V") && tb.voltage.None? then tb.(voltage := Some(k))
    else if StartsWith(name, "I") && tb.current.None? then tb.(current := Some(k))
    else if name == "P1" && tb.measurement.None? then tb.(measurement := Some(k))
    else if name == "A1" && tb.measurement.None? then tb.(measurement := Some(k))
    else tb
  }

  /** One call of the signal initialisation for channel `ch`: a logic
      channel changes nothing; an analog channel adds a signal, with the
      shared time buffer or a fresh one of its own. */
  function AddSignal(tb: SignalTable, ch: Channel, common: Option<nat>, fixedMq: bool): SignalTable
  {
    match ch.kind
    case Logic => tb
    case Analog =>
      var k := |tb.signals|;
      var timeIx := if common.Some? then common.value else |tb.timeBuffers|;
      var times := if common.Some? then tb.timeBuffers else tb.timeBuffers + [InitTimeData()];
      var s := Signal(ch.id, ch.name, fixedMq, timeIx, ClassifyData(ch.name, fixedMq));
      var added := SignalTable(tb.signals + [s], times, Insert(tb.nameMap, ch.name, k),
                               Insert(tb.channelMap, ch.id, k), tb.voltage, tb.current, tb.measurement);
      NoteCanonical(added, ch.name, k)
  }

  /** The table after the channel loop has visited `chs` in order. */
  function ClassifyChannels(t: DeviceType, chs: seq<Channel>): SignalTable
    decreases |chs|
  {
    if chs == [] then EmptyTable(t)
    else AddSignal(ClassifyChannels(t, chs[..|chs| - 1]), chs[|chs| - 1], CommonTimeData(t), FixedQuantityFor(t))
  }

  /** The analog channels of `chs`, in order. */
  function AnalogChannels(chs: seq<Channel>): seq<Channel>
    decreases |chs|
  {
    if chs == [] then []
    else
      var prev := AnalogChannels(chs[..|chs| - 1]);
      if chs[|chs| - 1].kind == Analog then prev + [chs[|chs| - 1]] else prev
  }

  lemma {:induction false} AnalogChannelsMembers(chs: seq<Channel>)
    ensures forall c :: c in AnalogChannels(chs) <==> c in chs && c.kind == Analog
    decreases |chs|
  {
    if chs != [] {
      AnalogChannelsMembers(chs[..|chs| - 1]);
      assert chs == chs[..|chs| - 1] + [chs[|chs| - 1]];
    }
  }

  /** One signal per analog channel, in channel order, each classified by
      its name with the class's fixed quantity flag; logic channels give none. */
  lemma {:induction false} SignalsFollowAnalogChannels(t: DeviceType, chs: seq<Channel>)
    ensures |ClassifyChannels(t, chs).signals| == |AnalogChannels(chs)|
    ensures forall k :: 0 <= k < |AnalogChannels(chs)| ==>
      var s, c := ClassifyChannels(t, chs).signals[k], AnalogChannels(chs)[k];
      s.channel == c.id && s.internalName == c.name && s.fixedMq == FixedQuantityFor(t) &&
      s.data == ClassifyData(c.name, FixedQuantityFor(t))
    decreases |chs|
  {
    if chs != [] {
      var p := chs[..|chs| - 1];
      SignalsFollowAnalogChannels(t, p);
      var ch := chs[|chs| - 1];
      if ch.kind == Analog {
        var prev := ClassifyChannels(t, p);
        AddAnalogShape(prev, ch, CommonTimeData(t), FixedQuantityFor(t));
        AddAnalogData(prev, ch, CommonTimeData(t), FixedQuantityFor(t));
        var tb := ClassifyChannels(t, chs);
        assert AnalogChannels(chs) == AnalogChannels(p) + [ch];
        forall k | 0 <= k < |prev.signals| ensures tb.signals[k] == prev.signals[k] {
          assert tb.signals[..|prev.signals|][k] == tb.signals[k];
        }
      }
    }
  }

  /** An electronic load has exactly one time buffer and every signal uses
      it; any other class gives signal k its own buffer k. */
  lemma {:induction false} TimeBase(t: DeviceType, chs: seq<Channel>)
    ensures var tb := ClassifyChannels(t, chs);
      SharesTimeBase(t) ==>
        tb.timeBuffers == [InitTimeData()] &&
        forall k :: 0 <= k < |tb.signals| ==> tb.signals[k].timeData == 0
    ensures var tb := ClassifyChannels(t, chs);
      !SharesTimeBase(t) ==>
        |tb.timeBuffers| == |tb.signals| &&
        (forall k :: 0 <= k < |tb.signals| ==> tb.signals[k].timeData == k) &&
        forall b :: 0 <= b < |tb.timeBuffers| ==> tb.timeBuffers[b] == InitTimeData()
    decreases |chs|
  {
    if chs != [] {
      var p := chs[..|chs| - 1];
      TimeBase(t, p);
      var ch := chs[|chs| - 1];
      if ch.kind == Analog {
        var prev := ClassifyChannels(t, p);
        AddAnalogShape(prev, ch, CommonTimeData(t), FixedQuantityFor(t));
        AddAnalogData(prev, ch, CommonTimeData(t), FixedQuantityFor(t));
        var tb := ClassifyChannels(t, chs);
        forall k | 0 <= k < |prev.signals| ensures tb.signals[k] == prev.signals[k] {
          assert tb.signals[..|prev.signals|][k] == tb.signals[k];
        }
      }
    }
  }

  /** What adding an analog channel does to the signals and the two maps;
      the canonical roles are left to `NoteCanonicalRole`. */
  lemma AddAnalogShape(tb: SignalTable, ch: Channel, common: Option<nat>, fixedMq: bool)
    requires ch.kind == Analog
    ensures var r := AddSignal(tb, ch, common, fixedMq);
      |r.signals| == |tb.signals| + 1 && r.signals[..|tb.signals|] == tb.signals &&
      r.signals == tb.signals + [r.signals[|tb.signals|]] &&
      r.signals[|tb.signals|].channel == ch.id && r.signals[|tb.signals|].internalName == ch.name &&
      r.nameMap == Insert(tb.nameMap, ch.name, |tb.signals|) &&
      r.channelMap == Insert(tb.channelMap, ch.id, |tb.signals|)
  {
  }

  /** The signal an analog channel adds: its flag, its data and its time buffer. */
  lemma AddAnalogData(tb: SignalTable, ch: Channel, common: Option<nat>, fixedMq: bool)
    requires ch.kind == Analog
    ensures var r := AddSignal(tb, ch, common, fixedMq);
      |r.signals| == |tb.signals| + 1 &&
      r.signals[|tb.signals|].fixedMq == fixedMq &&
      r.signals[|tb.signals|].data == ClassifyData(ch.name, fixedMq) &&
      r.signals[|tb.signals|].timeData == (if common.Some? then common.value else |tb.timeBuffers|) &&
      r.timeBuffers == (if common.Some? then tb.timeBuffers else tb.timeBuffers + [InitTimeData()])
  {
  }

  /** The channel map holds exactly the channels some signal comes from,
      each mapped to the first such signal. */
  ghost predicate ChannelMapIsFirstSignal(tb: SignalTable)
  {
    (forall c :: c in tb.channelMap <==> exists k :: 0 <= k < |tb.signals| && tb.signals[k].channel == c) &&
    forall c :: c in tb.channelMap ==>
      tb.channelMap[c] < |tb.signals| && tb.signals[tb.channelMap[c]].channel == c &&
      forall j :: 0 <= j < tb.channelMap[c] ==> tb.signals[j].channel != c
  }

  /** The name map holds exactly the internal names of the signals, each
      mapped to the first signal of that name. */
  ghost predicate NameMapIsFirstSignal(tb: SignalTable)
  {
    (forall n :: n in tb.nameMap <==> exists k :: 0 <= k < |tb.signals| && tb.signals[k].internalName == n) &&
    forall n :: n in tb.nameMap ==>
      tb.nameMap[n] < |tb.signals| && tb.signals[tb.nameMap[n]].internalName == n &&
      forall j :: 0 <= j < tb.nameMap[n] ==> tb.signals[j].internalName != n
  }

  /** The channel map keeps its first entries when a signal is appended. */
  lemma AppendKeepsChannelMap(prev: SignalTable, tb: SignalTable, s: Signal)
    requires ChannelMapIsFirstSignal(prev)
    requires tb.signals == prev.signals + [s]
    requires tb.channelMap == Insert(prev.channelMap, s.channel, |prev.signals|)
    ensures ChannelMapIsFirstSignal(tb)
  {
    var n := |prev.signals|;
    assert tb.signals[n] == s;
    forall c
      ensures c in tb.channelMap <==> exists k :: 0 <= k < |tb.signals| && tb.signals[k].channel == c
    {
      if c in tb.channelMap && c != s.channel {
        var k :| 0 <= k < n && prev.signals[k].channel == c;
        assert tb.signals[k].channel == c;
      }
      if exists k :: 0 <= k < |tb.signals| && tb.signals[k].channel == c {
        var k :| 0 <= k < |tb.signals| && tb.signals[k].channel == c;
        if k < n {
          assert prev.signals[k].channel == c;
        }
      }
    }
    forall c | c in tb.channelMap
      ensures tb.channelMap[c] < |tb.signals| && tb.signals[tb.channelMap[c]].channel == c &&
              forall j :: 0 <= j < tb.channelMap[c] ==> tb.signals[j].channel != c
    {
      forall j | 0 <= j < n ensures tb.signals[j] == prev.signals[j] {}
    }
  }

  /** The name map keeps its first entries when a signal is appended. */
  lemma AppendKeepsNameMap(prev: SignalTable, tb: SignalTable, s: Signal)
    requires NameMapIsFirstSignal(prev)
    requires tb.signals == prev.signals + [s]
    requires tb.nameMap == Insert(prev.nameMap, s.internalName, |prev.signals|)
    ensures NameMapIsFirstSignal(tb)
  {
    var n := |prev.signals|;
    assert tb.signals[n] == s;
    forall m
      ensures m in tb.nameMap <==> exists k :: 0 <= k < |tb.signals| && tb.signals[k].internalName == m
    {
      if m in tb.nameMap && m != s.internalName {
        var k :| 0 <= k < n && prev.signals[k].internalName == m;
        assert tb.signals[k].internalName == m;
      }
      if exists k :: 0 <= k < |tb.signals| && tb.signals[k].internalName == m {
        var k :| 0 <= k < |tb.signals| && tb.signals[k].internalName == m;
        if k < n {
          assert prev.signals[k].internalName == m;
        }
      }
    }
    forall m | m in tb.nameMap
      ensures tb.nameMap[m] < |tb.signals| && tb.signals[tb.nameMap[m]].internalName == m &&
              forall j :: 0 <= j < tb.nameMap[m] ==> tb.signals[j].internalName != m
    {
      forall j | 0 <= j < n ensures tb.signals[j] == prev.signals[j] {}
    }
  }

  /** The channel map and the name map point each key at the first signal
      that has it (`std::map::insert` never overwrites). */
  lemma {:induction false} MapsPointAtFirstSignal(t: DeviceType, chs: seq<Channel>)
    ensures ChannelMapIsFirstSignal(ClassifyChannels(t, chs))
    ensures NameMapIsFirstSignal(ClassifyChannels(t, chs))
    decreases |chs|
  {
    if chs != [] {
      var prev := ClassifyChannels(t, chs[..|chs| - 1]);
      MapsPointAtFirstSignal(t, chs[..|chs| - 1]);
      var ch := chs[|chs| - 1];
      if ch.kind == Analog {
        AddAnalogShape(prev, ch, CommonTimeData(t), FixedQuantityFor(t));
        var tb := ClassifyChannels(t, chs);
        AppendKeepsChannelMap(prev, tb, tb.signals[|prev.signals|]);
        AppendKeepsNameMap(prev, tb, tb.signals[|prev.signals|]);
      }
    }
  }

  /** The else-if chain sets a role exactly when the name has that role and
      the role is still unset: the roles exclude one another. */
  lemma NoteCanonicalRole(tb: SignalTable, name: string, k: nat, role: Role)
    ensures NoteCanonical(tb, name, k).Canonical(role) ==
      if HasRole(name, role) && tb.Canonical(role).None? then Some(k) else tb.Canonical(role)
    ensures NoteCanonical(tb, name, k).signals == tb.signals
  {
    if StartsWith(name, "V") {
      assert name[0] == 'V';
      assert !StartsWith(name, "I") && name != "P1" && name != "A1";
    } else if StartsWith(name, "I") {
      assert name[0] == 'I';
      assert name != "P1" && name != "A1";
    }
  }

  /** The canonical signal of `role` is the first signal whose name has
      that role, and there is none exactly when no name has it. */
  ghost predicate CanonicalIsFirst(tb: SignalTable, role: Role)
  {
    (tb.Canonical(role).Some? ==>
      var k := tb.Canonical(role).value;
      k < |tb.signals| && HasRole(tb.signals[k].internalName, role) &&
      forall j :: 0 <= j < k ==> !HasRole(tb.signals[j].internalName, role)) &&
    (tb.Canonical(role).None? <==> forall j :: 0 <= j < |tb.signals| ==> !HasRole(tb.signals[j].internalName, role))
  }

  /** Adding an analog channel sets a role only when its name has the role
      and no earlier signal took it. */
  lemma AddAnalogCanonical(tb: SignalTable, ch: Channel, common: Option<nat>, fixedMq: bool, role: Role)
    requires ch.kind == Analog
    ensures AddSignal(tb, ch, common, fixedMq).Canonical(role) ==
      if HasRole(ch.name, role) && tb.Canonical(role).None? then Some(|tb.signals|) else tb.Canonical(role)
  {
    var k := |tb.signals|;
    var timeIx := if common.Some? then common.value else |tb.timeBuffers|;
    var times := if common.Some? then tb.timeBuffers else tb.timeBuffers + [InitTimeData()];
    var s := Signal(ch.id, ch.name, fixedMq, timeIx, ClassifyData(ch.name, fixedMq));
    var added := SignalTable(tb.signals + [s], times, Insert(tb.nameMap, ch.name, k),
                             Insert(tb.channelMap, ch.id, k), tb.voltage, tb.current, tb.measurement);
    NoteCanonicalRole(added, ch.name, k, role);
  }

  /** The first-match property survives appending one signal. */
  lemma AppendKeepsCanonical(prev: SignalTable, tb: SignalTable, s: Signal, role: Role)
    requires CanonicalIsFirst(prev, role)
    requires tb.signals == prev.signals + [s]
    requires tb.Canonical(role) ==
      if HasRole(s.internalName, role) && prev.Canonical(role).None? then Some(|prev.signals|) else prev.Canonical(role)
    ensures CanonicalIsFirst(tb, role)
  {
    forall j | 0 <= j < |prev.signals| ensures tb.signals[j] == prev.signals[j] {}
    assert tb.signals[|prev.signals|] == s;
  }

  /** Each canonical signal is the first signal whose name has its role;
      later matches never replace it. */
  lemma {:induction false} CanonicalFirst(t: DeviceType, chs: seq<Channel>, role: Role)
    ensures var tb := ClassifyChannels(t, chs);
      tb.Canonical(role).Some? ==>
        var k := tb.Canonical(role).value;
        k < |tb.signals| && HasRole(tb.signals[k].internalName, role) &&
        forall j :: 0 <= j < k ==> !HasRole(tb.signals[j].internalName, role)
    ensures var tb := ClassifyChannels(t, chs);
      tb.Canonical(role).None? <==> forall j :: 0 <= j < |tb.signals| ==> !HasRole(tb.signals[j].internalName, role)
    decreases |chs|
  {
    if chs != [] {
      var prev := ClassifyChannels(t, chs[..|chs| - 1]);
      CanonicalFirst(t, chs[..|chs| - 1], role);
      var ch := chs[|chs| - 1];
      if ch.kind == Analog {
        var tb := ClassifyChannels(t, chs);
        AddAnalogShape(prev, ch, CommonTimeData(t), FixedQuantityFor(t));
        AddAnalogCanonical(prev, ch, CommonTimeData(t), FixedQuantityFor(t), role);
        AppendKeepsCanonical(prev, tb, tb.signals[|prev.signals|], role);
      }
    }
  }

  /** "A..." channels are read as voltages but never become the canonical
      voltage signal. */
  lemma AnalogInputsAreNotCanonicalVoltage(t: DeviceType, chs: seq<Channel>, k: nat)
    requires k < |ClassifyChannels(t, chs).signals|
    requires StartsWith(ClassifyChannels(t, chs).signals[k].internalName, "A")
    ensures ClassifyChannels(t, chs).voltage != Some(k)
    ensures ClassifyChannels(t, chs).signals[k].data.quantity == Some(Voltage)
  {
    var tb := ClassifyChannels(t, chs);
    SignalsFollowAnalogChannels(t, chs);
    CanonicalFirst(t, chs, VoltageRole);
    assert tb.signals[k].internalName[0] == 'A';
  }

  /** A channel id that only logic channels carry gets no signal and no
      entry in the channel map. */
  lemma LogicChannelsHaveNoSignal(t: DeviceType, chs: seq<Channel>, c: ChannelId)
    requires forall i :: 0 <= i < |chs| && chs[i].id == c ==> chs[i].kind == Logic
    ensures c !in ClassifyChannels(t, chs).channelMap
    ensures forall k :: 0 <= k < |ClassifyChannels(t, chs).signals| ==> ClassifyChannels(t, chs).signals[k].channel != c
  {
    var tb := ClassifyChannels(t, chs);
    SignalsFollowAnalogChannels(t, chs);
    AnalogChannelsMembers(chs);
    MapsPointAtFirstSignal(t, chs);
    forall k | 0 <= k < |tb.signals|
      ensures tb.signals[k].channel != c
    {
      var a := AnalogChannels(chs)[k];
      assert a in AnalogChannels(chs);
      assert a in chs && a.kind == Analog;
    }
  }
}
