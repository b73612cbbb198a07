/*
 * The HardwareDevice object: the state its constructor builds from the
 * driver's device, its name queries, its open/close lifecycle with the
 * acquisition thread's body, its accessors and its metadata handling.
 * Signals are indices into `allSignals`; time buffers are indices into
 * `timeBuffers`, so a shared time buffer is one index used by every signal.
 */
module Devices {
  import opened Driver
  import opened Classification
  import opened ChannelGroups
  import Naming
  import opened Metadata
  import opened Lifecycle

  class HardwareDevice {
    const srDevice: DriverDevice

    const deviceType: DeviceType
    var allSignals: seq<Signal>
    var timeBuffers: seq<AnalogData>
    var signalNameMap: map<string, nat>
    var channelSignalMap: map<ChannelId, nat>
    var voltageSignal: Option<nat>
    var currentSignal: Option<nat>
    var measurementSignal: Option<nat>

    var configurables: seq<Configurable>
    var channelGroupNameMap: map<string, ChannelGroup>
    var channelGroupNameSignalsMap: map<string, seq<nat>>

    var deviceOpen: bool
    var acquisitionState: AcquisitionState
    var thread: AcquisitionThread
    var outOfMemory: bool
    /** The session's events so far: foreign calls, handler calls and the
        acquisition thread's write of Stopped, in order. */
    var trace: seq<SessionEvent>

    /** The change notifications emitted on the configurables, in order. */
    var emitted: seq<Notification>

    function Signals(): SignalTable
      reads this`allSignals, this`timeBuffers, this`signalNameMap, this`channelSignalMap
      reads this`voltageSignal, this`currentSignal, this`measurementSignal
    {
      SignalTable(allSignals, timeBuffers, signalNameMap, channelSignalMap, voltageSignal, currentSignal, measurementSignal)
    }

    function Groups(): GroupTable
      reads this`configurables, this`channelGroupNameMap, this`channelGroupNameSignalsMap
    {
      GroupTable(configurables, channelGroupNameMap, channelGroupNameSignalsMap)
    }

    function SessionState(): Session
      reads this`deviceOpen, this`acquisitionState, this`thread, this`outOfMemory, this`trace
    {
      Session(deviceOpen, acquisitionState, thread, outOfMemory, trace)
    }

    /** What the constructor builds from the driver's device. */
    ghost predicate Built()
      reads this`allSignals, this`timeBuffers, this`signalNameMap, this`channelSignalMap
      reads this`voltageSignal, this`currentSignal, this`measurementSignal
      reads this`configurables, this`channelGroupNameMap, this`channelGroupNameSignalsMap
    {
      NamesAscending(srDevice.channelGroups) &&
      deviceType == DeviceTypeOf(srDevice.configKeys) &&
      Signals() == ClassifyChannels(deviceType, srDevice.channels) &&
      Groups() == BuildGroups(srDevice.channelGroups, channelSignalMap)
    }

    /** What construction establishes and every operation keeps. */
    ghost predicate Valid()
      reads this
    {
      Built() && Consistent(SessionState())
    }

    constructor (srDevice: DriverDevice)
      requires NamesAscending(srDevice.channelGroups)
      ensures this.srDevice == srDevice
      ensures Valid()
      ensures SessionState() == Session(false, Stopped, NoThread, false, []) && emitted == []
    {
      this.srDevice := srDevice;
      var t, common, fixedMq, times := ClassifyDevice(srDevice.configKeys);
      deviceType := t;
      allSignals, timeBuffers := [], times;
      signalNameMap, channelSignalMap := map[], map[];
      voltageSignal, currentSignal, measurementSignal := None, None, None;
      configurables, channelGroupNameMap, channelGroupNameSignalsMap := [], map[], map[];
      deviceOpen, acquisitionState, thread, outOfMemory, trace := false, Stopped, NoThread, false, [];
      emitted := [];
      new;
      InitSignals(common, fixedMq);
      InitChannelGroups();
    }

    /** The constructor's if-chain over the driver's configuration keys:
        the device class, the shared time buffer an electronic load creates
        up front, and whether quantities are fixed. */
    static method ClassifyDevice(keys: set<ConfigKey>)
      returns (t: DeviceType, common: Option<nat>, fixedMq: bool, times: seq<AnalogData>)
      ensures t == DeviceTypeOf(keys)
      ensures common == CommonTimeData(t) && fixedMq == FixedQuantityFor(t)
      ensures times == EmptyTable(t).timeBuffers
    {
      common, fixedMq, times := None, false, [];
      if PowerSupplyKey in keys {
        t, common, fixedMq := PowerSupply, None, true;
      } else if ElectronicLoadKey in keys {
        times := [InitTimeData()];
        t, common, fixedMq := ElectronicLoad, Some(0), true;
      } else if MultimeterKey in keys {
        t, common, fixedMq := Multimeter, None, false;
      } else if DemoDevKey in keys {
        t, common, fixedMq := DemoDev, None, false;
      } else {
        t := Unknown;
      }
    }

    /** The constructor's loop over the driver's channels, in order. */
    method InitSignals(common: Option<nat>, fixedMq: bool)
      requires common == CommonTimeData(deviceType) && fixedMq == FixedQuantityFor(deviceType)
      requires Signals() == EmptyTable(deviceType)
      modifies this`allSignals, this`timeBuffers, this`signalNameMap, this`channelSignalMap
      modifies this`voltageSignal, this`currentSignal, this`measurementSignal
      ensures Signals() == ClassifyChannels(deviceType, srDevice.channels)
      ensures SessionState() == old(SessionState()) && emitted == old(emitted)
    {
      var channels := srDevice.channels;
      var i := 0;
      while i < |channels|
        invariant 0 <= i <= |channels|
        invariant Signals() == ClassifyChannels(deviceType, channels[..i])
      {
        assert channels[..i + 1][..i] == channels[..i];
        var _ := InitSignal(channels[i], common, fixedMq);
        i := i + 1;
      }
      assert channels[..i] == channels;
    }

    /** The constructor's loop over the driver's channel groups, in name
        order, or the single device-wide configurable when there are none. */
    method InitChannelGroups()
      requires Groups() == GroupTable([], map[], map[])
      modifies this`configurables, this`channelGroupNameMap, this`channelGroupNameSignalsMap
      ensures Groups() == BuildGroups(srDevice.channelGroups, channelSignalMap)
      ensures SessionState() == old(SessionState()) && emitted == old(emitted)
    {
      var groups := srDevice.channelGroups;
      if |groups| > 0 {
        var j := 0;
        while j < |groups|
          invariant 0 <= j <= |groups|
          invariant Groups() == GroupsFold(groups[..j], channelSignalMap)
        {
          assert groups[..j + 1][..j] == groups[..j];
          var g := groups[j];
          configurables := configurables + [GroupConfigurable(g.name)];
          channelGroupNameMap := Insert(channelGroupNameMap, g.name, g);
          var cgSignals := CollectGroupSignals(channelSignalMap, g.channels);
          channelGroupNameSignalsMap := Insert(channelGroupNameSignalsMap, g.name, cgSignals);
          j := j + 1;
        }
        assert groups[..j] == groups;
      } else {
        configurables := configurables + [DeviceConfigurable];
      }
    }

    /** The signal initialisation for one channel; answers the new signal's
        index, or None for a logic channel. */
    method InitSignal(ch: Channel, common: Option<nat>, fixedMq: bool) returns (signal: Option<nat>)
      modifies this`allSignals, this`timeBuffers, this`signalNameMap, this`channelSignalMap
      modifies this`voltageSignal, this`currentSignal, this`measurementSignal
      ensures Signals() == AddSignal(old(Signals()), ch, common, fixedMq)
      ensures signal == if ch.kind == Analog then Some(old(|allSignals|)) else None
    {
      signal := None;
      match ch.kind
      case Logic =>
      case Analog =>
        var k := |allSignals|;
        var timeData: nat;
        if common.Some? {
          timeData := common.value;
        } else {
          timeBuffers := timeBuffers + [InitTimeData()];
          timeData := |timeBuffers| - 1;
        }
        var name := ch.name;
        var data := ClassifyData(name, fixedMq);
        allSignals := allSignals + [Signal(ch.id, name, fixedMq, timeData, data)];
        signalNameMap := Insert(signalNameMap, name, k);
        channelSignalMap := Insert(channelSignalMap, ch.id, k);
        NoteCanonicalSignal(name, k);
        signal := Some(k);
    }

    /** Records signal `k` as the voltage, current or measurement signal
        when it is the first of its kind. */
    method NoteCanonicalSignal(name: string, k: nat)
      modifies this`voltageSignal, this`currentSignal, this`measurementSignal
      ensures Signals() == NoteCanonical(old(Signals()), name, k)
    {
      if StartsWith(name, "V") && voltageSignal.None? {
        voltageSignal := Some(k);
      } else if StartsWith(name, "I") && currentSignal.None? {
        currentSignal := Some(k);
      } else if name == "P1" && measurementSignal.None? {
        measurementSignal := Some(k);
      } else if name == "A1" && measurementSignal.None? {
        measurementSignal := Some(k);
      }
    }

    /** The full name: vendor, model, version and serial number, then the
        connection id in parentheses. */
    method FullName() returns (name: string)
      ensures name == Naming.FullNameOf(srDevice)
    {
      var d := srDevice;
      ghost var fs := [d.vendor, d.model, d.version, d.serialNumber];
      assert fs[1..] == [d.model, d.version, d.serialNumber];
      assert fs[2..] == [d.version, d.serialNumber];
      assert fs[3..] == [d.serialNumber];
      var sep := "";
      name := "";
      if |d.vendor| > 0 {
        name := name + d.vendor + sep;
        sep := " ";
      }
      assert Naming.AppendFields(name, sep, fs[1..]) == Naming.AppendFields("", "", fs);
      if |d.model| > 0 {
        name := name + d.model + sep;
        sep := " ";
      }
      assert Naming.AppendFields(name, sep, fs[2..]) == Naming.AppendFields("", "", fs);
      if |d.version| > 0 {
        name := name + d.version + sep;
        sep := " ";
      }
      assert Naming.AppendFields(name, sep, fs[3..]) == Naming.AppendFields("", "", fs);
      if |d.serialNumber| > 0 {
        name := name + d.serialNumber + sep;
        sep := " ";
      }
      assert fs[3..][1..] == [];
      assert Naming.AppendFields(name, sep, fs[3..][1..]) == Naming.AppendFields("", "", fs);
      assert (name, sep) == Naming.AppendFields("", "", fs);
      if |d.connectionId| > 0 {
        name := name + sep + "(" + d.connectionId + ")";
      }
    }

    /** The short name: vendor and model, then the connection id in parentheses. */
    method ShortName() returns (name: string)
      ensures name == Naming.ShortNameOf(srDevice)
    {
      var d := srDevice;
      ghost var fs := [d.vendor, d.model];
      assert fs[1..] == [d.model];
      var sep := "";
      name := "";
      if |d.vendor| > 0 {
        name := name + d.vendor + sep;
        sep := " ";
      }
      assert Naming.AppendFields(name, sep, fs[1..]) == Naming.AppendFields("", "", fs);
      if |d.model| > 0 {
        name := name + d.model + sep;
        sep := " ";
      }
      assert fs[1..][1..] == [];
      assert Naming.AppendFields(name, sep, fs[1..][1..]) == Naming.AppendFields("", "", fs);
      assert (name, sep) == Naming.AppendFields("", "", fs);
      if |d.connectionId| > 0 {
        name := name + sep + "(" + d.connectionId + ")";
      }
    }

    /** The name shown to the user among the device manager's `devices`. */
    method DisplayName(devices: seq<DriverDevice>) returns (name: string)
      ensures name == Naming.DisplayName(srDevice, devices)
    {
      var multipleDev := false;
      var i := 0;
      while i < |devices| && !multipleDev
        invariant 0 <= i <= |devices|
        invariant multipleDev <==> exists j :: 0 <= j < i && Naming.IsNamesake(srDevice, devices[j])
      {
        multipleDev := Naming.IsNamesake(srDevice, devices[i]);
        i := i + 1;
      }
      assert multipleDev <==> Naming.HasNamesake(srDevice, devices);
      var parts := [srDevice.vendor, srDevice.model];
      if multipleDev {
        parts := parts + [srDevice.version, srDevice.serialNumber];
        if |srDevice.serialNumber| == 0 && |srDevice.connectionId| > 0 {
          parts := parts + ["(" + srDevice.connectionId + ")"];
        }
      }
      assert parts == Naming.DisplayParts(srDevice, devices);
      name := Naming.Join(parts, " ");
    }

    /** `close` on the session state alone. */
    method CloseSession()
      requires Consistent(SessionState())
      modifies this`deviceOpen, this`acquisitionState, this`thread, this`trace
      ensures Consistent(SessionState())
      ensures SessionState() == CloseStep(old(SessionState()))
    {
      if !deviceOpen {
        return;
      }
      trace := trace + [RemoveDatafeedCallbacks];
      if acquisitionState != Stopped {
        trace := trace + [SessionStop];
        acquisitionState := Stopped;
      }
      if Joinable(thread) {
        trace := trace + [JoinAcquisition];
        thread := NoThread;
      }
      trace := trace + [SessionRemoveDevices];
      trace := trace + [DeviceClose];
      deviceOpen := false;
    }

    /** `open` on the session state alone. */
    method OpenSession(driverOpen: Outcome) returns (thrown: Option<string>)
      requires Consistent(SessionState())
      modifies this`deviceOpen, this`acquisitionState, this`thread, this`trace
      ensures Consistent(SessionState())
      ensures OpenResult(SessionState(), thrown) == OpenStep(old(SessionState()), driverOpen)
    {
      if deviceOpen {
        CloseSession();
      }
      trace := trace + [DeviceOpen];
      if driverOpen.Error? {
        return Some(driverOpen.what);
      }
      trace := trace + [SessionAddDevice];
      trace := trace + [AddDatafeedCallback];
      deviceOpen := true;
      trace := trace + [SpawnAcquisition];
      thread := Spawned;
      acquisitionState := Running;
      thrown := None;
    }

    /** The acquisition thread's body on the session state alone. */
    method RunAcquisition(start: Outcome, run: Outcome, outOfMemoryDuringRun: bool) returns (reports: seq<Report>)
      requires Consistent(SessionState()) && thread == Spawned
      modifies this`outOfMemory, this`acquisitionState, this`thread, this`trace
      ensures Consistent(SessionState())
      ensures AcquisitionResult(SessionState(), reports) ==
        AcquisitionStep(old(SessionState()), start, run, outOfMemoryDuringRun)
    {
      outOfMemory := false;
      trace := trace + [SessionStart];
      if start.Error? {
        reports := [DriverErrorReport(start.what)];
        trace := trace + [HandlerCalled(DriverErrorReport(start.what))];
        thread := Finished;
        return;
      }
      acquisitionState := Running;
      trace := trace + [SessionRun];
      outOfMemory := outOfMemoryDuringRun;
      if run.Error? {
        reports := [DriverErrorReport(run.what)];
        trace := trace + [HandlerCalled(DriverErrorReport(run.what))];
        acquisitionState := Stopped;
        trace := trace + [StoppedByThread];
        thread := Finished;
        return;
      }
      acquisitionState := Stopped;
      trace := trace + [StoppedByThread];
      reports := [];
      if outOfMemory {
        reports := [OutOfMemoryReport];
        trace := trace + [HandlerCalled(OutOfMemoryReport)];
      }
      thread := Finished;
    }

    /** Closes the device: stops the acquisition, joins its thread and
        closes the driver device; the device stays valid. */
    method Close()
      requires Valid()
      modifies this`deviceOpen, this`acquisitionState, this`thread, this`trace
      ensures Valid()
      ensures SessionState() == CloseStep(old(SessionState()))
    {
      CloseSession();
    }

    /** Opens the device with the driver's answer `driverOpen`; answers the
        error thrown to the caller, if any. The device stays valid. */
    method Open(driverOpen: Outcome) returns (thrown: Option<string>)
      requires Valid()
      modifies this`deviceOpen, this`acquisitionState, this`thread, this`trace
      ensures Valid()
      ensures OpenResult(SessionState(), thrown) == OpenStep(old(SessionState()), driverOpen)
    {
      thrown := OpenSession(driverOpen);
    }

    /** The acquisition thread's body, given the outcomes of starting and
        running the driver session and whether the data feed ran out of
        memory meanwhile; answers the error handler's calls in order. The
        device stays valid. */
    method AcquisitionThreadProc(start: Outcome, run: Outcome, outOfMemoryDuringRun: bool) returns (reports: seq<Report>)
      requires Valid() && thread == Spawned
      modifies this`outOfMemory, this`acquisitionState, this`thread, this`trace
      ensures Valid()
      ensures AcquisitionResult(SessionState(), reports) ==
        AcquisitionStep(old(SessionState()), start, run, outOfMemoryDuringRun)
    {
      reports := RunAcquisition(start, run, outOfMemoryDuringRun);
    }

    /** The canonical signal of `role` is the first signal whose name has
        that role, and there is none only when no signal has it. */
    ghost predicate IsCanonical(role: Role, r: Option<nat>)
      reads this
    {
      (r.Some? ==>
        r.value < |allSignals| && HasRole(allSignals[r.value].internalName, role) &&
        forall j :: 0 <= j < r.value ==> !HasRole(allSignals[j].internalName, role)) &&
      (r.None? <==> forall j :: 0 <= j < |allSignals| ==> !HasRole(allSignals[j].internalName, role))
    }

    function VoltageSignal(): (r: Option<nat>)
      requires Valid()
      reads this
      ensures IsCanonical(VoltageRole, r)
    {
      CanonicalFirst(deviceType, srDevice.channels, VoltageRole);
      voltageSignal
    }

    function CurrentSignal(): (r: Option<nat>)
      requires Valid()
      reads this
      ensures IsCanonical(CurrentRole, r)
    {
      CanonicalFirst(deviceType, srDevice.channels, CurrentRole);
      currentSignal
    }

    function MeasurementSignal(): (r: Option<nat>)
      requires Valid()
      reads this
      ensures IsCanonical(MeasurementRole, r)
    {
      CanonicalFirst(deviceType, srDevice.channels, MeasurementRole);
      measurementSignal
    }

    /** One signal per analog channel of the device, in channel order. */
    function AllSignals(): (r: seq<Signal>)
      requires Valid()
      reads this
      ensures |r| == |AnalogChannels(srDevice.channels)|
      ensures forall k :: 0 <= k < |r| ==>
        r[k].channel == AnalogChannels(srDevice.channels)[k].id &&
        r[k].internalName == AnalogChannels(srDevice.channels)[k].name
    {
      SignalsFollowAnalogChannels(deviceType, srDevice.channels);
      allSignals
    }

    /** One entry per channel group, holding the signals of its channels. */
    function ChannelGroupNameSignalsMap(): (r: map<string, seq<nat>>)
      requires Valid()
      reads this
      ensures forall n :: n in r <==> exists i :: 0 <= i < |srDevice.channelGroups| && srDevice.channelGroups[i].name == n
      ensures forall i :: 0 <= i < |srDevice.channelGroups| ==>
        r[srDevice.channelGroups[i].name] == GroupSignals(channelSignalMap, srDevice.channelGroups[i].channels)
    {
      GroupsBecomeConfigurables(srDevice.channelGroups, channelSignalMap);
      channelGroupNameSignalsMap
    }

    /** One configurable per channel group in group order, or one for the
        whole device when it has no groups. */
    function Configurables(): (r: seq<Configurable>)
      requires Valid()
      reads this
      ensures |srDevice.channelGroups| == 0 ==> r == [DeviceConfigurable]
      ensures |srDevice.channelGroups| > 0 ==>
        |r| == |srDevice.channelGroups| &&
        forall i :: 0 <= i < |r| ==> r[i] == GroupConfigurable(srDevice.channelGroups[i].name)
    {
      GroupsBecomeConfigurables(srDevice.channelGroups, channelSignalMap);
      configurables
    }

    /** A constructed device always has a first configurable. */
    lemma HasFirstConfigurable()
      requires Valid()
      ensures MetaTarget < |configurables|
    {
      GroupsBecomeConfigurables(srDevice.channelGroups, channelSignalMap);
    }

    /** Handles one metadata packet: every recognised entry becomes a change
        notification on the first configurable, which always exists. */
    method FeedInMeta(entries: seq<MetaEntry>)
      requires Valid()
      modifies this`emitted
      ensures Valid()
      ensures MetaTarget < |configurables|
      ensures emitted == old(emitted) + MetaNotifications(entries)
    {
      HasFirstConfigurable();
      var i := 0;
      while i < |entries|
        invariant 0 <= i <= |entries|
        invariant emitted == old(emitted) + MetaNotifications(entries[..i])
      {
        assert entries[..i + 1][..i] == entries[..i];
        var e := entries[i];
        var kind := ChangeFor(e.key);
        if kind.Some? {
          ghost var prefix := MetaNotifications(entries[..i]);
          assert old(emitted) + prefix + NotificationFor(e) == old(emitted) + (prefix + NotificationFor(e));
          emitted := emitted + [Notification(MetaTarget, kind.value, e.value)];
        }
        i := i + 1;
      }
      assert entries[..i] == entries;
    }
  }
}
