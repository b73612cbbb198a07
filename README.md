# HardwareDevice session model

This project models the session object `HardwareDevice` of the power-supply,
load and multimeter control program in Dafny. It covers six parts of the object:

- **Construction.** The device class is picked from the driver's configuration keys. Each analog
  channel gets a signal, with its time buffer and the quantity and unit named by its
  internal name. The canonical voltage, current and measurement signals are recorded. The driver's
  channel groups become `Configurable`s and name → signal-list entries.
- **Naming.** `full_name`, `short_name` and `display_name`.
- **Lifecycle.** `open` and `close`, with the driver calls they make.
- **Acquisition thread.** The body of the acquisition thread, with the error reports it makes.
  The reports share one ordered trace with the driver calls and the thread's write of Stopped.
- **Accessors.** The read-only accessors.
- **Metadata.** `feed_in_meta`, which turns a metadata packet into change notifications on the
  first configurable.

The model has seven modules, one per file:

- `Driver` (driver.dfy): the driver-side values. These are configuration keys, channels, channel
  groups, a device's identity strings, the outcome of a foreign call and metadata entries. It
  also holds `Insert`, which is `std::map::insert`: an existing key keeps its value.
- `Classification` (classification.dfy): the choice of device class, the name → quantity
  rule, and the channel loop as a fold (`ClassifyChannels`), with its lemmas.
- `ChannelGroups` (groups.dfy): the group loop as a fold (`BuildGroups`), with its lemmas.
- `Naming` (naming.dfy): the three names as functions, with their lemmas.
- `Metadata` (metadata.dfy): the key → notification dispatch and the packet fold.
- `Lifecycle` (lifecycle.dfy): `open`, `close` and the thread body as steps over the session
  state, with their lemmas.
- `Devices` (hardwaredevice.dfy): the class `HardwareDevice`. Its fields are the object's fields.
  Its constructor and methods update them step by step, as the C++ does, and each method is
  proved against the step function or fold that specifies it.

Signals and time buffers live in arenas:

- A signal is its index in `allSignals`.
- A signal names its time buffer by its index in `timeBuffers`. Two signals share a time
  buffer exactly when they hold the same index.
- An electronic load creates buffer 0 before the channel loop, and every signal uses it.

The channel groups reach the constructor as a `std::map` keyed by name. The model therefore takes
them as a sequence in strictly ascending name order (`NamesAscending`). That is the order the
map delivers them in.

The model follows the code in these places, where the code does something unexpected:

- When no class key is present the class is Unknown, and construction goes on with unfixed
  quantities and private time buffers. `assert("Unknown device")` tests a string literal, so
  it never fails.
- `full_name` and `short_name` append the separator *after* each non-empty field, starting
  with the empty separator. So the first two non-empty fields abut, and every later field is
  followed by one space. The connection id is then appended after the current separator. That
  gives two spaces before "(id)" when at least two fields were present, and one space when
  exactly one was.
- A failing `start()` in the acquisition thread reports the error and returns without
  setting the acquisition state to Stopped. Only a `run()` error or a normal end sets Stopped.
- A `run()` error is passed to the error handler *before* the state is set to Stopped. So the
  handler still sees Running. After a normal end, Stopped is written first and only then is
  the out-of-memory error reported.
- The metadata switch has no case for the under-voltage-condition threshold, because that case
  is commented out. Such entries are ignored like any unknown key.

## Model

| member | source | states |
|---|---|---|
| Driver.Insert | src/devices/hardwaredevice.cpp:121-132 | `std::map::insert` adds the key, keeps the value of a key already present, and keeps every other entry |
| Classification.DeviceTypeOf | src/devices/hardwaredevice.cpp:81-105 | the class is Unknown iff none of the four class keys is reported; otherwise it is the first class in the order power supply, electronic load, multimeter, demo whose key is reported |
| Classification.DeviceClassPolicy | src/devices/hardwaredevice.cpp:82-105 | quantities are fixed iff the power-supply or electronic-load key is reported; there is a shared time base iff the electronic-load key is reported and the power-supply key is not; Unknown has neither |
| Classification.ClassifyData | src/devices/hardwaredevice.cpp:355-380 | a name gets Voltage iff it starts with "V" or "A", Current iff it starts with "I", Frequency iff it starts with "F", never Time; the unit is the SI unit of the quantity; the fixed flag is set iff a quantity is set or the name is exactly "P1" |
| Classification.NamingConvention | src/devices/hardwaredevice.cpp:357-380 | the exact buffers built for "V1", "I1", "F1", "P1", "A1" and an unclassified name |
| Classification.SignalsFollowAnalogChannels | src/devices/hardwaredevice.cpp:107-112 | the channel loop makes one signal per analog channel, in channel order; each carries its channel, its name, the class's fixed flag and the data its name selects |
| Classification.TimeBase | src/devices/hardwaredevice.cpp:84-100 | an electronic load has exactly one time buffer (Time in Second, fixed) and every signal uses it; every other class gives signal k its own fresh buffer k |
| Classification.AddAnalogShape | src/devices/hardwaredevice.cpp:340-390 | an analog channel appends one signal for its channel and name, and inserts its name and its channel into the two maps at the new index |
| Classification.AddAnalogData | src/devices/hardwaredevice.cpp:340-382 | the new signal has the fixed flag and name-selected data, and uses the shared buffer when there is one, otherwise a fresh buffer appended at the end |
| Classification.AppendKeepsChannelMap | src/devices/hardwaredevice.cpp:388-390 | appending a signal keeps the channel map pointing each channel at its first signal |
| Classification.AppendKeepsNameMap | src/devices/hardwaredevice.cpp:385-387 | appending a signal keeps the name map pointing each name at its first signal |
| Classification.MapsPointAtFirstSignal | src/devices/hardwaredevice.cpp:384-390 | after the loop, the channel map's keys are exactly the channels of the signals and the name map's keys exactly their names; each entry points at the first signal with that key |
| Classification.NoteCanonicalRole | src/devices/hardwaredevice.cpp:392-399 | the else-if chain sets a role exactly when the name has that role and the role is still unset; no other role changes |
| Classification.AddAnalogCanonical | src/devices/hardwaredevice.cpp:392-399 | adding an analog channel sets a canonical role only if its name has the role and no earlier signal took it |
| Classification.AppendKeepsCanonical | src/devices/hardwaredevice.cpp:392-399 | the first-match property of a canonical signal survives appending a signal |
| Classification.CanonicalFirst | src/devices/hardwaredevice.cpp:392-399 | the voltage, current and measurement signals are each the first signal whose name has that role, and there is none iff no signal's name has the role; a later match never overrides |
| Classification.AnalogInputsAreNotCanonicalVoltage | src/devices/hardwaredevice.cpp:376-379 | an "A..." signal is classified as Voltage but is never the voltage signal |
| Classification.LogicChannelsHaveNoSignal | src/devices/hardwaredevice.cpp:336-338 | a channel id carried only by logic channels gets no signal and no channel-map entry |
| Classification.AnalogChannelsMembers | src/devices/hardwaredevice.cpp:108-112 | the channels that get signals are exactly the analog channels |
| ChannelGroups.CollectGroupSignals | src/devices/hardwaredevice.cpp:125-129 | the inner loop computes the group's signal list `GroupSignals` |
| ChannelGroups.GroupSignalsMembers | src/devices/hardwaredevice.cpp:126-129 | a signal is in a group's list iff one of the group's channels maps to it |
| ChannelGroups.GroupSignalsAppend | src/devices/hardwaredevice.cpp:126-129 | the list keeps the group's channel order: the list of a concatenation is the concatenation of the lists |
| ChannelGroups.GroupSignalsAllMapped | src/devices/hardwaredevice.cpp:126-129 | when every channel has a signal, the list holds one signal per channel, in order |
| ChannelGroups.GroupsFoldConfigurables | src/devices/hardwaredevice.cpp:118-120 | one configurable per visited group, in group order |
| ChannelGroups.GroupNamesMembers | src/devices/hardwaredevice.cpp:118-123 | the visited names are exactly the names of the visited groups |
| ChannelGroups.GroupsFoldKeysAreNames | src/devices/hardwaredevice.cpp:121-132 | both name maps have exactly the visited names as keys |
| ChannelGroups.GroupsFoldKeySet | src/devices/hardwaredevice.cpp:121-132 | a name is a key of the signal-list map iff some group has it, and both maps have the same keys |
| ChannelGroups.LastNameIsFresh | src/devices/hardwaredevice.cpp:115-123 | with distinct names the next group's name is not yet a key |
| ChannelGroups.GroupsFoldCard | src/devices/hardwaredevice.cpp:115-132 | with distinct names there are as many entries as groups |
| ChannelGroups.GroupsFoldKeys | src/devices/hardwaredevice.cpp:115-132 | with distinct names the entries are keyed by exactly the group names, one each |
| ChannelGroups.GroupsFoldValues | src/devices/hardwaredevice.cpp:121-132 | each group's entries hold that group and the signals of its channels |
| ChannelGroups.GroupsBecomeConfigurables | src/devices/hardwaredevice.cpp:114-137 | K > 0 groups give exactly K configurables in group order and K name entries holding each group's signals; zero groups give one device configurable and empty maps |
| Driver.AscendingNamesDistinct | src/devices/hardwaredevice.cpp:115-116 | groups delivered by a name-keyed map have pairwise distinct names |
| Naming.SeparatorAfterFields | src/devices/hardwaredevice.cpp:147-172 | the separator becomes " " exactly when some field was appended |
| Naming.AppendFieldsLength | src/devices/hardwaredevice.cpp:147-172 | the length of what the field visit appends: the fields plus one separator per non-empty field, the first being the initial separator and every later one a space |
| Naming.AppendFieldsContent | src/devices/hardwaredevice.cpp:147-172 | the field visit appends the first non-empty field followed by the initial separator, then every later non-empty field followed by a space; empty fields add nothing; the separator afterwards is " " iff some field was non-empty |
| Naming.NameLayout | src/devices/hardwaredevice.cpp:145-209 | a name is the non-empty fields in order, the first two abutting and every later one followed by a space, then a non-empty connection id as "(id)", preceded by one more space when some field was present |
| Naming.FullNameOneField | src/devices/hardwaredevice.cpp:150-179 | with only the vendor and a connection id the full name is "vendor (id)", with a single space |
| Naming.NameLength | src/devices/hardwaredevice.cpp:145-182 | the exact length of a name: the fields, one space per non-empty field but the first, and "(id)" plus one more space when some field precedes it |
| Naming.FullNameAllPresent | src/devices/hardwaredevice.cpp:145-182 | with every field present the full name is vendor and model abutting, then " version", " serial", a trailing space and " (id)" |
| Naming.FullNameOnlyConnection | src/devices/hardwaredevice.cpp:174-179 | with only a connection id the full name is "(id)", and it is empty without one |
| Naming.TrailingEmptyField | src/devices/hardwaredevice.cpp:150-172 | an empty field appends nothing and leaves the separator as it was |
| Naming.ShortNameDropsVersionAndSerial | src/devices/hardwaredevice.cpp:184-209 | the short name is the full name of the same device with version and serial left empty |
| Naming.JoinSnoc | src/devices/hardwaredevice.cpp:246 | `join` of parts with one more part adds the separator and the part |
| Naming.DisplayNameUnique | src/devices/hardwaredevice.cpp:219-233 | without another listed device of equal vendor and model the display name is "vendor model" |
| Naming.DisplayNameDisambiguated | src/devices/hardwaredevice.cpp:233-246 | with such a device, " version" and " serial" are appended even when empty, and " (id)" only when the serial is empty and the id is not |
| Naming.OwnEntryIsNoNamesake | src/devices/hardwaredevice.cpp:224-231 | the device's own entry in the list never counts as a namesake, because the handle comparison excludes it |
| Metadata.DispatchTable | src/devices/hardwaredevice.cpp:499-556 | the switch maps the thirteen recognised keys one-to-one onto the thirteen change kinds |
| Metadata.UnlistedKeysIgnored | src/devices/hardwaredevice.cpp:556-564 | the under-voltage-condition threshold, the class keys and any other key give no notification |
| Metadata.MetaNotificationsAppend | src/devices/hardwaredevice.cpp:498-566 | notifications follow entry order: a packet's notifications are those of its parts in sequence |
| Metadata.OneNotificationPerRecognisedEntry | src/devices/hardwaredevice.cpp:494-566 | one notification per recognised entry; each is on configurable 0, of the kind its key selects and with its entry's value |
| Metadata.EnabledEntry | src/devices/hardwaredevice.cpp:500-503 | an "enabled" entry yields one enabled-changed notification on configurable 0 with its value |
| Lifecycle.CloseWhenClosedIsNoop | src/devices/hardwaredevice.cpp:298-299 | `close` on a closed device changes nothing and makes no call |
| Lifecycle.CloseLeavesClosedAndStopped | src/devices/hardwaredevice.cpp:296-315 | after `close` the device is closed and stopped with no thread, and a second `close` changes nothing |
| Lifecycle.CloseStopsThenJoins | src/devices/hardwaredevice.cpp:301-314 | closing a running device removes the callbacks, stops the session, joins the thread, removes the devices and closes the device, in that order |
| Lifecycle.OpenFailureThrows | src/devices/hardwaredevice.cpp:254-258 | a driver-open error is thrown with its text and leaves the device closed and stopped |
| Lifecycle.OpenSuccessRuns | src/devices/hardwaredevice.cpp:260-293 | a successful open leaves the device open and Running with the thread spawned |
| Lifecycle.ReopenClosesFirst | src/devices/hardwaredevice.cpp:251-293 | `open` on an open device first makes all of `close`'s calls, ending with the device close and including the join, and only then opens again |
| Lifecycle.AcquisitionOrder | src/devices/hardwaredevice.cpp:414-454 | the thread's trace: a start error is reported, nothing runs and the state is unchanged; a run error is reported and only then is Stopped written; after a normal end Stopped is written and only then is out-of-memory reported; out-of-memory is reported iff start and run both succeed and memory ran out |
| Lifecycle.AcquisitionReports | src/devices/hardwaredevice.cpp:414-454 | the thread calls the error handler at most once, only appends to the trace, and the reports it answers are exactly the handler calls it appended, in order |
| Lifecycle.HandlerCallsOfThreadEvents | src/devices/hardwaredevice.cpp:414-454 | each event sequence the thread body can append holds exactly the handler calls the code makes on that path: one report for a start or run error, out-of-memory after Stopped, none after a clean end |
| Lifecycle.StepsKeepConsistent | src/devices/hardwaredevice.cpp:249-454 | open, close and the thread body keep "closed means stopped with no thread, open means a thread to join" |
| Devices.HardwareDevice.constructor | src/devices/hardwaredevice.cpp:58-137 | the constructed object's signals are `ClassifyChannels` of its class and channels, its groups are `BuildGroups` of its groups, and it starts closed, stopped, threadless and silent |
| Devices.HardwareDevice.ClassifyDevice | src/devices/hardwaredevice.cpp:76-105 | the if-chain computes `DeviceTypeOf`, the shared buffer only an electronic load creates, and the fixed flag |
| Devices.HardwareDevice.InitSignals | src/devices/hardwaredevice.cpp:107-112 | the channel loop builds `ClassifyChannels` of the device's channels and touches nothing else |
| Devices.HardwareDevice.InitChannelGroups | src/devices/hardwaredevice.cpp:114-137 | the group loop builds `BuildGroups` of the device's groups and touches nothing else |
| Devices.HardwareDevice.InitSignal | src/devices/hardwaredevice.cpp:327-412 | one channel's initialisation is `AddSignal`; it answers the new signal's index for an analog channel and nothing for a logic one |
| Devices.HardwareDevice.NoteCanonicalSignal | src/devices/hardwaredevice.cpp:392-399 | the else-if chain computes `NoteCanonical` |
| Devices.HardwareDevice.FullName | src/devices/hardwaredevice.cpp:145-182 | the append sequence computes `FullNameOf`, whose layout `Naming.NameLayout` states for every device |
| Devices.HardwareDevice.ShortName | src/devices/hardwaredevice.cpp:184-209 | the append sequence computes `ShortNameOf`, the full name without version and serial |
| Devices.HardwareDevice.DisplayName | src/devices/hardwaredevice.cpp:216-247 | the `any_of` loop and the join compute `DisplayName` |
| Devices.HardwareDevice.CloseSession | src/devices/hardwaredevice.cpp:296-315 | the step-by-step updates of `close` give `CloseStep` of the old session state, which stays consistent |
| Devices.HardwareDevice.OpenSession | src/devices/hardwaredevice.cpp:249-294 | the step-by-step updates of `open`, including its inner `close`, give `OpenStep` of the old state and the driver's answer |
| Devices.HardwareDevice.RunAcquisition | src/devices/hardwaredevice.cpp:414-454 | the step-by-step updates of the thread body, with each handler call and the write of Stopped appended to the trace as it happens, give `AcquisitionStep` of the old state and the driver outcomes |
| Devices.HardwareDevice.Close | src/devices/hardwaredevice.cpp:296-315 | a valid device stays valid, and its new session state is `CloseStep` of the old one |
| Devices.HardwareDevice.Open | src/devices/hardwaredevice.cpp:249-294 | a valid device stays valid, and the new session state and the thrown error are `OpenStep` of the old state and the driver's answer |
| Devices.HardwareDevice.AcquisitionThreadProc | src/devices/hardwaredevice.cpp:414-454 | a valid device stays valid, and the new session state and the reports are `AcquisitionStep` of the old state and the driver outcomes |
| Devices.HardwareDevice.VoltageSignal | src/devices/hardwaredevice.cpp:457-460 | the answer is the first "V..." signal, or none iff there is no such signal |
| Devices.HardwareDevice.CurrentSignal | src/devices/hardwaredevice.cpp:462-465 | the answer is the first "I..." signal, or none iff there is no such signal |
| Devices.HardwareDevice.MeasurementSignal | src/devices/hardwaredevice.cpp:467-470 | the answer is the first "P1" or "A1" signal, or none iff there is no such signal |
| Devices.HardwareDevice.AllSignals | src/devices/hardwaredevice.cpp:472-475 | one signal per analog channel of the device, in channel order, with its channel and name |
| Devices.HardwareDevice.ChannelGroupNameSignalsMap | src/devices/hardwaredevice.cpp:477-481 | keyed by exactly the group names; each entry holds the group's channels' signals |
| Devices.HardwareDevice.Configurables | src/devices/hardwaredevice.cpp:483-486 | one configurable per group in group order, or the single device configurable when there are no groups |
| Devices.HardwareDevice.HasFirstConfigurable | src/devices/hardwaredevice.cpp:494-496 | a constructed device always has a configurable 0 |
| Devices.HardwareDevice.FeedInMeta | src/devices/hardwaredevice.cpp:488-569 | a valid device stays valid, configurable 0 exists, and the emitted notifications grow by exactly `MetaNotifications` of the packet; nothing else changes |

## Left out

- The data feed (`data_feed_in` and the sample demultiplexer) is not part of this model. `open`
  registers it only as a recorded call, and the out-of-memory flag it would set is a parameter
  of the thread body.
- Threads: the spawn and join of the acquisition thread are recorded calls and a
  thread-state field, and the thread body is one sequential step. Interleavings of the body
  with `close` are not modelled.
- The driver library's calls (device open and close; session add-device, start, run, stop
  and remove-devices; the datafeed callbacks) are recorded in order. Only three have an
  outcome parameter: the device open, the session start and the session run.
- Session add-device and add-datafeed-callback in `open`, and session stop, remove-devices
  and device close in `close`, are assumed to succeed. The code catches no error from them,
  so a throw would leave the object half-updated, and the model does not capture that. For
  example, a failing add-device would leave the driver device open while the object says
  closed. A failing stop, remove-devices or device close would leave the object saying open.
- The GVariant decoding of metadata values is not modelled: an entry's value is carried as an
  opaque boolean or real. There is no floating-point reasoning.
- Signal start times, read from the wall clock, are not modelled.
- The `qWarning` log line is not modelled.
- `free_unused_memory` is not modelled.
- Emitting a Qt signal is modelled as appending a notification to the `emitted` sequence.
- The destructor calls `close()`. It is not a member of its own, because `Close` and
  `CloseStep` already model that call.
- `sr_hardware_device` is a cast and is not modelled.
- `display_name`'s test that the cast pointer is non-null is not modelled: a device handle
  always exists here.
- The `default: assert(false)` branch of the channel-type switch is not modelled: a channel is
  Logic or Analog.
- The initial acquisition state is not set by the constructor shown. The model starts it
  Stopped.
- The sample buffers' default attribute values are not modelled: an attribute the code never
  sets is `None`.
- Devices.HardwareDevice.constructor: takes the channel groups as a name-ascending sequence
  rather than a map, so its one precondition is the ordering that `std::map` guarantees.
- Devices.HardwareDevice.InitSignals, Devices.HardwareDevice.InitChannelGroups: the two loops of
  the constructor are methods of their own. This keeps each proof small, and each still updates
  the object's fields in place.
- Devices.HardwareDevice.CloseSession, Devices.HardwareDevice.OpenSession,
  Devices.HardwareDevice.RunAcquisition: these hold the step-by-step updates of `close`, `open`
  and the thread body on the session fields. `Close`, `Open` and `AcquisitionThreadProc` call
  them and add the object invariant, so each proof stays small.
