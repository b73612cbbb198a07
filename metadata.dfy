/*
 * Metadata packets: each (key, value) entry whose key is one of thirteen
 * recognised configuration keys becomes one change notification; every
 * other key is ignored. The packet does not say which channel group it is
 * about, so every notification goes to the first configurable.
 */
module Metadata {
  import opened Driver

  datatype ChangeKind =
    | EnabledChanged | VoltageTargetChanged | CurrentLimitChanged
    | OtpEnabledChanged | OtpActiveChanged
    | OvpEnabledChanged | OvpActiveChanged | OvpThresholdChanged
    | OcpEnabledChanged | OcpActiveChanged | OcpThresholdChanged
    | UvcEnabledChanged | UvcActiveChanged

  /** A change notification of `kind` on the configurable at index
      `configurable`, carrying the entry's value. */
  datatype Notification = Notification(configurable: nat, kind: ChangeKind, value: MetaValue)

  /** Notifications always go to the first configurable. */
  const MetaTarget: nat := 0

  /** The switch over the entry's key. */
  function ChangeFor(key: ConfigKey): Option<ChangeKind>
  {
    match key
    case Enabled => Some(EnabledChanged)
    case VoltageTarget => Some(VoltageTargetChanged)
    case CurrentLimit => Some(CurrentLimitChanged)
    case OverTemperatureProtection => Some(OtpEnabledChanged)
    case OverTemperatureProtectionActive => Some(OtpActiveChanged)
    case OverVoltageProtectionEnabled => Some(OvpEnabledChanged)
    case OverVoltageProtectionActive => Some(OvpActiveChanged)
    case OverVoltageProtectionThreshold => Some(OvpThresholdChanged)
    case OverCurrentProtectionEnabled => Some(OcpEnabledChanged)
    case OverCurrentProtectionActive => Some(OcpActiveChanged)
    case OverCurrentProtectionThreshold => Some(OcpThresholdChanged)
    case UnderVoltageCondition => Some(UvcEnabledChanged)
    case UnderVoltageConditionActive => Some(UvcActiveChanged)
    case _ => None
  }

  /** The key each kind of notification answers. */
  function KeyOf(kind: ChangeKind): ConfigKey
  {
    match kind
    case EnabledChanged => Enabled
    case VoltageTargetChanged => VoltageTarget
    case CurrentLimitChanged => CurrentLimit
    case OtpEnabledChanged => OverTemperatureProtection
    case OtpActiveChanged => OverTemperatureProtectionActive
    case OvpEnabledChanged => OverVoltageProtectionEnabled
    case OvpActiveChanged => OverVoltageProtectionActive
    case OvpThresholdChanged => OverVoltageProtectionThreshold
    case OcpEnabledChanged => OverCurrentProtectionEnabled
    case OcpActiveChanged => OverCurrentProtectionActive
    case OcpThresholdChanged => OverCurrentProtectionThreshold
    case UvcEnabledChanged => UnderVoltageCondition
    case UvcActiveChanged => UnderVoltageConditionActive
  }

  /** The dispatch is a bijection between the thirteen recognised keys and
      the thirteen kinds of notification. */
  lemma DispatchTable(key: ConfigKey, kind: ChangeKind)
    ensures ChangeFor(key) == Some(kind) <==> KeyOf(kind) == key
  {
  }

  /** The under-voltage-condition threshold, the device-class keys and any other
      unlisted key are ignored. */
  lemma UnlistedKeysIgnored(code: int)
    ensures ChangeFor(UnderVoltageConditionThreshold) == None
    ensures ChangeFor(OtherKey(code)) == None
    ensures ChangeFor(PowerSupplyKey) == None && ChangeFor(ElectronicLoadKey) == None
    ensures ChangeFor(MultimeterKey) == None && ChangeFor(DemoDevKey) == None
  {
  }

  function NotificationFor(e: MetaEntry): seq<Notification>
  {
    match ChangeFor(e.key)
    case Some(kind) => [Notification(MetaTarget, kind, e.value)]
    case None => []
  }

  /** The notifications of one packet, entry by entry. */
  function MetaNotifications(entries: seq<MetaEntry>): seq<Notification>
    decreases |entries|
  {
    if entries == [] then []
    else MetaNotifications(entries[..|entries| - 1]) + NotificationFor(entries[|entries| - 1])
  }

  function RecognisedCount(entries: seq<MetaEntry>): nat
    decreases |entries|
  {
    if entries == [] then 0
    else RecognisedCount(entries[..|entries| - 1]) + if ChangeFor(entries[|entries| - 1].key).Some? then 1 else 0
  }

  /** Notifications follow the entry order: the packet's notifications are
      those of its parts, one after the other. */
  lemma {:induction false} MetaNotificationsAppend(a: seq<MetaEntry>, b: seq<MetaEntry>)
    ensures MetaNotifications(a + b) == MetaNotifications(a) + MetaNotifications(b)
    decreases |b|
  {
    if b == [] {
      assert a + b == a;
    } else {
      assert (a + b)[..|a + b| - 1] == a + b[..|b| - 1];
      MetaNotificationsAppend(a, b[..|b| - 1]);
    }
  }

  /** One notification per recognised entry, all on the first configurable,
      each of the kind its key selects and with the entry's value. */
  lemma {:induction false} OneNotificationPerRecognisedEntry(entries: seq<MetaEntry>)
    ensures |MetaNotifications(entries)| == RecognisedCount(entries)
    ensures forall n :: n in MetaNotifications(entries) ==>
      n.configurable == MetaTarget && exists e :: e in entries && ChangeFor(e.key) == Some(n.kind) && e.value == n.value
    decreases |entries|
  {
    if entries != [] {
      var p := entries[..|entries| - 1];
      var last := entries[|entries| - 1];
      OneNotificationPerRecognisedEntry(p);
      forall n | n in MetaNotifications(entries)
        ensures n.configurable == MetaTarget &&
          exists e :: e in entries && ChangeFor(e.key) == Some(n.kind) && e.value == n.value
      {
        if n in MetaNotifications(p) {
          var e :| e in p && ChangeFor(e.key) == Some(n.kind) && e.value == n.value;
          assert e in entries;
        } else {
          assert n in NotificationFor(last);
          assert last in entries;
        }
      }
    }
  }

  /** An "enabled" entry yields exactly one enabled-changed notification on
      configurable 0 with its value. */
  lemma EnabledEntry(b: bool)
    ensures MetaNotifications([MetaEntry(Enabled, BoolValue(b))]) == [Notification(0, EnabledChanged, BoolValue(b))]
  {
    assert [MetaEntry(Enabled, BoolValue(b))][..0] == [];
  }
}
