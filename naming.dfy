/*
 * The names of a HardwareDevice, built from the identity strings its driver
 * reports: the full and short names, and the display name, which is
 * disambiguated only when another known device has the same vendor and model.
 */
module Naming {
  import opened Driver

  /** How the full and short names visit their fields: each non-empty field
      is appended to `name` followed by the separator in force, and from then
      on the separator is " ". Answers the name and the separator in force
      afterwards. */
  function AppendFields(name: string, sep: string, fields: seq<string>): (string, string)
    decreases |fields|
  {
    if fields == [] then (name, sep)
    else if fields[0] == "" then AppendFields(name, sep, fields[1..])
    else AppendFields(name + fields[0] + sep, " ", fields[1..])
  }

  predicate AnyNonEmpty(fields: seq<string>)
  {
    exists i :: 0 <= i < |fields| && fields[i] != ""
  }

  /** Appends a non-empty connection id, in parentheses after the separator in force. */
  function AppendConnection(name: string, sep: string, connectionId: string): string
  {
    if connectionId == "" then name else name + sep + "(" + connectionId + ")"
  }

  /** A name built from `fields` and a connection id, starting from the
      empty name with the empty separator. */
  function NameOf(fields: seq<string>, connectionId: string): string
  {
    var visited := AppendFields("", "", fields);
    AppendConnection(visited.0, visited.1, connectionId)
  }

  function FullNameOf(d: DriverDevice): string
  {
    NameOf([d.vendor, d.model, d.version, d.serialNumber], d.connectionId)
  }

  function ShortNameOf(d: DriverDevice): string
  {
    NameOf([d.vendor, d.model], d.connectionId)
  }

  function TotalLength(fields: seq<string>): nat
    decreases |fields|
  {
    if fields == [] then 0 else |fields[0]| + TotalLength(fields[1..])
  }

  function NonEmptyCount(fields: seq<string>): nat
    decreases |fields|
  {
    if fields == [] then 0 else (if fields[0] == "" then 0 else 1) + NonEmptyCount(fields[1..])
  }

  /** The separator switches to " " exactly when some field was appended. */
  lemma {:induction false} SeparatorAfterFields(name: string, sep: string, fields: seq<string>)
    ensures AppendFields(name, sep, fields).1 == if AnyNonEmpty(fields) then " " else sep
    decreases |fields|
  {
    if fields != [] {
      SeparatorAfterFields(if fields[0] == "" then name else name + fields[0] + sep,
                           if fields[0] == "" then sep else " ", fields[1..]);
      if AnyNonEmpty(fields[1..]) {
        var i :| 0 <= i < |fields[1..]| && fields[1..][i] != "";
        assert fields[i + 1] != "";
      }
      if AnyNonEmpty(fields) && fields[0] == "" {
        var i :| 0 <= i < |fields| && fields[i] != "";
        assert fields[1..][i - 1] != "";
      }
    }
  }

  /** Nothing is dropped or added but separators: one per non-empty field,
      the first of them being `sep`, every later one a single space. */
  lemma {:induction false} AppendFieldsLength(name: string, sep: string, fields: seq<string>)
    ensures |AppendFields(name, sep, fields).0| ==
      |name| + TotalLength(fields) + if NonEmptyCount(fields) == 0 then 0 else |sep| + NonEmptyCount(fields) - 1
    decreases |fields|
  {
    if fields != [] {
      AppendFieldsLength(if fields[0] == "" then name else name + fields[0] + sep,
                         if fields[0] == "" then sep else " ", fields[1..]);
    }
  }

  lemma {:induction false} NonEmptyCountZero(fields: seq<string>)
    ensures NonEmptyCount(fields) == 0 <==> !AnyNonEmpty(fields)
    decreases |fields|
  {
    if fields != [] {
      NonEmptyCountZero(fields[1..]);
      if !AnyNonEmpty(fields[1..]) && fields[0] == "" {
        forall i | 0 <= i < |fields| ensures fields[i] == "" {
          if i > 0 {
            assert fields[i] == fields[1..][i - 1];
          }
        }
      }
      if AnyNonEmpty(fields[1..]) {
        var i :| 0 <= i < |fields[1..]| && fields[1..][i] != "";
        assert fields[i + 1] != "";
      }
    }
  }

  /** The length of a name: the fields, one space after each non-empty
      field but the first, and "(id)" with one more space when some field
      was appended before it. */
  lemma NameLength(fields: seq<string>, connectionId: string)
    ensures |NameOf(fields, connectionId)| ==
      TotalLength(fields) + (if NonEmptyCount(fields) == 0 then 0 else NonEmptyCount(fields) - 1) +
      (if connectionId == "" then 0 else |connectionId| + 2 + if NonEmptyCount(fields) == 0 then 0 else 1)
  {
    AppendFieldsLength("", "", fields);
    SeparatorAfterFields("", "", fields);
    NonEmptyCountZero(fields);
  }

  /** The non-empty fields, in order. */
  function NonEmpties(fields: seq<string>): seq<string>
    decreases |fields|
  {
    if fields == [] then [] else (if fields[0] == "" then [] else [fields[0]]) + NonEmpties(fields[1..])
  }

  /** Each string followed by one space. */
  function Trailing(xs: seq<string>): string
    decreases |xs|
  {
    if xs == [] then "" else xs[0] + " " + Trailing(xs[1..])
  }

  /** What the field visit appends: the first non-empty field followed by
      the initial separator, then every later non-empty field followed by a
      space. Empty fields contribute nothing. */
  lemma {:induction false} AppendFieldsContent(name: string, sep: string, fields: seq<string>)
    ensures var ne := NonEmpties(fields);
      AppendFields(name, sep, fields).0 == name + if ne == [] then "" else ne[0] + sep + Trailing(ne[1..])
    ensures AppendFields(name, sep, fields).1 == if NonEmpties(fields) == [] then sep else " "
    decreases |fields|
  {
    if fields != [] {
      var rest := NonEmpties(fields[1..]);
      AppendFieldsContent(if fields[0] == "" then name else name + fields[0] + sep,
                          if fields[0] == "" then sep else " ", fields[1..]);
      if fields[0] != "" {
        var ne := NonEmpties(fields);
        assert ne == [fields[0]] + rest;
        assert ne[0] == fields[0] && ne[1..] == rest;
        if rest != [] {
          assert Trailing(rest) == rest[0] + " " + Trailing(rest[1..]);
          calc {
            name + fields[0] + sep + (rest[0] + " " + Trailing(rest[1..]));
            name + (fields[0] + sep + (rest[0] + " " + Trailing(rest[1..])));
          }
        }
      } else {
        assert NonEmpties(fields) == [] + rest;
        assert NonEmpties(fields) == rest;
      }
    }
  }

  /** The layout of a name: the non-empty fields in order, the first two
      abutting and every later one followed by a space; then a non-empty
      connection id in parentheses, after one more space when some field
      was present. */
  lemma NameLayout(fields: seq<string>, connectionId: string)
    ensures var ne := NonEmpties(fields);
      NameOf(fields, connectionId) ==
        (if ne == [] then "" else ne[0] + Trailing(ne[1..])) +
        (if connectionId == "" then "" else (if ne == [] then "" else " ") + "(" + connectionId + ")")
  {
    AppendFieldsContent("", "", fields);
    var ne := NonEmpties(fields);
    var v := AppendFields("", "", fields);
    if ne == [] {
      assert v == ("", "");
    } else {
      var head := ne[0] + Trailing(ne[1..]);
      assert v.0 == head && v.1 == " ";
      if connectionId != "" {
        assert NameOf(fields, connectionId) == head + " " + "(" + connectionId + ")";
      }
    }
  }

  /** A device that reports one identity field and a connection id is
      named "field (id)", with a single space. */
  lemma FullNameOneField(d: DriverDevice)
    requires d.vendor != "" && d.model == "" && d.version == "" && d.serialNumber == "" && d.connectionId != ""
    ensures FullNameOf(d) == d.vendor + " (" + d.connectionId + ")"
  {
    var fs := [d.vendor, d.model, d.version, d.serialNumber];
    NameLayout(fs, d.connectionId);
    assert fs[1..] == [d.model, d.version, d.serialNumber];
    assert fs[1..][1..] == [d.version, d.serialNumber];
    assert fs[1..][1..][1..] == [d.serialNumber];
    assert fs[1..][1..][1..][1..] == [];
    assert NonEmpties(fs[1..][1..][1..][1..]) == [];
    assert NonEmpties(fs[1..][1..][1..]) == [];
    assert NonEmpties(fs[1..][1..]) == [];
    assert NonEmpties(fs[1..]) == [];
    assert NonEmpties(fs) == [d.vendor];
    assert [d.vendor][1..] == [];
  }

  /** With every field present the name is "VM Ver S  (C)": vendor and
      model abut and the connection id follows two spaces. */
  lemma FullNameAllPresent(d: DriverDevice)
    requires d.vendor != "" && d.model != "" && d.version != "" && d.serialNumber != "" && d.connectionId != ""
    ensures FullNameOf(d) ==
      d.vendor + d.model + " " + d.version + " " + d.serialNumber + " " + " (" + d.connectionId + ")"
  {
    var fs := [d.vendor, d.model, d.version, d.serialNumber];
    assert fs[1..] == [d.model, d.version, d.serialNumber];
    assert fs[1..][1..] == [d.version, d.serialNumber];
    assert fs[1..][1..][1..] == [d.serialNumber];
    assert fs[1..][1..][1..][1..] == [];
    var n1 := d.vendor;
    var n2 := n1 + d.model;
    var n3 := n2 + " " + d.version;
    var n4 := n3 + " " + d.serialNumber;
    assert "" + d.vendor + "" == n1;
    assert AppendFields("", "", fs) == AppendFields(n1, " ", fs[1..]);
    assert AppendFields(n1, " ", fs[1..]) == AppendFields(n2 + " ", " ", fs[1..][1..]);
    assert AppendFields(n2 + " ", " ", fs[1..][1..]) == AppendFields(n3 + " ", " ", fs[1..][1..][1..]);
    assert AppendFields(n3 + " ", " ", fs[1..][1..][1..]) == (n4 + " ", " ");
  }

  /** A device that reports only a connection id is named "(id)". */
  lemma FullNameOnlyConnection(d: DriverDevice)
    requires d.vendor == "" && d.model == "" && d.version == "" && d.serialNumber == ""
    ensures FullNameOf(d) == if d.connectionId == "" then "" else "(" + d.connectionId + ")"
  {
    var fs := [d.vendor, d.model, d.version, d.serialNumber];
    assert fs[1..] == [d.model, d.version, d.serialNumber];
    assert fs[1..][1..] == [d.version, d.serialNumber];
    assert fs[1..][1..][1..] == [d.serialNumber];
    assert fs[1..][1..][1..][1..] == [];
    assert AppendFields("", "", fs) == AppendFields("", "", fs[1..]);
    assert AppendFields("", "", fs[1..]) == AppendFields("", "", fs[1..][1..]);
    assert AppendFields("", "", fs[1..][1..]) == AppendFields("", "", fs[1..][1..][1..]);
    assert AppendFields("", "", fs[1..][1..][1..]) == ("", "");
  }

  /** An empty field at the end changes nothing. */
  lemma {:induction false} TrailingEmptyField(name: string, sep: string, fields: seq<string>)
    ensures AppendFields(name, sep, fields + [""]) == AppendFields(name, sep, fields)
    decreases |fields|
  {
    if fields == [] {
      assert ([] + [""])[1..] == [];
    } else {
      assert (fields + [""])[1..] == fields[1..] + [""];
      TrailingEmptyField(if fields[0] == "" then name else name + fields[0] + sep,
                         if fields[0] == "" then sep else " ", fields[1..]);
    }
  }

  /** The short name is the full name of the same device without version
      and serial number. */
  lemma ShortNameDropsVersionAndSerial(d: DriverDevice)
    ensures ShortNameOf(d) == FullNameOf(d.(version := "", serialNumber := ""))
  {
    TrailingEmptyField("", "", [d.vendor, d.model]);
    TrailingEmptyField("", "", [d.vendor, d.model, ""]);
    assert [d.vendor, d.model] + [""] == [d.vendor, d.model, ""];
    assert [d.vendor, d.model, ""] + [""] == [d.vendor, d.model, "", ""];
  }

  /** `boost::algorithm::join`. */
  function Join(parts: seq<string>, sep: string): string
    decreases |parts|
  {
    if parts == [] then ""
    else if |parts| == 1 then parts[0]
    else parts[0] + sep + Join(parts[1..], sep)
  }

  lemma {:induction false} JoinSnoc(parts: seq<string>, x: string, sep: string)
    requires parts != []
    ensures Join(parts + [x], sep) == Join(parts, sep) + sep + x
    decreases |parts|
  {
    if |parts| == 1 {
      assert (parts + [x])[1..] == [x];
    } else {
      assert (parts + [x])[1..] == parts[1..] + [x];
      JoinSnoc(parts[1..], x, sep);
    }
  }

  /** `other` is a different device with the same vendor and model. */
  predicate IsNamesake(self: DriverDevice, other: DriverDevice)
  {
    other.vendor == self.vendor && other.model == self.model && other.handle != self.handle
  }

  /** Some listed device is a namesake: the `any_of` over the device
      manager's devices. */
  predicate HasNamesake(self: DriverDevice, devices: seq<DriverDevice>)
  {
    exists i :: 0 <= i < |devices| && IsNamesake(self, devices[i])
  }

  function DisplayParts(self: DriverDevice, devices: seq<DriverDevice>): seq<string>
  {
    if !HasNamesake(self, devices) then [self.vendor, self.model]
    else if self.serialNumber == "" && self.connectionId != "" then
      [self.vendor, self.model, self.version, self.serialNumber, "(" + self.connectionId + ")"]
    else [self.vendor, self.model, self.version, self.serialNumber]
  }

  function DisplayName(self: DriverDevice, devices: seq<DriverDevice>): string
  {
    Join(DisplayParts(self, devices), " ")
  }

  /** Without a namesake the display name is vendor and model alone. */
  lemma DisplayNameUnique(self: DriverDevice, devices: seq<DriverDevice>)
    requires !HasNamesake(self, devices)
    ensures DisplayName(self, devices) == self.vendor + " " + self.model
  {
    assert [self.vendor, self.model][1..] == [self.model];
    assert Join([self.model], " ") == self.model;
  }

  /** With a namesake, version and serial are appended even when empty, and
      the connection id only when the serial is empty. */
  lemma DisplayNameDisambiguated(self: DriverDevice, devices: seq<DriverDevice>)
    requires HasNamesake(self, devices)
    ensures DisplayName(self, devices) ==
      self.vendor + " " + self.model + " " + self.version + " " + self.serialNumber +
      if self.serialNumber == "" && self.connectionId != "" then " (" + self.connectionId + ")" else ""
  {
    var base := [self.vendor, self.model];
    assert base[1..] == [self.model];
    JoinSnoc(base, self.version, " ");
    assert base + [self.version] == [self.vendor, self.model, self.version];
    JoinSnoc(base + [self.version], self.serialNumber, " ");
    assert base + [self.version] + [self.serialNumber] == [self.vendor, self.model, self.version, self.serialNumber];
    if self.serialNumber == "" && self.connectionId != "" {
      JoinSnoc([self.vendor, self.model, self.version, self.serialNumber], "(" + self.connectionId + ")", " ");
      assert [self.vendor, self.model, self.version, self.serialNumber] + ["(" + self.connectionId + ")"] ==
        [self.vendor, self.model, self.version, self.serialNumber, "(" + self.connectionId + ")"];
    }
  }

  /** The device's own entry in the list never counts as a namesake. */
  lemma OwnEntryIsNoNamesake(self: DriverDevice, devices: seq<DriverDevice>)
    ensures HasNamesake(self, devices + [self]) == HasNamesake(self, devices)
  {
    if HasNamesake(self, devices + [self]) {
      var i :| 0 <= i < |devices| + 1 && IsNamesake(self, (devices + [self])[i]);
      assert i < |devices| && devices[i] == (devices + [self])[i];
    }
    if HasNamesake(self, devices) {
      var i :| 0 <= i < |devices| && IsNamesake(self, devices[i]);
      assert (devices + [self])[i] == devices[i];
    }
  }
}
