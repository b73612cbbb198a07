/*
 * The second half of a HardwareDevice's construction: the driver's channel
 * groups become Configurables and name -> signal-list entries. Signals are
 * referred to by their index in the device's signal list, and a channel's
 * signal is found through the channel map built while classifying.
 */
module ChannelGroups {
  import opened Driver

  /** A controllable unit: one per channel group, or one for the whole
      device when it reports no groups. */
  datatype Configurable = GroupConfigurable(groupName: string) | DeviceConfigurable

  /** The signals of a group's channels, in the group's channel order;
      a channel without a signal is skipped. */
  function GroupSignals(channelSignals: map<ChannelId, nat>, ids: seq<ChannelId>): seq<nat>
    decreases |ids|
  {
    if ids == [] then []
    else
      var prev := GroupSignals(channelSignals, ids[..|ids| - 1]);
      var c := ids[|ids| - 1];
      if c in channelSignals then prev + [channelSignals[c]] else prev
  }

  /** The inner loop of the constructor over one group's channels. */
  method CollectGroupSignals(channelSignals: map<ChannelId, nat>, ids: seq<ChannelId>) returns (cgSignals: seq<nat>)
    ensures cgSignals == GroupSignals(channelSignals, ids)
  {
    cgSignals := [];
    var i := 0;
    while i < |ids|
      invariant 0 <= i <= |ids|
      invariant cgSignals == GroupSignals(channelSignals, ids[..i])
    {
      assert ids[..i + 1][..i] == ids[..i];
      if ids[i] in channelSignals {
        cgSignals := cgSignals + [channelSignals[ids[i]]];
      }
      i := i + 1;
    }
    assert ids[..|ids|] == ids;
  }

  /** The list of a concatenation is the concatenation of the lists: the
      group's channel order is kept. */
  lemma {:induction false} GroupSignalsAppend(channelSignals: map<ChannelId, nat>, a: seq<ChannelId>, b: seq<ChannelId>)
    ensures GroupSignals(channelSignals, a + b) == GroupSignals(channelSignals, a) + GroupSignals(channelSignals, b)
    decreases |b|
  {
    if b != [] {
      assert (a + b)[..|a + b| - 1] == a + b[..|b| - 1];
      GroupSignalsAppend(channelSignals, a, b[..|b| - 1]);
    } else {
      assert a + b == a;
    }
  }

  /** A signal is in the list exactly when one of the group's channels maps to it. */
  lemma {:induction false} GroupSignalsMembers(channelSignals: map<ChannelId, nat>, ids: seq<ChannelId>)
    ensures forall x :: x in GroupSignals(channelSignals, ids) <==>
      exists i :: 0 <= i < |ids| && ids[i] in channelSignals && channelSignals[ids[i]] == x
    decreases |ids|
  {
    if ids != [] {
      var p := ids[..|ids| - 1];
      GroupSignalsMembers(channelSignals, p);
      forall x
        ensures x in GroupSignals(channelSignals, ids) <==>
          exists i :: 0 <= i < |ids| && ids[i] in channelSignals && channelSignals[ids[i]] == x
      {
        if exists i :: 0 <= i < |ids| && ids[i] in channelSignals && channelSignals[ids[i]] == x {
          var i :| 0 <= i < |ids| && ids[i] in channelSignals && channelSignals[ids[i]] == x;
          if i < |p| {
            assert p[i] == ids[i];
          }
        }
        if x in GroupSignals(channelSignals, p) {
          var i :| 0 <= i < |p| && p[i] in channelSignals && channelSignals[p[i]] == x;
          assert ids[i] == p[i];
        }
      }
    }
  }

  /** When every channel of the group has a signal, the list is exactly
      their signals, one per channel. */
  lemma {:induction false} GroupSignalsAllMapped(channelSignals: map<ChannelId, nat>, ids: seq<ChannelId>)
    requires forall i :: 0 <= i < |ids| ==> ids[i] in channelSignals
    ensures |GroupSignals(channelSignals, ids)| == |ids|
    ensures forall i :: 0 <= i < |ids| ==> GroupSignals(channelSignals, ids)[i] == channelSignals[ids[i]]
    decreases |ids|
  {
    if ids != [] {
      GroupSignalsAllMapped(channelSignals, ids[..|ids| - 1]);
    }
  }

  /** What the constructor builds from the groups. */
  datatype GroupTable = GroupTable(
    configurables: seq<Configurable>,
    groupNameMap: map<string, ChannelGroup>,
    groupSignals: map<string, seq<nat>>)

  /** The loop over a non-empty group map, after visiting `groups` in order. */
  function GroupsFold(groups: seq<ChannelGroup>, channelSignals: map<ChannelId, nat>): GroupTable
    decreases |groups|
  {
    if groups == [] then GroupTable([], map[], map[])
    else
      var prev := GroupsFold(groups[..|groups| - 1], channelSignals);
      var g := groups[|groups| - 1];
      GroupTable(prev.configurables + [GroupConfigurable(g.name)],
                 Insert(prev.groupNameMap, g.name, g),
                 Insert(prev.groupSignals, g.name, GroupSignals(channelSignals, g.channels)))
  }

  /** Groups become configurables and name entries; no groups means one
      configurable for the whole device and no name entries. */
  function BuildGroups(groups: seq<ChannelGroup>, channelSignals: map<ChannelId, nat>): GroupTable
  {
    if |groups| > 0 then GroupsFold(groups, channelSignals)
    else GroupTable([DeviceConfigurable], map[], map[])
  }

  lemma {:induction false} GroupsFoldConfigurables(groups: seq<ChannelGroup>, channelSignals: map<ChannelId, nat>)
    ensures |GroupsFold(groups, channelSignals).configurables| == |groups|
    ensures forall i :: 0 <= i < |groups| ==>
      GroupsFold(groups, channelSignals).configurables[i] == GroupConfigurable(groups[i].name)
    decreases |groups|
  {
    if groups != [] {
      GroupsFoldConfigurables(groups[..|groups| - 1], channelSignals);
    }
  }

  /** The name entries of a group table: one per group, keyed by its name. */
  ghost predicate EntryKeysFollowGroups(gt: GroupTable, groups: seq<ChannelGroup>)
  {
    |gt.groupSignals| == |groups| && |gt.groupNameMap| == |groups| &&
    (forall n :: n in gt.groupSignals <==> exists i :: 0 <= i < |groups| && groups[i].name == n) &&
    (forall n :: n in gt.groupNameMap <==> n in gt.groupSignals)
  }

  /** Each group's entries hold that group and its signals. */
  ghost predicate EntryValuesFollowGroups(gt: GroupTable, groups: seq<ChannelGroup>, channelSignals: map<ChannelId, nat>)
  {
    forall i :: 0 <= i < |groups| ==>
      groups[i].name in gt.groupSignals && groups[i].name in gt.groupNameMap &&
      gt.groupSignals[groups[i].name] == GroupSignals(channelSignals, groups[i].channels) &&
      gt.groupNameMap[groups[i].name] == groups[i]
  }

  /** The names of the visited groups. */
  ghost function GroupNames(groups: seq<ChannelGroup>): set<string>
    decreases |groups|
  {
    if groups == [] then {} else GroupNames(groups[..|groups| - 1]) + {groups[|groups| - 1].name}
  }

  lemma {:induction false} GroupNamesMembers(groups: seq<ChannelGroup>)
    ensures forall n :: n in GroupNames(groups) <==> exists i :: 0 <= i < |groups| && groups[i].name == n
    decreases |groups|
  {
    if groups != [] {
      var p := groups[..|groups| - 1];
      GroupNamesMembers(p);
      forall n ensures n in GroupNames(groups) <==> exists i :: 0 <= i < |groups| && groups[i].name == n {
        if exists i :: 0 <= i < |groups| && groups[i].name == n {
          var i :| 0 <= i < |groups| && groups[i].name == n;
          if i < |p| {
            assert p[i].name == n;
          }
        }
        if n in GroupNames(p) {
          var i :| 0 <= i < |p| && p[i].name == n;
          assert groups[i].name == n;
        }
      }
    }
  }

  lemma {:induction false} GroupsFoldKeysAreNames(groups: seq<ChannelGroup>, channelSignals: map<ChannelId, nat>)
    ensures GroupsFold(groups, channelSignals).groupSignals.Keys == GroupNames(groups)
    ensures GroupsFold(groups, channelSignals).groupNameMap.Keys == GroupNames(groups)
    decreases |groups|
  {
    if groups != [] {
      GroupsFoldKeysAreNames(groups[..|groups| - 1], channelSignals);
    }
  }

  /** Every visited group's name is a key of both maps, and nothing else is. */
  lemma GroupsFoldKeySet(groups: seq<ChannelGroup>, channelSignals: map<ChannelId, nat>)
    ensures var gt := GroupsFold(groups, channelSignals);
      (forall n :: n in gt.groupSignals <==> exists i :: 0 <= i < |groups| && groups[i].name == n) &&
      gt.groupNameMap.Keys == gt.groupSignals.Keys
  {
    GroupsFoldKeysAreNames(groups, channelSignals);
    GroupNamesMembers(groups);
  }

  /** With distinct names, the last group's name is new to the entries
      built from the others. */
  lemma LastNameIsFresh(groups: seq<ChannelGroup>, channelSignals: map<ChannelId, nat>)
    requires groups != []
    requires forall i, j :: 0 <= i < |groups| && 0 <= j < |groups| && i != j ==> groups[i].name != groups[j].name
    ensures groups[|groups| - 1].name !in GroupsFold(groups[..|groups| - 1], channelSignals).groupSignals
    ensures groups[|groups| - 1].name !in GroupsFold(groups[..|groups| - 1], channelSignals).groupNameMap
  {
    GroupsFoldKeySet(groups[..|groups| - 1], channelSignals);
  }

  /** With distinct names there is one entry per group. */
  lemma {:induction false} GroupsFoldCard(groups: seq<ChannelGroup>, channelSignals: map<ChannelId, nat>)
    requires forall i, j :: 0 <= i < |groups| && 0 <= j < |groups| && i != j ==> groups[i].name != groups[j].name
    ensures |GroupsFold(groups, channelSignals).groupSignals| == |groups|
    ensures |GroupsFold(groups, channelSignals).groupNameMap| == |groups|
    decreases |groups|
  {
    if groups != [] {
      var p := groups[..|groups| - 1];
      assert forall i, j :: 0 <= i < |p| && 0 <= j < |p| && i != j ==> p[i].name != p[j].name;
      GroupsFoldCard(p, channelSignals);
      LastNameIsFresh(groups, channelSignals);
    }
  }

  lemma GroupsFoldKeys(groups: seq<ChannelGroup>, channelSignals: map<ChannelId, nat>)
    requires forall i, j :: 0 <= i < |groups| && 0 <= j < |groups| && i != j ==> groups[i].name != groups[j].name
    ensures EntryKeysFollowGroups(GroupsFold(groups, channelSignals), groups)
  {
    GroupsFoldKeySet(groups, channelSignals);
    GroupsFoldCard(groups, channelSignals);
  }

  lemma {:induction false} GroupsFoldValues(groups: seq<ChannelGroup>, channelSignals: map<ChannelId, nat>)
    requires forall i, j :: 0 <= i < |groups| && 0 <= j < |groups| && i != j ==> groups[i].name != groups[j].name
    ensures EntryValuesFollowGroups(GroupsFold(groups, channelSignals), groups, channelSignals)
    decreases |groups|
  {
    if groups != [] {
      var p := groups[..|groups| - 1];
      assert forall i, j :: 0 <= i < |p| && 0 <= j < |p| && i != j ==> p[i].name != p[j].name;
      GroupsFoldValues(p, channelSignals);
      var gt := GroupsFold(groups, channelSignals);
      LastNameIsFresh(groups, channelSignals);
      forall i | 0 <= i < |groups| - 1
        ensures groups[i].name in gt.groupSignals && groups[i].name in gt.groupNameMap
        ensures gt.groupSignals[groups[i].name] == GroupSignals(channelSignals, groups[i].channels)
        ensures gt.groupNameMap[groups[i].name] == groups[i]
      {
        assert groups[i] == p[i];
      }
    }
  }

  /** K > 0 groups give exactly K configurables, in group order, and K name
      entries, each holding that group's signals; zero groups give one
      configurable for the device and no entries. */
  lemma GroupsBecomeConfigurables(groups: seq<ChannelGroup>, channelSignals: map<ChannelId, nat>)
    requires NamesAscending(groups)
    ensures var gt := BuildGroups(groups, channelSignals);
      |groups| == 0 ==>
        gt.configurables == [DeviceConfigurable] && gt.groupSignals == map[] && gt.groupNameMap == map[]
    ensures var gt := BuildGroups(groups, channelSignals);
      |groups| > 0 ==>
        |gt.configurables| == |groups| && |gt.groupSignals| == |groups| &&
        (forall i :: 0 <= i < |groups| ==> gt.configurables[i] == GroupConfigurable(groups[i].name)) &&
        (forall n :: n in gt.groupSignals <==> exists i :: 0 <= i < |groups| && groups[i].name == n) &&
        forall i :: 0 <= i < |groups| ==>
          gt.groupSignals[groups[i].name] == GroupSignals(channelSignals, groups[i].channels)
  {
    if |groups| > 0 {
      AscendingNamesDistinct(groups);
      GroupsFoldConfigurables(groups, channelSignals);
      GroupsFoldKeys(groups, channelSignals);
      GroupsFoldValues(groups, channelSignals);
    }
  }
}
