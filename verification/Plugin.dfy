/** pkg/handler/plugin.go: folding what a CSI plugin advertises into a ProvisionerCapability spec.

    The RPCs themselves are foreign: each answer is a parameter, a failed call is None. */
module Plugin {
  import opened Kube
  import opened Capability

  datatype ServiceType = UnknownService | ControllerService | VolumeAccessibilityConstraints | OtherService(code: int)
  datatype ExpansionType = UnknownExpansion | OnlineExpansion | OfflineExpansion | OtherExpansion(code: int)

  /** An entry of GetPluginCapabilities: a oneof, whose chosen message may itself be nil. */
  datatype PluginCap =
    | ServiceCap(service: Option<ServiceType>)
    | ExpansionCap(expansion: Option<ExpansionType>)
    | EmptyCap

  datatype ControllerRpc =
    | CreateDeleteVolume | PublishUnpublishVolume | ListVolumes | CloneVolume
    | CreateDeleteSnapshot | ListSnapshots | OtherControllerRpc(code: int)

  datatype NodeRpc = GetVolumeStats | OtherNodeRpc(code: int)

  /** An entry of NodeGetCapabilities: the rpc message may be nil. */
  datatype NodeCap = NodeCap(rpc: Option<NodeRpc>)

  // ---------------------------------------------------------------- what the lists say

  predicate IsExpansion(entry: Option<PluginCap>) {
    entry.Some? && entry.value.ExpansionCap? && entry.value.expansion.Some?
  }

  function ModeOf(t: ExpansionType): string {
    match t
    case OnlineExpansion => EXPAND_ONLINE
    case OfflineExpansion => EXPAND_OFFLINE
    case UnknownExpansion => EXPAND_UNKNOWN
    case OtherExpansion(_) => EXPAND_UNKNOWN
  }

  /** mode is that of the last expansion entry, the empty string if there is none. */
  ghost predicate LastExpansion(entries: seq<Option<PluginCap>>, mode: string) {
    || (mode == EXPAND_UNSET && forall i :: 0 <= i < |entries| ==> !IsExpansion(entries[i]))
    || (exists i :: 0 <= i < |entries| && IsExpansion(entries[i]) && mode == ModeOf(entries[i].value.expansion.value)
                    && forall j :: i < j < |entries| ==> !IsExpansion(entries[j]))
  }

  /** The last expansion entry is one of this type. */
  ghost predicate LastType(entries: seq<Option<PluginCap>>, t: ExpansionType) {
    exists i :: 0 <= i < |entries| && entries[i] == Some(ExpansionCap(Some(t)))
                && forall j, u :: i < j < |entries| ==> entries[j] != Some(ExpansionCap(Some(u)))
  }

  /** The mode, spelled out. */
  lemma ModeSpelledOut(entries: seq<Option<PluginCap>>, mode: string)
    requires LastExpansion(entries, mode)
    ensures LastType(entries, OnlineExpansion) ==> mode == "ONLINE"
    ensures LastType(entries, OfflineExpansion) ==> mode == "OFFLINE"
    ensures forall t :: LastType(entries, t) && t != OnlineExpansion && t != OfflineExpansion ==> mode == "UNKNOWN"
    ensures (forall t :: Some(ExpansionCap(Some(t))) !in entries) ==> mode == ""
    ensures (forall t :: Some(ExpansionCap(Some(t))) !in entries) || exists t :: LastType(entries, t)
  {
    if i :| 0 <= i < |entries| && IsExpansion(entries[i]) && mode == ModeOf(entries[i].value.expansion.value)
            && forall j :: i < j < |entries| ==> !IsExpansion(entries[j]) {
      var last := entries[i].value.expansion.value;
      assert LastType(entries, last);
      assert Some(ExpansionCap(Some(last))) in entries;
      forall t | LastType(entries, t)
        ensures t == last
      {
        var k :| 0 <= k < |entries| && entries[k] == Some(ExpansionCap(Some(t)))
                 && forall j, u :: k < j < |entries| ==> entries[j] != Some(ExpansionCap(Some(u)));
        assert IsExpansion(entries[k]);
      }
    } else {
      assert forall k, t :: 0 <= k < |entries| && !IsExpansion(entries[k]) ==> entries[k] != Some(ExpansionCap(Some(t)));
    }
  }

  // ---------------------------------------------------------------- the loops

  method GetIdentityCapability(rsp: Option<seq<Option<PluginCap>>>) returns (topo: bool, expand: string, failed: bool)
    ensures failed <==> rsp.None?
    ensures failed ==> !topo && expand == "UNKNOWN"
    ensures !failed ==> (topo <==> Some(ServiceCap(Some(VolumeAccessibilityConstraints))) in rsp.value)
    ensures !failed && LastType(rsp.value, OnlineExpansion) ==> expand == "ONLINE"
    ensures !failed && LastType(rsp.value, OfflineExpansion) ==> expand == "OFFLINE"
    ensures !failed ==> forall t :: LastType(rsp.value, t) && t != OnlineExpansion && t != OfflineExpansion ==> expand == "UNKNOWN"
    ensures !failed && (forall t :: Some(ExpansionCap(Some(t))) !in rsp.value) ==> expand == ""
    ensures !failed ==> LastExpansion(rsp.value, expand)
  {
    if rsp.None? {
      return false, EXPAND_UNKNOWN, true;
    }
    var entries := rsp.value;
    topo, expand, failed := false, EXPAND_UNSET, false;
    for n := 0 to |entries|
      invariant topo <==> Some(ServiceCap(Some(VolumeAccessibilityConstraints))) in entries[..n]
      invariant LastExpansion(entries[..n], expand)
    {
      var cap := entries[n];
      ghost var before := entries[..n];
      assert entries[..n + 1] == before + [cap];
      if cap.Some? {
        if cap.value.ServiceCap? && cap.value.service.Some? && cap.value.service.value.VolumeAccessibilityConstraints? {
          topo := true;
        }
        if cap.value.ExpansionCap? && cap.value.expansion.Some? {
          match cap.value.expansion.value {
            case UnknownExpansion => expand := EXPAND_UNKNOWN;
            case OnlineExpansion => expand := EXPAND_ONLINE;
            case OfflineExpansion => expand := EXPAND_OFFLINE;
            case OtherExpansion(_) => expand := EXPAND_UNKNOWN;
          }
          assert IsExpansion(entries[..n + 1][n]);
        }
      }
      if !IsExpansion(cap) {
        LastExpansionSkips(before, cap, expand);
      }
    }
    assert entries[..|entries|] == entries;
    ModeSpelledOut(entries, expand);
  }

  lemma LastExpansionSkips(entries: seq<Option<PluginCap>>, cap: Option<PluginCap>, mode: string)
    requires LastExpansion(entries, mode) && !IsExpansion(cap)
    ensures LastExpansion(entries + [cap], mode)
  {
    var all := entries + [cap];
    assert forall i :: 0 <= i < |entries| ==> all[i] == entries[i];
    if exists i :: 0 <= i < |entries| && IsExpansion(entries[i]) {
      var i :| 0 <= i < |entries| && IsExpansion(entries[i]) && mode == ModeOf(entries[i].value.expansion.value)
               && forall j :: i < j < |entries| ==> !IsExpansion(entries[j]);
      assert IsExpansion(all[i]);
    }
  }

  method GetNodeCapabilities(rsp: Option<seq<Option<NodeCap>>>) returns (caps: Option<map<NodeRpc, bool>>)
    ensures caps.None? <==> rsp.None?
    ensures rsp.Some? ==> forall t :: t in caps.value <==> Some(NodeCap(Some(t))) in rsp.value
    ensures rsp.Some? ==> forall t :: t in caps.value ==> caps.value[t]
  {
    if rsp.None? {
      return None;
    }
    var entries := rsp.value;
    var found: map<NodeRpc, bool> := map[];
    for n := 0 to |entries|
      invariant forall t :: t in found <==> Some(NodeCap(Some(t))) in entries[..n]
      invariant forall t :: t in found ==> found[t]
    {
      var cap := entries[n];
      assert entries[..n + 1] == entries[..n] + [cap];
      if cap.Some? && cap.value.rpc.Some? {
        found := found[cap.value.rpc.value := true];
      }
    }
    assert entries[..|entries|] == entries;
    caps := Some(found);
  }

  // ---------------------------------------------------------------- the whole answer

  /** Everything the plugin says in one round: its identity, its plugin capabilities, the set of its
      controller capabilities (as the CSI library returns it) and its node capabilities. */
  datatype Answers = Answers(info: Option<PluginInfo>, identity: Option<seq<Option<PluginCap>>>,
                             controller: Option<set<ControllerRpc>>, node: Option<seq<Option<NodeCap>>>)

  predicate Answered(a: Answers) {
    a.info.Some? && a.identity.Some? && a.controller.Some? && a.node.Some?
  }

  /** spec says of the plugin exactly what it advertised. */
  ghost predicate Advertises(a: Answers, spec: PcapSpec)
    requires Answered(a)
  {
    var f, rpcs := spec.features, a.controller.value;
    && spec.info == a.info.value
    && (f.topology <==> Some(ServiceCap(Some(VolumeAccessibilityConstraints))) in a.identity.value)
    && (f.volume.create <==> CreateDeleteVolume in rpcs)
    && (f.volume.attach <==> PublishUnpublishVolume in rpcs)
    && (f.volume.list <==> ListVolumes in rpcs)
    && (f.volume.clone <==> CloneVolume in rpcs)
    && (f.volume.stats <==> Some(NodeCap(Some(GetVolumeStats))) in a.node.value)
    && LastExpansion(a.identity.value, f.volume.expand)
    && (f.snapshot.create <==> CreateDeleteSnapshot in rpcs)
    && (f.snapshot.list <==> ListSnapshots in rpcs)
  }

  method GetFullCapability(a: Answers) returns (spec: Option<PcapSpec>)
    ensures spec.Some? <==> Answered(a)
    ensures spec.Some? ==> Advertises(a, spec.value)
  {
    if a.info.None? {
      return None;
    }
    var topology, expand, failed := GetIdentityCapability(a.identity);
    if failed {
      return None;
    }
    if a.controller.None? {
      return None;
    }
    var controllerCaps := a.controller.value;
    var nodeCaps := GetNodeCapabilities(a.node);
    if nodeCaps.None? {
      return None;
    }
    var stats := GetVolumeStats in nodeCaps.value && nodeCaps.value[GetVolumeStats];
    spec := Some(PcapSpec(
      a.info.value,
      Features(
        topology,
        Volume(CreateDeleteVolume in controllerCaps, PublishUnpublishVolume in controllerCaps,
               ListVolumes in controllerCaps, CloneVolume in controllerCaps, stats, expand),
        Snapshot(CreateDeleteSnapshot in controllerCaps, ListSnapshots in controllerCaps))));
  }

  // ---------------------------------------------------------------- what the answer depends on

  /** The last expansion is unique, so GetIdentityCapability is a function of the response. */
  lemma LastExpansionOne(entries: seq<Option<PluginCap>>, a: string, b: string)
    requires LastExpansion(entries, a) && LastExpansion(entries, b)
    ensures a == b
  {
    if exists i :: 0 <= i < |entries| && IsExpansion(entries[i]) {
      var i :| 0 <= i < |entries| && IsExpansion(entries[i]) && a == ModeOf(entries[i].value.expansion.value)
               && forall j :: i < j < |entries| ==> !IsExpansion(entries[j]);
      var k :| 0 <= k < |entries| && IsExpansion(entries[k]) && b == ModeOf(entries[k].value.expansion.value)
               && forall j :: k < j < |entries| ==> !IsExpansion(entries[j]);
      assert i == k;
    }
  }

  /** The expansion entries, in order. */
  function Expansions(entries: seq<Option<PluginCap>>): seq<Option<PluginCap>> {
    if entries == [] then []
    else
      var n := |entries| - 1;
      Expansions(entries[..n]) + if IsExpansion(entries[n]) then [entries[n]] else []
  }

  /** The mode depends on nothing but the subsequence of expansion entries. */
  lemma {:induction false} OnlyExpansionsMatter(entries: seq<Option<PluginCap>>, mode: string)
    ensures LastExpansion(entries, mode) <==> LastExpansion(Expansions(entries), mode)
    ensures forall i :: 0 <= i < |Expansions(entries)| ==> IsExpansion(Expansions(entries)[i])
    ensures Expansions(entries) == [] <==> forall i :: 0 <= i < |entries| ==> !IsExpansion(entries[i])
  {
    if entries != [] {
      var n := |entries| - 1;
      var front := entries[..n];
      OnlyExpansionsMatter(front, mode);
      assert entries == front + [entries[n]];
      if IsExpansion(entries[n]) {
        var all := Expansions(entries);
        assert IsExpansion(all[|all| - 1]);
        assert LastExpansion(entries, mode) <==> mode == ModeOf(entries[n].value.expansion.value);
        assert LastExpansion(all, mode) <==> mode == ModeOf(entries[n].value.expansion.value);
      } else {
        assert Expansions(entries) == Expansions(front);
        SkipsBack(front, entries[n], mode);
      }
    }
  }

  lemma SkipsBack(entries: seq<Option<PluginCap>>, cap: Option<PluginCap>, mode: string)
    requires !IsExpansion(cap)
    ensures LastExpansion(entries + [cap], mode) <==> LastExpansion(entries, mode)
  {
    var all := entries + [cap];
    assert forall i :: 0 <= i < |entries| ==> all[i] == entries[i];
    if LastExpansion(entries, mode) {
      LastExpansionSkips(entries, cap, mode);
    } else {
      forall i | 0 <= i < |all| && IsExpansion(all[i]) && forall j :: i < j < |all| ==> !IsExpansion(all[j])
        ensures mode != ModeOf(all[i].value.expansion.value)
      {
        assert IsExpansion(entries[i]) && forall j :: i < j < |entries| ==> !IsExpansion(all[j]);
      }
      assert mode == EXPAND_UNSET ==> exists i :: 0 <= i < |entries| && IsExpansion(entries[i]) && IsExpansion(all[i]);
    }
  }

  /** Order and duplicates do not matter to anything but the expansion mode: two rounds of answers with
      the same entries, and the same last expansion, are advertised by the same spec. */
  lemma SameEntriesSameSpec(a: Answers, b: Answers, x: PcapSpec, y: PcapSpec)
    requires Answered(a) && Answered(b) && Advertises(a, x) && Advertises(b, y)
    requires a.info == b.info && a.controller == b.controller
    requires forall e :: e in a.identity.value <==> e in b.identity.value
    requires forall e :: e in a.node.value <==> e in b.node.value
    requires Expansions(a.identity.value) == Expansions(b.identity.value)
    ensures x == y
  {
    OnlyExpansionsMatter(a.identity.value, x.features.volume.expand);
    OnlyExpansionsMatter(b.identity.value, x.features.volume.expand);
    LastExpansionOne(b.identity.value, x.features.volume.expand, y.features.volume.expand);
    assert x.features.volume == y.features.volume && x.features.snapshot == y.features.snapshot;
  }
}
