/** From the plugin's RPC answers to the StorageClassCapability a user reads: the sidecar's write is
    one of the outside changes the reconcile protocol follows, so at rest the two compose. */
module EndToEnd {
  import opened Kube
  import opened Capability
  import opened Reconcile
  import opened ReconcileBase
  import opened ReconcileSafety
  import opened ReconcileRuns
  import opened Drain
  import opened Plugin
  import opened Sidecar
  import Q = WorkQueue

  /** A sidecar's write either leaves the server alone or is a step of the protocol's environment. */
  lemma SaveIsExternal(s: State, spec: PcapSpec, read: PcapObj, fault: Fault)
    ensures var r := Saved(s.pcap.feed, s.clock, spec, read, fault);
            || (r.feed == s.pcap.feed && r.clock == s.clock)
            || Next(s, PutPcap(spec.info.name, spec)) == s.(clock := r.clock, pcap := s.pcap.(feed := r.feed))
  {
  }

  /** Flag by flag, what a capability says against what the plugin advertised.  Snapshot flags also
      need a VolumeSnapshotClass of the StorageClass's name whose driver is the plugin. */
  ghost predicate Reports(cap: CapSpec, a: Answers, sc: StorageClass, snap: Option<SnapObj>)
    requires Answered(a)
  {
    var has, rpcs, plugin := cap.features, a.controller.value, a.info.value.name;
    var snapshots := snap.Some? && snap.value.val.driver == plugin;
    && cap.provisioner == plugin
    && (has.topology <==> Some(ServiceCap(Some(VolumeAccessibilityConstraints))) in a.identity.value)
    && (has.volume.create <==> CreateDeleteVolume in rpcs)
    && (has.volume.attach <==> PublishUnpublishVolume in rpcs)
    && (has.volume.list <==> ListVolumes in rpcs)
    && (has.volume.clone <==> CloneVolume in rpcs)
    && (has.volume.stats <==> Some(NodeCap(Some(GetVolumeStats))) in a.node.value)
    && sc.allowExpansion.Some?
    && (sc.allowExpansion.value ==>
          && (LastType(a.identity.value, OnlineExpansion) ==> has.volume.expand == "ONLINE")
          && (LastType(a.identity.value, OfflineExpansion) ==> has.volume.expand == "OFFLINE")
          && (forall t :: LastType(a.identity.value, t) && t != OnlineExpansion && t != OfflineExpansion ==>
                has.volume.expand == "UNKNOWN")
          && ((forall t :: Some(ExpansionCap(Some(t))) !in a.identity.value) ==> has.volume.expand == ""))
    && (!sc.allowExpansion.value ==> has.volume.expand == "UNKNOWN")
    && (has.snapshot.create <==> CreateDeleteSnapshot in rpcs && snapshots)
    && (has.snapshot.list <==> ListSnapshots in rpcs && snapshots)
  }

  lemma ReportsAtRest(s: State, k: string, a: Answers)
    requires Base(s) && Agree(StoreView(s, k)) && Answered(a)
    requires k != "" && k in s.sc.feed.store && s.sc.feed.store[k].val.provisioner == a.info.value.name
    requires a.info.value.name in s.pcap.feed.store
    requires Advertises(a, s.pcap.feed.store[a.info.value.name].val)
    ensures k in s.cap.feed.store
    ensures Reports(s.cap.feed.store[k].val.spec, a, s.sc.feed.store[k].val, Look(s.snap.feed.store, k))
  {
    hide Replay, Genuine, Newer, LastExpansion, LastType;
    ModeSpelledOut(a.identity.value, s.pcap.feed.store[a.info.value.name].val.features.volume.expand);
  }

  // ---------------------------------------------------------------- the run, with the tick in it

  /** The state after a sidecar's write. */
  function Ticked(s: State, spec: PcapSpec, read: PcapObj, fault: Fault): State {
    var r := Saved(s.pcap.feed, s.clock, spec, read, fault);
    s.(clock := r.clock, pcap := s.pcap.(feed := r.feed))
  }

  /** Nobody deletes the plugin's entry or writes another answer to it; the sidecar may tick again. */
  ghost predicate Uncontradicted(steps: seq<Step>, spec: PcapSpec) {
    forall i :: 0 <= i < |steps| ==>
      && steps[i] != DropPcap(spec.info.name)
      && (steps[i].PutPcap? && steps[i].name == spec.info.name ==> steps[i].pcapVal == spec)
  }

  predicate Entered(s: State, spec: PcapSpec) {
    spec.info.name in s.pcap.feed.store && s.pcap.feed.store[spec.info.name].val == spec
  }

  lemma EntryStaysInStep(s: State, step: Step, spec: PcapSpec)
    requires Enabled(s, step) && Entered(s, spec) && Uncontradicted([step], spec)
    ensures Entered(Next(s, step), spec)
  {
    hide WorkNext, WorkEnabled, BootOk, Q.AddAll, Q.Fire, Apply, NoteOf, PcapKeys;
    assert [step][0] == step;
    if step.Work? {
      WorkSameServer(s, step.i, step.fault, step.boot);
    }
  }

  lemma {:induction false} EntryStays(s: State, steps: seq<Step>, spec: PcapSpec)
    requires Legal(s, steps) && Entered(s, spec) && Uncontradicted(steps, spec)
    ensures Entered(Run(s, steps), spec)
    decreases |steps|
  {
    hide Enabled, Next, Entered;
    if steps != [] {
      assert Uncontradicted([steps[0]], spec);
      EntryStaysInStep(s, steps[0], spec);
      EntryStays(Next(s, steps[0]), steps[1..], spec);
    }
  }

  /** A write keeps the base invariant and every key's coverage; one that reports success has entered the
      answer, whatever object the tick had read before and whatever happened in between. */
  lemma TickKeeps(s: State, spec: PcapSpec, read: PcapObj, fault: Fault, k: string)
    requires Base(s) && Covered(s, k)
    ensures Base(Ticked(s, spec, read, fault)) && Covered(Ticked(s, spec, read, fault), k)
    ensures Saved(s.pcap.feed, s.clock, spec, read, fault).err.Okay? ==> Entered(Ticked(s, spec, read, fault), spec)
  {
    hide Base, Covered, Next;
    SaveIsExternal(s, spec, read, fault);
    var put := PutPcap(spec.info.name, spec);
    StepBase(s, put);
    StepKeeps(s, put, k);
  }

  /** The end-to-end theorem.  Start on an empty server; let anything happen that loses no wakeup for
      k; let a sidecar's tick succeed with the answer of its plugin; and let anything happen again,
      except that somebody else meddles with the plugin's entry.  When that comes to rest and k is a
      StorageClass of the plugin, then its capability exists, and every flag in it holds exactly if the
      plugin advertised it. */
  lemma PluginToUser(s: State, before: seq<Step>, a: Answers, spec: PcapSpec, read: PcapObj, fault: Fault,
                     after: seq<Step>, k: string)
    requires Init(s) && Legal(s, before) && Lossless(s, before, k)
    requires Answered(a) && Advertises(a, spec)
    requires var u := Run(s, before); Saved(u.pcap.feed, u.clock, spec, read, fault).err.Okay?
    requires var u := Ticked(Run(s, before), spec, read, fault);
             && Legal(u, after) && Lossless(u, after, k) && Uncontradicted(after, spec)
             && var t := Run(u, after);
                && Quiescent(t) && k != "" && k in t.sc.feed.store
                && t.sc.feed.store[k].val.provisioner == a.info.value.name
    ensures var t := Run(Ticked(Run(s, before), spec, read, fault), after);
            && k in t.cap.feed.store
            && Reports(t.cap.feed.store[k].val.spec, a, t.sc.feed.store[k].val, Look(t.snap.feed.store, k))
  {
    hide Base, Init, Legal, Lossless, Run, Covered, Quiescent, Agree, LastExpansion, Saved, Ticked;
    InitBase(s);
    RunBase(s, before);
    RunKeeps(s, before, k);
    var u := Ticked(Run(s, before), spec, read, fault);
    TickKeeps(Run(s, before), spec, read, fault, k);
    EntryStays(u, after, spec);
    RunBase(u, after);
    RunKeeps(u, after, k);
    AtRest(Run(u, after), k);
    ReportsAtRest(Run(u, after), k, a);
  }

  /** Such a tick: with nothing failing and nobody in between, whatever object was there before, the
      sidecar of a named plugin succeeds and leaves exactly what the plugin advertised. */
  lemma TickLeavesAnswer(s: State, a: Answers, spec: PcapSpec)
    requires Base(s) && Answered(a) && Advertises(a, spec) && spec.info.name != ""
    ensures var read := Fetched(s.pcap.feed, spec.info.name, false);
            && Saved(s.pcap.feed, s.clock, spec, read, NoFault).err.Okay?
            && var t := Ticked(s, spec, read, NoFault);
               && spec.info.name in t.pcap.feed.store && Advertises(a, t.pcap.feed.store[spec.info.name].val)
               && (t == s || t == Next(s, PutPcap(spec.info.name, spec)))
  {
    hide Advertises;
    SaveIsExternal(s, spec, Fetched(s.pcap.feed, spec.info.name, false), NoFault);
  }

  /** Both together: a fault-free tick after any run from an empty server is what users come to see. */
  lemma QuietTickToUser(s: State, before: seq<Step>, a: Answers, spec: PcapSpec, after: seq<Step>, k: string)
    requires Init(s) && Legal(s, before) && Lossless(s, before, k)
    requires Answered(a) && Advertises(a, spec) && spec.info.name != ""
    requires var u := Ticked(Run(s, before), spec, Fetched(Run(s, before).pcap.feed, spec.info.name, false), NoFault);
             && Legal(u, after) && Lossless(u, after, k) && Uncontradicted(after, spec)
             && var t := Run(u, after);
                && Quiescent(t) && k != "" && k in t.sc.feed.store
                && t.sc.feed.store[k].val.provisioner == a.info.value.name
    ensures var u := Ticked(Run(s, before), spec, Fetched(Run(s, before).pcap.feed, spec.info.name, false), NoFault);
            var t := Run(u, after);
            && k in t.cap.feed.store
            && Reports(t.cap.feed.store[k].val.spec, a, t.sc.feed.store[k].val, Look(t.snap.feed.store, k))
  {
    hide Base, Init, Legal, Lossless, Run, Quiescent, Saved, Ticked, Advertises, Reports, Fetched;
    InitBase(s);
    RunBase(s, before);
    TickLeavesAnswer(Run(s, before), a, spec);
    PluginToUser(s, before, a, spec, Fetched(Run(s, before).pcap.feed, spec.info.name, false), NoFault, after, k);
  }
}
