/** The API objects of pkg/apis/storagecapability/v1alpha1 and how a StorageClassCapability is built. */
module Capability {
  import opened Kube

  /** The values of ExpandMode; the zero value is the empty string. */
  const EXPAND_UNSET := ""
  const EXPAND_UNKNOWN := "UNKNOWN"
  const EXPAND_OFFLINE := "OFFLINE"
  const EXPAND_ONLINE := "ONLINE"

  datatype Volume = Volume(create: bool, attach: bool, list: bool, clone: bool, stats: bool, expand: string)
  datatype Snapshot = Snapshot(create: bool, list: bool)
  datatype Features = Features(topology: bool, volume: Volume, snapshot: Snapshot)

  const NO_SNAPSHOT := Snapshot(false, false)

  datatype PluginInfo = PluginInfo(name: string, version: string)
  datatype PcapSpec = PcapSpec(info: PluginInfo, features: Features)

  /** AllowVolumeExpansion is a pointer in the API type, hence the Option. */
  datatype StorageClass = StorageClass(provisioner: string, allowExpansion: Option<bool>)
  datatype SnapClass = SnapClass(driver: string)

  datatype CapSpec = CapSpec(provisioner: string, features: Features)
  /** A StorageClassCapability: its spec, and the metadata that others may edit. */
  datatype Meta = Meta(labels: map<string, string>, annotations: map<string, string>, finalizers: seq<string>)
  datatype Cap = Cap(meta: Meta, spec: CapSpec)

  const NO_META := Meta(map[], map[], [])

  type ScObj = Obj<StorageClass>
  type SnapObj = Obj<SnapClass>
  type PcapObj = Obj<PcapSpec>
  type CapObj = Obj<Cap>

  /** What a builder returns: a nil pointer, a panic on a nil dereference, or an object. */
  datatype Built = Nil | Panic | Made(obj: CapObj)

  /** What newSccap returns. */
  function BuildNew(sc: Option<ScObj>, snap: Option<SnapObj>, pcap: Option<PcapObj>): Built {
    if sc.None? || pcap.None? then Nil
    else
      var f := pcap.value.val.features;
      if sc.value.val.allowExpansion.None? then Panic
      else
        var volume := if sc.value.val.allowExpansion.value then f.volume else f.volume.(expand := EXPAND_UNKNOWN);
        var snapshot :=
          if snap.Some? && snap.value.val.driver == pcap.value.name then f.snapshot else NO_SNAPSHOT;
        Made(Obj(sc.value.name, 0, Cap(NO_META, CapSpec(sc.value.val.provisioner, Features(f.topology, volume, snapshot)))))
  }

  /** What updateSccap returns. */
  function BuildUpdate(cap: Option<CapObj>, sc: Option<ScObj>, snap: Option<SnapObj>, pcap: Option<PcapObj>): Built {
    if cap.None? || sc.None? || pcap.None? || cap.value.name != sc.value.name then Nil
    else
      var f := pcap.value.val.features;
      if sc.value.val.allowExpansion.None? then Panic
      else
        var volume := if sc.value.val.allowExpansion.value then f.volume else f.volume.(expand := EXPAND_UNKNOWN);
        var snapshot :=
          if snap.Some? && snap.value.name == sc.value.name && snap.value.val.driver == pcap.value.name
          then f.snapshot else NO_SNAPSHOT;
        var spec := CapSpec(sc.value.val.provisioner, Features(f.topology, volume, snapshot));
        Made(cap.value.(val := cap.value.val.(spec := spec)))
  }

  // ---------------------------------------------------------------- what the spec should be

  /** Flag by flag, what spec has to say about a StorageClass, its provisioner's capability and the
      VolumeSnapshotClass of the same name, if any.  Written without reference to the builders. */
  ghost predicate Describes(spec: CapSpec, sc: ScObj, snap: Option<SnapObj>, pcap: PcapObj) {
    var had, has := pcap.val.features, spec.features;
    && spec.provisioner == sc.val.provisioner
    && (has.topology <==> had.topology)
    && (has.volume.create <==> had.volume.create)
    && (has.volume.attach <==> had.volume.attach)
    && (has.volume.list <==> had.volume.list)
    && (has.volume.clone <==> had.volume.clone)
    && (has.volume.stats <==> had.volume.stats)
    && sc.val.allowExpansion.Some?
    && (sc.val.allowExpansion.value ==> has.volume.expand == had.volume.expand)
    && (!sc.val.allowExpansion.value ==> has.volume.expand == EXPAND_UNKNOWN)
    && (has.snapshot.create <==> had.snapshot.create && snap.Some? && snap.value.val.driver == pcap.name)
    && (has.snapshot.list <==> had.snapshot.list && snap.Some? && snap.value.val.driver == pcap.name)
  }

  /** Every object read was found under its own name: the StorageClass names its snapshot class and
      its capability, and its provisioner names the ProvisionerCapability. */
  ghost predicate FoundByName(sc: ScObj, snap: Option<SnapObj>, pcap: PcapObj, cap: Option<CapObj>) {
    && pcap.name == sc.val.provisioner
    && (snap.Some? ==> snap.value.name == sc.name)
    && (cap.Some? ==> cap.value.name == sc.name)
  }

  /** Creating from nothing and updating whatever was there give the same spec, although only the
      update compares the snapshot class's name; an update keeps the metadata and the version it
      read.  No build yields nil, and one panics exactly when AllowVolumeExpansion is nil. */
  lemma PathIndependence(sc: ScObj, snap: Option<SnapObj>, pcap: PcapObj, cap: Option<CapObj>)
    requires FoundByName(sc, snap, pcap, cap)
    ensures var made := BuildNew(Some(sc), snap, Some(pcap));
            && (made.Panic? <==> sc.val.allowExpansion.None?)
            && (made.Panic? || (made.Made? && made.obj.name == sc.name && made.obj.val.meta == NO_META
                                && Describes(made.obj.val.spec, sc, snap, pcap)))
            && (cap.Some? ==>
                  var changed := BuildUpdate(cap, Some(sc), snap, Some(pcap));
                  && (changed.Panic? <==> made.Panic?)
                  && (changed.Panic? ||
                      (changed.Made? && changed.obj.val.spec == made.obj.val.spec
                       && changed.obj.(val := changed.obj.val.(spec := cap.value.val.spec)) == cap.value)))
  {
    var made := BuildNew(Some(sc), snap, Some(pcap));
    if cap.Some? {
      var changed := BuildUpdate(cap, Some(sc), snap, Some(pcap));
      assert changed.Made? ==> changed.obj.name == cap.value.name && changed.obj.rv == cap.value.rv;
    }
  }

  /** The description determines the spec. */
  lemma DescribesOne(a: CapSpec, b: CapSpec, sc: ScObj, snap: Option<SnapObj>, pcap: PcapObj)
    requires Describes(a, sc, snap, pcap) && Describes(b, sc, snap, pcap)
    ensures a == b
  {
    assert a.features.volume == b.features.volume;
    assert a.features.snapshot == b.features.snapshot;
  }

  // ---------------------------------------------------------------- one key's view

  /** Everything that bears on one key: the cached inputs, the cached capability and the stored one. */
  datatype View = View(sc: Option<ScObj>, pcap: Option<PcapObj>, snap: Option<SnapObj>,
                       cached: Option<CapObj>, stored: Option<CapObj>)

  function ViewOf(sc: map<string, ScObj>, pcap: map<string, PcapObj>, snap: map<string, SnapObj>,
                  cached: map<string, CapObj>, stored: map<string, CapObj>, k: string): View {
    View(Look(sc, k),
         if k in sc then Look(pcap, sc[k].val.provisioner) else None,
         Look(snap, k), Look(cached, k), Look(stored, k))
  }

  /** The target.  Without a StorageClass there is to be no capability; without a
      ProvisionerCapability (or a name) the controller has no obligation; otherwise the stored
      spec has to describe the inputs, which nothing does while AllowVolumeExpansion is nil. */
  ghost predicate Agree(v: View) {
    if v.sc.None? then v.stored.None?
    else if v.sc.value.name == "" || v.pcap.None? then true
    else v.stored.Some? && Describes(v.stored.value.val.spec, v.sc.value, v.snap, v.pcap.value)
  }

  // ---------------------------------------------------------------- which keys a change concerns

  /** enqueuePcap: the StorageClasses that name this provisioner; none for a tombstone. */
  function PcapKeys(sc: map<string, ScObj>, n: Note<PcapSpec>): set<string> {
    if n.Tombstone? then {} else set k | k in sc && sc[k].val.provisioner == n.obj.name
  }

  /** Dependency completeness, kind by kind.  Take two cache states that differ only by one delivered
      event.  Every key whose view of the world differs is among the keys the handler then enqueues;
      this holds for a deletion too, unless it arrives as a tombstone, which enqueues nothing.  (The
      tombstone of a ProvisionerCapability does no harm: nothing is owed to its keys any more.) */
  lemma ScChangeReachesItsKeys(c: Channel<StorageClass>, clock: nat, tomb: bool, pcap: map<string, PcapObj>,
                               snap: map<string, SnapObj>, cached: map<string, CapObj>, stored: map<string, CapObj>, k: string)
    requires ChannelOk(c, clock) && c.feed.wire != [] && !(tomb && c.feed.wire[0].Del?)
    requires ViewOf(Deliver(c, tomb).cache, pcap, snap, cached, stored, k) != ViewOf(c.cache, pcap, snap, cached, stored, k)
    ensures k in NoteName(NoteOf(c.cache, c.feed.wire[0], tomb), true)
  {
    DeliveryNames(c, clock, tomb, true);
  }

  lemma SnapChangeReachesItsKeys(c: Channel<SnapClass>, clock: nat, tomb: bool, sc: map<string, ScObj>,
                                 pcap: map<string, PcapObj>, cached: map<string, CapObj>, stored: map<string, CapObj>, k: string)
    requires ChannelOk(c, clock) && c.feed.wire != [] && !(tomb && c.feed.wire[0].Del?)
    requires ViewOf(sc, pcap, Deliver(c, tomb).cache, cached, stored, k) != ViewOf(sc, pcap, c.cache, cached, stored, k)
    ensures k in NoteName(NoteOf(c.cache, c.feed.wire[0], tomb), true)
  {
    DeliveryNames(c, clock, tomb, true);
  }

  lemma PcapChangeReachesItsKeys(c: Channel<PcapSpec>, tomb: bool, sc: map<string, ScObj>, snap: map<string, SnapObj>,
                                 cached: map<string, CapObj>, stored: map<string, CapObj>, k: string)
    requires c.feed.wire != []
    requires ViewOf(sc, Deliver(c, tomb).cache, snap, cached, stored, k) != ViewOf(sc, c.cache, snap, cached, stored, k)
    ensures if tomb && c.feed.wire[0].Del? then Agree(ViewOf(sc, Deliver(c, tomb).cache, snap, cached, stored, k))
            else k in PcapKeys(sc, NoteOf(c.cache, c.feed.wire[0], tomb))
  {
  }

  lemma CapChangeReachesItsKeys(c: Channel<Cap>, tomb: bool, sc: map<string, ScObj>, pcap: map<string, PcapObj>,
                                snap: map<string, SnapObj>, stored: map<string, CapObj>, k: string)
    requires c.feed.wire != [] && !(tomb && c.feed.wire[0].Del?)
    requires ViewOf(sc, pcap, snap, Deliver(c, tomb).cache, stored, k) != ViewOf(sc, pcap, snap, c.cache, stored, k)
    ensures k in NoteName(NoteOf(c.cache, c.feed.wire[0], tomb), false)
  {
  }

  /** The scan is exact: each enqueued key is one whose view really involves that provisioner. */
  lemma PcapKeysExact(sc: map<string, ScObj>, n: Note<PcapSpec>, k: string)
    requires !n.Tombstone?
    ensures k in PcapKeys(sc, n) <==>
              exists a: map<string, PcapObj>, b: map<string, PcapObj> ::
                && (forall p :: p != n.obj.name ==> Look(a, p) == Look(b, p))
                && ViewOf(sc, a, map[], map[], map[], k) != ViewOf(sc, b, map[], map[], map[], k)
  {
    var a: map<string, PcapObj> := map[];
    var b: map<string, PcapObj> := map[n.obj.name := n.obj];
    assert forall p :: p != n.obj.name ==> Look(a, p) == Look(b, p);
    if k in PcapKeys(sc, n) {
      assert ViewOf(sc, a, map[], map[], map[], k) != ViewOf(sc, b, map[], map[], map[], k);
    }
  }
}
