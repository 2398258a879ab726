/** pkg/controller/controller.go in its own form: a Controller object with listers and a work queue,
    event handlers that add keys, and syncHandler as it is written, against the step functions of the
    protocol. */
module ControllerCode {
  import opened Kube
  import opened Capability
  import opened Reconcile
  import opened Sync
  import opened DeepCopy
  import Q = WorkQueue

  /** cache.SplitMetaNamespaceKey: "name" or "namespace/name"; anything longer is an error. */
  function SplitKey(key: string): (name: Option<string>)
    ensures '/' !in key ==> name == Some(key)
    ensures name.Some? ==> '/' !in name.value && (key == name.value || (exists ns :: '/' !in ns && key == ns + "/" + name.value))
    ensures name.None? ==> !exists ns, n :: '/' !in ns && '/' !in n && key == ns + "/" + n
  {
    var i := Slash(key);
    if i == |key| then Some(key)
    else if '/' in key[i + 1..] then
      TwoSlashes(key, i);
      None
    else
      assert key == key[..i] + "/" + key[i + 1..];
      Some(key[i + 1..])
  }

  /** The position of the first slash, or the length. */
  function Slash(key: string): (i: nat)
    ensures i <= |key| && '/' !in key[..i] && (i < |key| ==> key[i] == '/')
  {
    if key == "" then 0
    else if key[0] == '/' then 0
    else
      var j := Slash(key[1..]);
      assert key[..j + 1] == [key[0]] + key[1..][..j];
      j + 1
  }

  lemma TwoSlashes(key: string, i: nat)
    requires i < |key| && '/' !in key[..i] && key[i] == '/' && '/' in key[i + 1..]
    ensures !exists ns, n :: '/' !in ns && '/' !in n && key == ns + "/" + n
  {
    assert forall j :: 0 <= j < i ==> key[..i][j] == key[j];
    forall ns, n | '/' !in ns && key == ns + "/" + n
      ensures '/' in n
    {
      assert key[|ns|] == '/';
      assert n == key[|ns| + 1..];
    }
  }

  /** What the sync of any key comes to: a malformed one is reported and is no error. */
  function KeyOutcome(s: State, key: string, fault: Fault): Outcome {
    match SplitKey(key)
    case None => Outcome(s.cap.feed, s.clock, false, true)
    case Some(name) => SyncOutcome(s, name, fault)
  }

  /** A key without a slash is a name, one with a single slash a namespace and a name, and only the name
      counts; a key with more slashes changes nothing, and is neither a panic nor an error. */
  lemma KeyOutcomeIs(s: State, ns: string, name: string, rest: string, fault: Fault)
    requires '/' !in name && '/' !in ns
    ensures KeyOutcome(s, name, fault) == SyncOutcome(s, name, fault)
    ensures KeyOutcome(s, ns + "/" + name, fault) == SyncOutcome(s, name, fault)
    ensures KeyOutcome(s, ns + "/" + name + "/" + rest, fault) == Outcome(s.cap.feed, s.clock, false, true)
  {
    hide SyncOutcome, SplitKey;
    SplitsOnce(ns, name);
    SplitsTwice(ns, name, rest);
  }

  lemma SplitsOnce(ns: string, name: string)
    requires '/' !in name && '/' !in ns
    ensures SplitKey(name) == Some(name) && SplitKey(ns + "/" + name) == Some(name)
  {
    hide SplitKey;
    var key := ns + "/" + name;
    assert key[|ns|] == '/';
    assert exists a, b :: '/' !in a && '/' !in b && key == a + "/" + b;
    var got := SplitKey(key).value;
    var a :| '/' !in a && key == a + "/" + got;
    FirstSlash(ns, name, a, got);
  }

  lemma FirstSlash(a: string, b: string, c: string, d: string)
    requires '/' !in a && '/' !in c && a + "/" + b == c + "/" + d
    ensures a == c && b == d
  {
    var key := a + "/" + b;
    assert key[|a|] == '/' && key[|c|] == '/';
    assert forall i :: 0 <= i < |a| ==> key[i] == a[i];
    assert forall i :: 0 <= i < |c| ==> key[i] == c[i];
    assert |a| == |c|;
    assert a == key[..|a|] && c == key[..|c|];
    assert b == key[|a| + 1..] && d == key[|c| + 1..];
  }

  lemma SplitsTwice(ns: string, name: string, rest: string)
    requires '/' !in name && '/' !in ns
    ensures SplitKey(ns + "/" + name + "/" + rest) == None
  {
    hide SplitKey;
    var key := ns + "/" + name + "/" + rest;
    assert key[|ns|] == '/';
    assert key == ns + "/" + (name + "/" + rest);
    forall a, got | '/' !in a && key == a + "/" + got
      ensures '/' in got
    {
      FirstSlash(ns, name + "/" + rest, a, got);
      assert got[|name|] == '/';
    }
  }

  lemma SameKeyOutcome(s: State, t: State, key: string, fault: Fault)
    requires t.sc == s.sc && t.pcap == s.pcap && t.snap == s.snap && t.cap == s.cap && t.clock == s.clock
    ensures KeyOutcome(t, key, fault) == KeyOutcome(s, key, fault)
  {
    hide SplitKey, SyncOutcome;
    match SplitKey(key) {
      case None =>
      case Some(name) => SameOutcome(s, t, name, fault);
    }
  }

  /** What one processNextWorkItem makes of the caches, the server and the queue it sees.  A panic skips
      Forget and AddRateLimited but not the deferred Done. */
  predicate Worked(before: State, after: State, panicked: bool, fault: Fault) {
    && before.queue.order != []
    && var q, o := before.queue, KeyOutcome(before, before.queue.order[0], fault);
       && panicked == o.panicked
       && after == Effect(before, o).(
            queue := if panicked then Q.Done(Q.Get(q), q.order[0]) else Processed(q, o.ok))
  }

  /** The books of the queue after an item: its key was fetched and given back once; it was forgotten if the
      sync returned nil, scheduled for a retry if it returned an error, and neither if it panicked. */
  lemma ItemBooks(before: State, after: State, panicked: bool, fault: Fault)
    requires Worked(before, after, panicked, fault)
    ensures var q, r, k := before.queue, after.queue, before.queue.order[0];
            var ok := KeyOutcome(before, k, fault).ok;
            && r.fetched == q.fetched + multiset{k} && r.finished == q.finished + multiset{k}
            && r.forgotten == q.forgotten + (if !panicked && ok then multiset{k} else multiset{})
            && r.retried == q.retried + (if !panicked && !ok then multiset{k} else multiset{})
            && r.delayed == q.delayed + (if !panicked && !ok then {k} else {})
            && r.order == q.order[1..] && r.dirty == q.dirty - {k} && r.processing == q.processing - {k}
    ensures after.sc == before.sc && after.snap == before.snap && after.pcap == before.pcap && after.cap.cache == before.cap.cache
  {
    hide KeyOutcome;
    assert before.queue.processing + {before.queue.order[0]} - {before.queue.order[0]}
        == before.queue.processing - {before.queue.order[0]};
  }

  /** The controller sees of the protocol's state its caches, the capabilities' server and its queue. */
  predicate Sees(c: State, s: State) {
    && c.sc.cache == s.sc.cache && c.snap.cache == s.snap.cache && c.pcap.cache == s.pcap.cache && c.cap.cache == s.cap.cache
    && c.cap.feed == s.cap.feed && c.clock == s.clock && c.queue == s.queue
  }

  lemma SeenOutcome(c: State, s: State, name: string, fault: Fault)
    requires Sees(c, s)
    ensures SyncOutcome(c, name, fault) == SyncOutcome(s, name, fault)
  {
    hide Create, Update, Delete, BuildNew, BuildUpdate;
    EndsAt(c, name);
    EndsAt(s, name);
  }

  /** The code refines the protocol: wherever the controller sees what an idle worker of the protocol sees,
      what processNextWorkItem leaves is what some run of that worker's own steps leaves, or the server
      that a new process starts from. */
  lemma WorkedIsRun(before: State, after: State, panicked: bool, fault: Fault, s: State, i: nat, boot: Boot)
    returns (steps: seq<Step>)
    requires Worked(before, after, panicked, fault) && Sees(before, s) && '/' !in before.queue.order[0]
    requires i < |s.workers| && s.workers[i] == Idle
    requires var left := s.(clock := after.clock, cap := s.cap.(feed := after.cap.feed)); panicked ==> BootOk(left, boot)
    ensures Legal(s, steps) && forall j :: 0 <= j < |steps| ==> steps[j] == Work(i, fault, boot)
    ensures var left := s.(clock := after.clock, cap := s.cap.(feed := after.cap.feed));
            && (!panicked ==> Sees(after, Run(s, steps)) && Run(s, steps) == left.(queue := after.queue))
            && (panicked ==> Run(s, steps) == Restart(left, boot))
  {
    hide SplitKey, SyncOutcome, BootOk, Restart, Legal, Run, Processed;
    var name := before.queue.order[0];
    assert SplitKey(name) == Some(name);
    SeenOutcome(before, s, name, fault);
    steps := ItemIsRun(s, i, fault, boot);
  }

  // ---------------------------------------------------------------- what handlers are called with

  /** The interface value a handler gets: an object; a tombstone, which may or may not hold the object's
      last state; or something else. */
  datatype Given<T> = Object(obj: Obj<T>) | FinalStateUnknown(key: string, last: Option<Obj<T>>) | Foreign

  /** cache.MetaNamespaceKeyFunc: only an object has metadata to take a name from. */
  function KeyOf<T>(given: Given<T>): Option<string> {
    if given.Object? then Some(given.obj.name) else None
  }

  /** What the informer passes to a handler for a notification. */
  function Passed<T>(n: Note<T>): Given<T> {
    if n.Tombstone? then FinalStateUnknown(n.obj.name, Some(n.obj)) else Object(n.obj)
  }

  // ---------------------------------------------------------------- the API server, as a client sees it

  class ApiServer {
    var caps: Feed<Cap>
    var clock: nat

    method CreateCap(o: StorageClassCapability, fault: Fault) returns (err: Err)
      modifies this
      ensures Reply(caps, clock, err) == Create(old(caps), old(clock), o.Value().name, o.Value().val, fault)
    {
      var r := Create(caps, clock, o.Value().name, o.Value().val, fault);
      caps, clock, err := r.feed, r.clock, r.err;
    }

    method UpdateCap(o: StorageClassCapability, fault: Fault) returns (err: Err)
      modifies this
      ensures Reply(caps, clock, err) == Update(old(caps), old(clock), o.Value(), fault)
    {
      var r := Update(caps, clock, o.Value(), fault);
      caps, clock, err := r.feed, r.clock, r.err;
    }

    method DeleteCap(name: string, fault: Fault) returns (err: Err)
      modifies this
      ensures Reply(caps, clock, err) == Delete(old(caps), old(clock), name, fault)
    {
      var r := Delete(caps, clock, name, fault);
      caps, clock, err := r.feed, r.clock, r.err;
    }
  }

  // ---------------------------------------------------------------- the builders

  function BuiltAs(panicked: bool, res: StorageClassCapability?): Built
    reads res, if res == null then {} else res.Parts()
  {
    if panicked then Panic else if res == null then Nil else Made(res.Value())
  }

  /** The spec that both builders assign, field by field. */
  ghost predicate Specifies(spec: CapSpec, sc: ScObj, snapshots: bool, pcap: PcapObj)
    requires sc.val.allowExpansion.Some?
  {
    var had := pcap.val.features;
    && spec.provisioner == sc.val.provisioner
    && spec.features.topology == had.topology
    && spec.features.volume == (if sc.val.allowExpansion.value then had.volume else had.volume.(expand := EXPAND_UNKNOWN))
    && spec.features.snapshot == (if snapshots then had.snapshot else NO_SNAPSHOT)
  }

  /** The assignments to the new object's spec, which the two builders share but for the condition on the
      snapshot class. */
  method AssignSpec(res: StorageClassCapability, sc: ScObj, snapshots: bool, pcap: PcapObj) returns (panicked: bool)
    modifies res`spec
    ensures panicked <==> sc.val.allowExpansion.None?
    ensures !panicked ==> Specifies(res.spec, sc, snapshots, pcap)
  {
    panicked := false;
    var had := pcap.val.features;
    res.spec := CapSpec(sc.val.provisioner, Features(had.topology, had.volume, NO_SNAPSHOT));
    if sc.val.allowExpansion.None? {
      return true;
    }
    if !sc.val.allowExpansion.value {
      res.spec := res.spec.(features := res.spec.features.(volume := res.spec.features.volume.(expand := EXPAND_UNKNOWN)));
    }
    if snapshots {
      res.spec := res.spec.(features := res.spec.features.(snapshot := had.snapshot));
    }
  }

  /** newSccap. */
  method NewSccap(sc: Option<ScObj>, snap: Option<SnapObj>, pcap: Option<PcapObj>)
    returns (panicked: bool, res: StorageClassCapability?)
    ensures BuiltAs(panicked, res) == BuildNew(sc, snap, pcap)
    ensures res != null ==> fresh(res) && fresh(res.Parts())
    ensures res == null <==> sc.None? || pcap.None?
    ensures panicked <==> sc.Some? && pcap.Some? && sc.value.val.allowExpansion.None?
    ensures res != null && !panicked ==>
              && res.name == sc.value.name && res.rv == 0
              && res.labels == null && res.annotations == null && res.finalizers == null
              && Describes(res.spec, sc.value, snap, pcap.value)
  {
    panicked, res := false, null;
    if sc.None? || pcap.None? {
      return;
    }
    res := new StorageClassCapability.Zero();
    res.name := sc.value.name;
    panicked := AssignSpec(res, sc.value, snap.Some? && snap.value.val.driver == pcap.value.name, pcap.value);
  }

  lemma SameValue(a: StorageClassCapability, b: StorageClassCapability)
    requires a.Same(b)
    ensures a.Value() == b.Value()
  {
  }

  /** updateSccap: a deep copy of the cached object gets a new spec.  The method modifies nothing that
      existed before, so the cached object and its maps and slices are untouched, and the
      result shares no mutable part with it. */
  method UpdateSccap(sccap: StorageClassCapability?, sc: Option<ScObj>, snap: Option<SnapObj>, pcap: Option<PcapObj>)
    returns (panicked: bool, res: StorageClassCapability?)
    ensures BuiltAs(panicked, res)
         == BuildUpdate(if sccap == null then None else Some(sccap.Value()), sc, snap, pcap)
    ensures res != null ==> fresh(res) && fresh(res.Parts())
    ensures res == null <==> sccap == null || sc.None? || pcap.None? || sccap.name != sc.value.name
    ensures panicked <==> res != null && sc.value.val.allowExpansion.None?
    ensures res != null ==> CopyOf(res, sccap)
    ensures res != null && !panicked ==>
              Describes(res.spec, sc.value, if snap.Some? && snap.value.name == sc.value.name then snap else None, pcap.value)
  {
    hide StorageClassCapability.MetaData, StorageClassCapability.Parts, StorageClassCapability.Same;
    panicked, res := false, null;
    if sccap == null || sc.None? || pcap.None? {
      return;
    }
    if sccap.name != sc.value.name {
      return;
    }
    res := StorageClassCapability.Copy(sccap);
    SameValue(sccap, res);
    var snapshots := snap.Some? && snap.value.name == sc.value.name && snap.value.val.driver == pcap.value.name;
    panicked := AssignSpec(res, sc.value, snapshots, pcap.value);
  }

  // ---------------------------------------------------------------- the controller

  class Controller {
    const api: ApiServer
    var scLister: map<string, ScObj>
    var snapLister: map<string, SnapObj>
    var pcapLister: map<string, PcapObj>
    var sccapLister: map<string, StorageClassCapability>
    var workqueue: Q.Queue

    constructor (api: ApiServer)
      ensures this.api == api && workqueue == Q.EMPTY
      ensures scLister == map[] && snapLister == map[] && pcapLister == map[] && sccapLister == map[]
    {
      this.api := api;
      scLister, snapLister, pcapLister, sccapLister := map[], map[], map[], map[];
      workqueue := Q.EMPTY;
    }

    /** The parts of the cached capabilities. */
    function CachedParts(): set<object>
      reads this`sccapLister, sccapLister.Values
    {
      set n, p | n in sccapLister && p in sccapLister[n].Parts() :: p
    }

    /** The cached capabilities as values. */
    function Cached(): map<string, CapObj>
      reads this`sccapLister, sccapLister.Values, CachedParts()
    {
      assert forall n :: n in sccapLister ==> sccapLister[n] in sccapLister.Values;
      assert forall n :: n in sccapLister ==> sccapLister[n].Parts() <= CachedParts();
      map n | n in sccapLister :: sccapLister[n].Value()
    }

    /** The protocol state in which a worker of this controller would read and write right now. */
    function Snapshot(): State
      reads this, api, sccapLister.Values, CachedParts()
    {
      State(api.clock,
            NewChannel<StorageClass>().(cache := scLister),
            NewChannel<SnapClass>().(cache := snapLister),
            NewChannel<PcapSpec>().(cache := pcapLister),
            Channel(api.caps, Cached(), []),
            workqueue, [])
    }

    /** What is in the snapshot, lister by lister. */
    lemma SnapshotShows()
      ensures var s := Snapshot();
              && s.sc.cache == scLister && s.snap.cache == snapLister && s.pcap.cache == pcapLister
              && s.cap.feed == api.caps && s.clock == api.clock && s.queue == workqueue
              && s.cap.cache.Keys == sccapLister.Keys
              && forall n :: n in sccapLister ==>
                   var seen, o := s.cap.cache[n], sccapLister[n];
                   && seen.name == o.name && seen.rv == o.rv && seen.val.spec == o.spec
                   && seen.val.meta.labels == (if o.labels == null then map[] else o.labels.entries)
                   && seen.val.meta.annotations == (if o.annotations == null then map[] else o.annotations.entries)
                   && seen.val.meta.finalizers == (if o.finalizers == null then [] else o.finalizers[..])
    {
    }

    /** Changes to the queue and the server are none to the cache. */
    twostate lemma SameCached()
      requires sccapLister == old(sccapLister)
      requires forall n :: n in sccapLister ==> unchanged(sccapLister[n]) && unchanged(sccapLister[n].Parts())
      ensures Cached() == old(Cached())
    {
    }

    // -------------------------------------------------------------- event handlers

    /** enqueueSccap: adds the key of an object; anything else is reported as an error. */
    method EnqueueSccap<T>(given: Given<T>) returns (reported: bool)
      modifies this`workqueue
      ensures reported <==> KeyOf(given).None?
      ensures workqueue == if reported then old(workqueue) else Q.Add(old(workqueue), KeyOf(given).value)
    {
      var key := KeyOf(given);
      if key.None? {
        return true;
      }
      workqueue := Q.Add(workqueue, key.value);
      reported := false;
    }

    /** handleScObject.  The object is recovered from a tombstone, but what is enqueued is the argument
        itself, so a tombstone that was decoded is reported as an error all the same. */
    method HandleScObject<T>(given: Given<T>) returns (reported: bool)
      modifies this`workqueue
      ensures reported <==> !given.Object?
      ensures workqueue == if reported then old(workqueue) else Q.Add(old(workqueue), given.obj.name)
    {
      var recovered: Obj<T>;
      if given.Object? {
        recovered := given.obj;
      } else {
        if !given.FinalStateUnknown? {
          return true;
        }
        if given.last.None? {
          return true;
        }
        recovered := given.last.value;
      }
      reported := EnqueueSccap(given);
    }

    /** The handlers registered for StorageClassCapabilities. */
    method OnSccapEvent(n: Note<Cap>)
      modifies this`workqueue
      ensures n.Tombstone? ==> workqueue == old(workqueue)
      ensures !n.Tombstone? ==> workqueue == Q.Add(old(workqueue), n.obj.name)
      ensures workqueue == Q.AddAll(old(workqueue), Reconcile.EnqueueSccap(n))
    {
      var _ := EnqueueSccap(Passed(n));
    }

    /** The handlers registered for StorageClasses and VolumeSnapshotClasses: updates between equal
        resource versions are resyncs and are dropped. */
    method OnScEvent<T>(n: Note<T>)
      modifies this`workqueue
      ensures n.Tombstone? || (n.Updated? && n.was.rv == n.obj.rv) ==> workqueue == old(workqueue)
      ensures !n.Tombstone? && !(n.Updated? && n.was.rv == n.obj.rv) ==> workqueue == Q.Add(old(workqueue), n.obj.name)
      ensures workqueue == Q.AddAll(old(workqueue), Reconcile.HandleScObject(n))
    {
      if n.Updated? && n.was.rv == n.obj.rv {
        return;
      }
      var _ := HandleScObject(Passed(n));
    }

    /** enqueuePcap: whatever order the lister returns them in, exactly the StorageClasses that name
        the provisioner are added, once each as far as the queue can tell. */
    method EnqueuePcap(given: Given<PcapSpec>) returns (ghost found: seq<string>)
      requires NameKeyed(scLister)
      modifies this`workqueue
      ensures forall k :: k in found <==> given.Object? && k in scLister && scLister[k].val.provisioner == given.obj.name
      ensures workqueue == Q.AddAll(old(workqueue), found)
    {
      found := [];
      var provisioner := KeyOf(given);
      if provisioner.None? {
        return;
      }
      var todo := scLister.Keys;
      while todo != {}
        invariant todo <= scLister.Keys
        invariant forall k :: k in found <==> k in scLister && scLister[k].val.provisioner == given.obj.name && k !in todo
        invariant workqueue == Q.AddAll(old(workqueue), found)
      {
        var name :| name in todo;
        var v := scLister[name];
        if v.val.provisioner == provisioner.value {
          Q.AddAllAppend(old(workqueue), found, v.name);
          workqueue := Q.Add(workqueue, v.name);
          found := found + [v.name];
        }
        todo := todo - {name};
      }
    }

    /** The handlers registered for ProvisionerCapabilities. */
    method OnPcapEvent(n: Note<PcapSpec>) returns (ghost found: seq<string>)
      requires NameKeyed(scLister)
      modifies this`workqueue
      ensures forall k :: k in found <==> !n.Tombstone? && k in scLister && scLister[k].val.provisioner == n.obj.name
      ensures forall k :: k in found <==> k in PcapKeys(scLister, n)
      ensures workqueue == Q.AddAll(old(workqueue), found)
    {
      found := EnqueuePcap(Passed(n));
    }

    // -------------------------------------------------------------- syncHandler

    /** One undisturbed sync does to the server, and reports, exactly what a worker of the protocol
        does in its reads and its write; a malformed key does nothing.  Apart from the server nothing
        is modified: no object that a lister returned changes. */
    method SyncHandler(key: string, fault: Fault) returns (panicked: bool, ok: bool)
      modifies api
      ensures var o := KeyOutcome(old(Snapshot()), key, fault);
              api.caps == o.feed && api.clock == o.clock && panicked == o.panicked && (panicked || ok == o.ok)
    {
      hide Create, Update, Delete, BuildNew, BuildUpdate, StorageClassCapability.Value;
      panicked, ok := false, true;
      var split := SplitKey(key);
      if split.None? {
        return;
      }
      var name := split.value;
      ghost var s := Snapshot();
      EndsAt(s, name);
      if name !in scLister {
        var err := api.DeleteCap(name, fault);
        // the log line calls err.Error(), which panics on nil
        panicked := err.Okay?;
        return;
      }
      var sc := scLister[name];
      var sccapName := sc.name;
      if sccapName == "" {
        return;
      }
      if sc.val.provisioner !in pcapLister {
        return;
      }
      var pcap := pcapLister[sc.val.provisioner];
      var snap := Look(snapLister, sc.name);
      if sccapName !in sccapLister {
        var built: StorageClassCapability?;
        panicked, built := NewSccap(Some(sc), snap, Some(pcap));
        assert BuiltAs(panicked, built) == BuiltBy(Ends(s, ReadSc(name)));
        if panicked || built == null {
          panicked := true;
          return;
        }
        var err := api.CreateCap(built, fault);
        ok := err.Okay?;
        return;
      }
      var sccap := sccapLister[sccapName];
      var built: StorageClassCapability?;
      panicked, built := UpdateSccap(sccap, Some(sc), snap, Some(pcap));
      assert BuiltAs(panicked, built) == BuiltBy(Ends(s, ReadSc(name)));
      if panicked || built == null {
        panicked := true;
        return;
      }
      var err := api.UpdateCap(built, fault);
      ok := err.Okay?;
    }

    /** processNextWorkItem: false when the queue has been shut down and is empty.  A panic takes the process
        with it. */
    method ProcessNextWorkItem(fault: Fault) returns (again: bool, panicked: bool)
      modifies this`workqueue, api
      ensures again <==> old(workqueue).order != []
      ensures !again ==> !panicked && workqueue == old(workqueue) && api.caps == old(api.caps) && api.clock == old(api.clock)
      ensures again ==> Worked(old(Snapshot()), Snapshot(), panicked, fault)
    {
      hide KeyOutcome, Cached, Q.Done;
      again, panicked := false, false;
      if workqueue.order == [] {
        return;
      }
      again := true;
      var key := workqueue.order[0];
      ghost var s := Snapshot();
      workqueue := Q.Get(workqueue);
      SameCached();
      ghost var t := Snapshot();
      SameKeyOutcome(s, t, key, fault);
      var ok: bool;
      panicked, ok := SyncHandler(key, fault);
      SameCached();
      if panicked {
      } else if !ok {
        workqueue := Q.AddRateLimited(workqueue, key);
      } else {
        workqueue := Q.Forget(workqueue, key);
      }
      workqueue := Q.Done(workqueue, key);
      SameCached();
    }
  }
}
