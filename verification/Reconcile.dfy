/** The reconcile protocol of pkg/controller/controller.go as a step relation.

    Four watched kinds, their lagging caches and pending notifications, the work queue, and any
    number of workers that each run syncHandler as four separate cache reads followed by one write.
  */
module Reconcile {
  import opened Kube
  import opened Capability
  import Q = WorkQueue

  /** Where a worker is inside processNextWorkItem and syncHandler, and what it has read so far. */
  datatype Worker =
    | Idle
    | ReadSc(key: string)
    | ReadPcap(key: string, sc: ScObj)
    | ReadSnap(key: string, sc: ScObj, pcap: PcapObj)
    | ReadCap(key: string, sc: ScObj, pcap: PcapObj, snap: Option<SnapObj>)
    | Remove(key: string)
    | Save(key: string, sc: ScObj, pcap: PcapObj, snap: Option<SnapObj>, cap: Option<CapObj>)
    | Settle(key: string, ok: bool)
    | Close(key: string)

  datatype State = State(
    clock: nat,
    sc: Channel<StorageClass>, snap: Channel<SnapClass>, pcap: Channel<PcapSpec>, cap: Channel<Cap>,
    queue: Q.Queue, workers: seq<Worker>)

  /** The order in which the initial lists happen to arrive. */
  datatype Boot = Boot(sc: seq<string>, snap: seq<string>, pcap: seq<string>, cap: seq<string>)

  const NO_BOOT := Boot([], [], [], [])

  datatype Step =
    // the outside world writes to the API server
    | PutSc(name: string, scVal: StorageClass) | DropSc(name: string)
    | PutSnap(name: string, snapVal: SnapClass) | DropSnap(name: string)
    | PutPcap(name: string, pcapVal: PcapSpec) | DropPcap(name: string)
    | PutCap(name: string, capVal: Cap) | DropCap(name: string)
    // an informer applies the next event of its kind
    | DeliverSc(tomb: bool) | DeliverSnap(tomb: bool) | DeliverPcap(tomb: bool) | DeliverCap(tomb: bool)
    // an event handler runs
    | HandleSc | HandleSnap | HandlePcap(found: seq<string>) | HandleCap
    // the periodic resync of one informer
    | ResyncSc(names: seq<string>) | ResyncSnap(names: seq<string>)
    | ResyncPcap(names: seq<string>) | ResyncCap(names: seq<string>)
    // the delay of a rate-limited key is over
    | Fire(key: string)
    // a worker takes its next action; boot matters only if that action panics
    | Work(i: nat, fault: Fault, boot: Boot)
    // the process is killed and started again
    | Kill(boot: Boot)

  // ---------------------------------------------------------------- the handlers

  /** handleScObject, for StorageClasses and VolumeSnapshotClasses. */
  function HandleScObject<T>(n: Note<T>): seq<string> {
    if n.Tombstone? || (n.Updated? && n.was.rv == n.obj.rv) then [] else [n.obj.name]
  }

  /** enqueueSccap, called with an object or (in vain) with a tombstone. */
  function EnqueueSccap<T>(n: Note<T>): seq<string> {
    if n.Tombstone? then [] else [n.obj.name]
  }

  // ---------------------------------------------------------------- restart

  ghost predicate BootOk(s: State, boot: Boot) {
    && Lists(boot.sc, s.sc.feed.store)
    && Lists(boot.snap, s.snap.feed.store)
    && Lists(boot.pcap, s.pcap.feed.store)
    && Lists(boot.cap, s.cap.feed.store)
  }

  function Idlers(n: nat): seq<Worker> {
    seq(n, _ => Idle)
  }

  /** A new process.  Its memory is gone; no worker runs before the caches hold the initial lists. */
  ghost function Restart(s: State, boot: Boot): State
    requires BootOk(s, boot)
  {
    State(s.clock, Relist(s.sc, boot.sc), Relist(s.snap, boot.snap), Relist(s.pcap, boot.pcap),
          Relist(s.cap, boot.cap), Q.EMPTY, Idlers(|s.workers|))
  }

  // ---------------------------------------------------------------- a worker's next action

  function SetWorker(s: State, i: nat, w: Worker): State
    requires i < |s.workers|
  {
    s.(workers := s.workers[i := w])
  }

  /** A cache read of syncHandler, and the branch taken on it. */
  function AfterRead(s: State, w: Worker): Worker
    requires w.ReadSc? || w.ReadPcap? || w.ReadSnap? || w.ReadCap?
  {
    match w
    case ReadSc(k) =>
      if k !in s.sc.cache then Remove(k)
      else if s.sc.cache[k].name == "" then Settle(k, true)
      else ReadPcap(k, s.sc.cache[k])
    case ReadPcap(k, sc) =>
      if sc.val.provisioner !in s.pcap.cache then Settle(k, true)
      else ReadSnap(k, sc, s.pcap.cache[sc.val.provisioner])
    case ReadSnap(k, sc, pcap) => ReadCap(k, sc, pcap, Look(s.snap.cache, sc.name))
    case ReadCap(k, sc, pcap, snap) => Save(k, sc, pcap, snap, Look(s.cap.cache, sc.name))
  }

  /** What the final call of syncHandler sends: built from what was read, not from what is cached now. */
  function BuiltBy(w: Worker): Built
    requires w.Save?
  {
    if w.cap.None? then BuildNew(Some(w.sc), w.snap, Some(w.pcap))
    else BuildUpdate(w.cap, Some(w.sc), w.snap, Some(w.pcap))
  }

  function Sent(s: State, w: Worker, fault: Fault): Reply<Cap>
    requires w.Remove? || (w.Save? && BuiltBy(w).Made?)
  {
    if w.Remove? then Delete(s.cap.feed, s.clock, w.key, fault)
    else
      var o := BuiltBy(w).obj;
      if w.cap.None? then Create(s.cap.feed, s.clock, o.name, o.val, fault)
      else Update(s.cap.feed, s.clock, o, fault)
  }

  function Replied(s: State, r: Reply<Cap>): State {
    s.(clock := r.clock, cap := s.cap.(feed := r.feed))
  }

  /** A delete that succeeds makes the next line call Error on a nil error; a build that
      dereferences a nil AllowVolumeExpansion panics too.  (A builder's nil result counts as a
      panic here; PathIndependence shows that no worker ever gets one.) */
  predicate Panics(s: State, w: Worker, fault: Fault) {
    || (w.Remove? && Sent(s, w, fault).err.Okay?)
    || (w.Save? && !BuiltBy(w).Made?)
  }

  /** What is left behind at the server by a worker that panics. */
  function Wreck(s: State, w: Worker, fault: Fault): State
    requires Panics(s, w, fault)
  {
    if w.Remove? then Replied(s, Sent(s, w, fault)) else s
  }

  ghost predicate WorkEnabled(s: State, i: nat, fault: Fault, boot: Boot) {
    && i < |s.workers|
    && (s.workers[i].Idle? ==> s.queue.order != [])
    && (Panics(s, s.workers[i], fault) ==> BootOk(Wreck(s, s.workers[i], fault), boot))
  }

  ghost function WorkNext(s: State, i: nat, fault: Fault, boot: Boot): State
    requires WorkEnabled(s, i, fault, boot)
  {
    var w := s.workers[i];
    if w.Idle? then SetWorker(s, i, ReadSc(s.queue.order[0])).(queue := Q.Get(s.queue))
    else if w.Settle? then
      SetWorker(s, i, Close(w.key)).(
        queue := if w.ok then Q.Forget(s.queue, w.key) else Q.AddRateLimited(s.queue, w.key))
    else if w.Close? then SetWorker(s, i, Idle).(queue := Q.Done(s.queue, w.key))
    else if w.Remove? || w.Save? then
      if Panics(s, w, fault) then Restart(Wreck(s, w, fault), boot)
      else
        var r := Sent(s, w, fault);
        SetWorker(Replied(s, r), i, Settle(w.key, w.Remove? || r.err.Okay?))
    else SetWorker(s, i, AfterRead(s, w))
  }

  // ---------------------------------------------------------------- all steps

  ghost predicate Enabled(s: State, step: Step) {
    match step
    case PutSc(n, _) => true
    case PutSnap(n, _) => true
    case PutPcap(n, _) => true
    case PutCap(n, _) => true
    case DropSc(n) => n in s.sc.feed.store
    case DropSnap(n) => n in s.snap.feed.store
    case DropPcap(n) => n in s.pcap.feed.store
    case DropCap(n) => n in s.cap.feed.store
    case DeliverSc(_) => s.sc.feed.wire != []
    case DeliverSnap(_) => s.snap.feed.wire != []
    case DeliverPcap(_) => s.pcap.feed.wire != []
    case DeliverCap(_) => s.cap.feed.wire != []
    case HandleSc => s.sc.notes != []
    case HandleSnap => s.snap.notes != []
    case HandlePcap(found) =>
      s.pcap.notes != [] && forall k :: k in found <==> k in PcapKeys(s.sc.cache, s.pcap.notes[0])
    case HandleCap => s.cap.notes != []
    case ResyncSc(names) => Lists(names, s.sc.cache)
    case ResyncSnap(names) => Lists(names, s.snap.cache)
    case ResyncPcap(names) => Lists(names, s.pcap.cache)
    case ResyncCap(names) => Lists(names, s.cap.cache)
    case Fire(k) => k in s.queue.delayed
    case Work(i, fault, boot) => WorkEnabled(s, i, fault, boot)
    case Kill(boot) => BootOk(s, boot)
  }

  function Enqueue(s: State, keys: seq<string>): State {
    s.(queue := Q.AddAll(s.queue, keys))
  }

  ghost function Next(s: State, step: Step): State
    requires Enabled(s, step)
  {
    match step
    case PutSc(n, v) => s.(clock := s.clock + 1, sc := s.sc.(feed := FeedPut(s.sc.feed, Obj(n, s.clock, v))))
    case PutSnap(n, v) => s.(clock := s.clock + 1, snap := s.snap.(feed := FeedPut(s.snap.feed, Obj(n, s.clock, v))))
    case PutPcap(n, v) => s.(clock := s.clock + 1, pcap := s.pcap.(feed := FeedPut(s.pcap.feed, Obj(n, s.clock, v))))
    case PutCap(n, v) => s.(clock := s.clock + 1, cap := s.cap.(feed := FeedPut(s.cap.feed, Obj(n, s.clock, v))))
    case DropSc(n) => s.(clock := s.clock + 1, sc := s.sc.(feed := FeedDel(s.sc.feed, n, s.clock)))
    case DropSnap(n) => s.(clock := s.clock + 1, snap := s.snap.(feed := FeedDel(s.snap.feed, n, s.clock)))
    case DropPcap(n) => s.(clock := s.clock + 1, pcap := s.pcap.(feed := FeedDel(s.pcap.feed, n, s.clock)))
    case DropCap(n) => s.(clock := s.clock + 1, cap := s.cap.(feed := FeedDel(s.cap.feed, n, s.clock)))
    case DeliverSc(tomb) => s.(sc := Deliver(s.sc, tomb))
    case DeliverSnap(tomb) => s.(snap := Deliver(s.snap, tomb))
    case DeliverPcap(tomb) => s.(pcap := Deliver(s.pcap, tomb))
    case DeliverCap(tomb) => s.(cap := Deliver(s.cap, tomb))
    case HandleSc => Enqueue(s, HandleScObject(s.sc.notes[0])).(sc := PopNote(s.sc))
    case HandleSnap => Enqueue(s, HandleScObject(s.snap.notes[0])).(snap := PopNote(s.snap))
    case HandlePcap(found) => Enqueue(s, found).(pcap := PopNote(s.pcap))
    case HandleCap => Enqueue(s, EnqueueSccap(s.cap.notes[0])).(cap := PopNote(s.cap))
    case ResyncSc(names) => s.(sc := Resync(s.sc, names))
    case ResyncSnap(names) => s.(snap := Resync(s.snap, names))
    case ResyncPcap(names) => s.(pcap := Resync(s.pcap, names))
    case ResyncCap(names) => s.(cap := Resync(s.cap, names))
    case Fire(k) => s.(queue := Q.Fire(s.queue, k))
    case Work(i, fault, boot) => WorkNext(s, i, fault, boot)
    case Kill(boot) => Restart(s, boot)
  }

  // ---------------------------------------------------------------- runs

  ghost predicate Legal(s: State, steps: seq<Step>)
    decreases |steps|
  {
    steps == [] || (Enabled(s, steps[0]) && Legal(Next(s, steps[0]), steps[1..]))
  }

  ghost function Run(s: State, steps: seq<Step>): State
    requires Legal(s, steps)
    decreases |steps|
  {
    if steps == [] then s else Run(Next(s, steps[0]), steps[1..])
  }

  // ---------------------------------------------------------------- what is promised of a key

  function ViewAt(s: State, k: string): View {
    ViewOf(s.sc.cache, s.pcap.cache, s.snap.cache, s.cap.cache, s.cap.feed.store, k)
  }

  /** The stored spec of a key. */
  function SpecAt(s: State, k: string): Option<CapSpec> {
    if k in s.cap.feed.store then Some(s.cap.feed.store[k].val.spec) else None
  }

  predicate Holds(w: Worker, k: string) {
    !w.Idle? && w.key == k
  }

  /** Everything this worker has read is still what the caches say, so its write, if it makes one,
      will be the right one; or its sync has failed and it is about to ask for a retry. */
  ghost predicate Fresh(v: View, w: Worker) {
    match w
    case ReadSc(_) => true
    case Remove(_) => v.sc.None?
    case ReadPcap(_, sc) => v.sc == Some(sc)
    case ReadSnap(_, sc, pcap) => v.sc == Some(sc) && v.pcap == Some(pcap)
    case ReadCap(_, sc, pcap, snap) => v.sc == Some(sc) && v.pcap == Some(pcap) && v.snap == snap
    case Save(_, sc, pcap, snap, cap) =>
      v.sc == Some(sc) && v.pcap == Some(pcap) && v.snap == snap && v.cached == cap
    case Settle(_, ok) => !ok
    case _ => false
  }

  ghost predicate Attended(s: State, k: string) {
    exists i :: 0 <= i < |s.workers| && Holds(s.workers[i], k) && Fresh(ViewAt(s, k), s.workers[i])
  }

  predicate Pending(s: State, k: string) {
    k in s.queue.dirty || k in s.queue.delayed
  }

  /** An event in flight or a notification not yet handled will put the key into the queue. */
  predicate Heralded(s: State, k: string) {
    || k in Wired(s.cap.feed.wire)
    || k in NoteNames(s.cap.notes, false)
    || k in NoteNames(s.sc.notes, true)
    || k in NoteNames(s.snap.notes, true)
    || (k in s.sc.cache && s.sc.cache[k].val.provisioner in NoteNames(s.pcap.notes, false))
  }

  /** No wakeup for this key is lost. */
  ghost predicate Covered(s: State, k: string) {
    Pending(s, k) || Heralded(s, k) || Attended(s, k) || Agree(ViewAt(s, k))
  }

  /** The controller owes this key a capability, as far as its caches tell. */
  predicate Owed(s: State, k: string) {
    k in s.sc.cache && s.sc.cache[k].name != "" && s.sc.cache[k].val.provisioner in s.pcap.cache
  }

  /** A deletion at the head of the wire that arrives as a tombstone for this object. */
  predicate Buried<T>(c: Channel<T>, tomb: bool, k: string) {
    tomb && c.feed.wire != [] && c.feed.wire[0].Del? && c.feed.wire[0].obj.name == k
  }

  /** The step is one of the two defects, for this key.  A deletion that calls for work on the key arrives
      as a tombstone: its StorageClass is gone and a capability is left, or it is owed a capability
      and the snapshot class or the capability is gone.  Or the API server refuses to delete a
      capability that exists, and syncHandler returns nil regardless.  The tombstone of a
      ProvisionerCapability is none: nothing is owed to its StorageClasses any more. */
  predicate Strikes(s: State, step: Step, k: string) {
    match step
    case DeliverSc(tomb) => Buried(s.sc, tomb, k) && k in s.cap.feed.store
    case DeliverSnap(tomb) => Buried(s.snap, tomb, k) && Owed(s, k)
    case DeliverCap(tomb) => Buried(s.cap, tomb, k) && Owed(s, k) && k !in s.cap.feed.store
    case Work(i, fault, _) =>
      && i < |s.workers| && s.workers[i] == Remove(k) && fault.Rejected?
      && k !in s.sc.cache && k in s.cap.feed.store
    case _ => false
  }

  /** The key is queued, delayed or about to be queued. */
  predicate Announced(s: State, k: string) {
    Pending(s, k) || Heralded(s, k)
  }

  /** A defect strikes and nothing else announces the key: its wakeup may be lost. */
  ghost predicate Lossy(s: State, step: Step, k: string)
    requires Enabled(s, step)
  {
    Strikes(s, step, k) && !Announced(Next(s, step), k)
  }
}
