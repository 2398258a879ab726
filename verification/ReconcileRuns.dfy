/** The protocol's guarantees over whole runs: what is never lost, what repairs a loss, and what
    the API server holds once nothing is left to do. */
module ReconcileRuns {
  import opened Kube
  import opened Capability
  import opened Reconcile
  import opened ReconcileBase
  import opened ReconcileSafety
  import Q = WorkQueue

  ghost predicate Lossless(s: State, steps: seq<Step>, k: string)
    requires Legal(s, steps)
    decreases |steps|
  {
    steps == [] || (!Lossy(s, steps[0], k) && Lossless(Next(s, steps[0]), steps[1..], k))
  }

  /** Any interleaving of deliveries, handlers, workers, resyncs, crashes and outside changes, with
      any faults: a key covered at the start is covered at the end. */
  lemma {:induction false} RunKeeps(s: State, steps: seq<Step>, k: string)
    requires Base(s) && Legal(s, steps) && Lossless(s, steps, k) && Covered(s, k)
    ensures Covered(Run(s, steps), k)
    decreases |steps|
  {
    hide Base, Covered, Enabled, Next, Lossy;
    if steps != [] {
      StepBase(s, steps[0]);
      StepKeeps(s, steps[0], k);
      RunKeeps(Next(s, steps[0]), steps[1..], k);
    }
  }

  lemma NoLostWakeup(s: State, steps: seq<Step>, k: string)
    requires Init(s) && Legal(s, steps) && Lossless(s, steps, k)
    ensures Covered(Run(s, steps), k)
  {
    hide Base, Covered, Enabled, Next, Lossy;
    InitBase(s);
    RunKeeps(s, steps, k);
  }

  // ---------------------------------------------------------------- at rest

  /** Nothing in flight, nothing queued or delayed, every worker waiting. */
  ghost predicate Quiescent(s: State) {
    && s.sc.feed.wire == [] && s.snap.feed.wire == [] && s.pcap.feed.wire == [] && s.cap.feed.wire == []
    && s.sc.notes == [] && s.snap.notes == [] && s.pcap.notes == [] && s.cap.notes == []
    && s.queue.order == [] && s.queue.delayed == {}
    && (forall i :: 0 <= i < |s.workers| ==> s.workers[i].Idle?)
  }

  /** One key as the API server has it. */
  function StoreView(s: State, k: string): View {
    ViewOf(s.sc.feed.store, s.pcap.feed.store, s.snap.feed.store, s.cap.feed.store, s.cap.feed.store, k)
  }

  /** At rest a covered key agrees, and not just with the caches: with the server's own objects. */
  lemma AtRest(s: State, k: string)
    requires Base(s) && Quiescent(s)
    ensures Covered(s, k) <==> Agree(StoreView(s, k))
  {
    hide Agree, Q.Wf, Genuine, Newer;
    assert s.sc.cache == s.sc.feed.store && s.snap.cache == s.snap.feed.store;
    assert s.pcap.cache == s.pcap.feed.store && s.cap.cache == s.cap.feed.store;
    assert ViewAt(s, k) == StoreView(s, k);
    assert !Attended(s, k);
    assert !Pending(s, k) by {
      NothingDirty(s);
    }
  }

  lemma NothingDirty(s: State)
    requires Q.Wf(s.queue) && Staffed(s.queue, s.workers) && Quiescent(s)
    ensures s.queue.dirty == {} && s.queue.processing == {}
  {
    forall k
      ensures k !in s.queue.dirty && k !in s.queue.processing
    {
      assert k in s.queue.processing ==> HeldBySome(s.workers, k);
      assert k !in s.queue.order;
    }
  }

  /** The main safety theorem: whatever happened on the way, when a run that loses no wakeup to a
      tombstone or a refused deletion comes to rest, every stored capability is the right one, and
      every key that should have none has none. */
  lemma RestIsRight(s: State, steps: seq<Step>, k: string)
    requires Init(s) && Legal(s, steps) && Lossless(s, steps, k) && Quiescent(Run(s, steps))
    ensures Agree(StoreView(Run(s, steps), k))
  {
    hide Base, Covered, Enabled, Next, Lossy, Quiescent, Agree;
    InitBase(s);
    RunBase(s, steps);
    NoLostWakeup(s, steps, k);
    AtRest(Run(s, steps), k);
  }

  /** What the server's objects that a capability is built from say of a key. */
  function Inputs(s: State, k: string): View {
    StoreView(s, k).(cached := None, stored := None)
  }

  /** The controller has an obligation: to have none stored, or one that describes the inputs. */
  predicate Obliging(v: View) {
    v.sc.Some? ==> v.sc.value.name != "" && v.pcap.Some?
  }

  /** The target leaves one spec: keys that agree on the same inputs, unless nothing is owed, have the
      same capability. */
  lemma AgreedSpec(a: State, b: State, k: string)
    requires Agree(StoreView(a, k)) && Agree(StoreView(b, k)) && Inputs(a, k) == Inputs(b, k)
    requires Obliging(Inputs(a, k))
    ensures SpecAt(a, k) == SpecAt(b, k)
  {
    var v, w := StoreView(a, k), StoreView(b, k);
    if v.sc.Some? {
      DescribesOne(v.stored.value.val.spec, w.stored.value.val.spec, v.sc.value, v.snap, v.pcap.value);
    }
  }

  /** Two runs, with whatever workers, faults, crashes, edits by others and order of keys, that come to
      rest on the same inputs for a key have the same spec for it, or both none, unless the controller
      has no obligation.  (Then the spec is what others left; see DrainRuns.DrainsAgree.) */
  lemma RestIsUnique(a: State, xs: seq<Step>, b: State, ys: seq<Step>, k: string)
    requires Init(a) && Legal(a, xs) && Lossless(a, xs, k) && Quiescent(Run(a, xs))
    requires Init(b) && Legal(b, ys) && Lossless(b, ys, k) && Quiescent(Run(b, ys))
    requires Inputs(Run(a, xs), k) == Inputs(Run(b, ys), k)
    requires Obliging(Inputs(Run(a, xs), k))
    ensures SpecAt(Run(a, xs), k) == SpecAt(Run(b, ys), k)
  {
    hide Init, Legal, Lossless, Run, Quiescent, Agree, Inputs, SpecAt;
    RestIsRight(a, xs, k);
    RestIsRight(b, ys, k);
    AgreedSpec(Run(a, xs), Run(b, ys), k);
  }

  // ---------------------------------------------------------------- losses and what repairs them

  /** What is known of a key without assuming it covered: covered if its StorageClass is cached,
      covered if it is not. */
  datatype Assurance = Assurance(present: bool, absent: bool)

  ghost predicate Assured(s: State, k: string, a: Assurance) {
    && (a.present && k in s.sc.cache ==> Covered(s, k))
    && (a.absent && k !in s.sc.cache ==> Covered(s, k))
  }

  predicate Restarts(s: State, step: Step) {
    step.Kill? || (step.Work? && step.i < |s.workers| && Panics(s, s.workers[step.i], step.fault))
  }

  /** How a step changes what is known: a restart restores everything, and so does whatever announces
      the key; a loss forgets everything; the resync of ProvisionerCapabilities restores the keys with
      a StorageClass and that of StorageClassCapabilities the keys without. */
  ghost function Learn(s: State, step: Step, k: string, a: Assurance): Assurance
    requires Enabled(s, step)
  {
    if Restarts(s, step) || Announced(Next(s, step), k) then Assurance(true, true)
    else if Strikes(s, step, k) then Assurance(false, false)
    else Assurance(a.present || step.ResyncPcap?, a.absent || step.ResyncCap?)
  }

  ghost function LearnAll(s: State, steps: seq<Step>, k: string, a: Assurance): Assurance
    requires Legal(s, steps)
    decreases |steps|
  {
    if steps == [] then a else LearnAll(Next(s, steps[0]), steps[1..], k, Learn(s, steps[0], k, a))
  }

  lemma PcapResyncCovers(s: State, names: seq<string>, k: string)
    requires Base(s) && Lists(names, s.pcap.cache) && k in s.sc.cache
    ensures Covered(Next(s, ResyncPcap(names)), k)
  {
    hide Attended, ChannelOk, Q.Wf, Staffed, Accounted, ReadsOk, ResyncNotes;
    var t := Next(s, ResyncPcap(names));
    NoteNamesConcat(s.pcap.notes, ResyncNotes(s.pcap.cache, names), false);
    if s.sc.cache[k].val.provisioner in s.pcap.cache {
      assert NameKeyed(s.pcap.cache) by { CachesKeyed(s); }
      ResyncNames(s.pcap.cache, names, s.sc.cache[k].val.provisioner);
    } else {
      assert Agree(ViewAt(t, k));
    }
  }

  lemma CachesKeyed(s: State)
    requires ChannelsOk(s)
    ensures NameKeyed(s.pcap.cache) && NameKeyed(s.cap.cache)
  {
  }

  lemma CapResyncCovers(s: State, names: seq<string>, k: string)
    requires Base(s) && Lists(names, s.cap.cache) && k !in s.sc.cache
    ensures Covered(Next(s, ResyncCap(names)), k)
  {
    hide Attended, ChannelOk, Q.Wf, Staffed, Accounted, ReadsOk, ResyncNotes;
    var t := Next(s, ResyncCap(names));
    NoteNamesConcat(s.cap.notes, ResyncNotes(s.cap.cache, names), false);
    if k in s.cap.cache {
      assert NameKeyed(s.cap.cache) by { CachesKeyed(s); }
      ResyncNames(s.cap.cache, names, k);
    } else if k in Wired(s.cap.feed.wire) {
    } else {
      QuietCache(s.cap, s.clock, k);
      NothingToDo(t, k);
    }
  }

  /** A StorageClass that enters or leaves the cache announces itself. */
  lemma ScMoveCovers(s: State, step: Step, k: string)
    requires Base(s) && Enabled(s, step) && !Restarts(s, step) && !Strikes(s, step, k)
    requires k in s.sc.cache <==> k !in Next(s, step).sc.cache
    ensures Covered(Next(s, step), k)
  {
    hide Agree, Fresh, ChannelOk, Q.Wf, Staffed, Accounted, ReadsOk;
    assert step.DeliverSc?;
    var e := s.sc.feed.wire[0];
    NoteNamesAppend(s.sc.notes, NoteOf(s.sc.cache, e, step.tomb), true);
    if Buried(s.sc, step.tomb, k) {
      NothingToDo(Next(s, step), k);
    } else {
      DeliveryNames(s.sc, s.clock, step.tomb, true);
    }
  }

  lemma RestartsCover(s: State, step: Step, k: string)
    requires Base(s) && Enabled(s, step) && Restarts(s, step)
    ensures Covered(Next(s, step), k)
  {
    hide Covered, BootOk, Restart, ChannelOk, Q.Wf, Staffed, Accounted, ReadsOk;
    if step.Kill? {
      RestartCovers(s, step.boot, k);
    } else {
      var w := s.workers[step.i];
      if w.Remove? {
        SentOk(s, w, step.fault);
      }
      RestartCovers(Wreck(s, w, step.fault), step.boot, k);
    }
  }

  lemma LearnSound(s: State, step: Step, k: string, a: Assurance)
    requires Base(s) && Enabled(s, step) && Assured(s, k, a)
    ensures Assured(Next(s, step), k, Learn(s, step, k, a))
  {
    hide Covered, Base, Enabled, Next, Strikes, Announced;
    var t := Next(s, step);
    if Restarts(s, step) {
      RestartsCover(s, step, k);
    } else if Announced(t, k) {
      AnnouncedIsCovered(t, k);
    } else if Strikes(s, step, k) {
    } else if (k in s.sc.cache) != (k in t.sc.cache) {
      ScMoveCovers(s, step, k);
    } else if Covered(s, k) {
      StepKeeps(s, step, k);
    } else if step.ResyncPcap? && k in s.sc.cache {
      ResyncedP(s, step, k);
    } else if step.ResyncCap? && k !in s.sc.cache {
      ResyncedC(s, step, k);
    }
  }

  lemma ResyncedP(s: State, step: Step, k: string)
    requires Base(s) && Enabled(s, step) && step.ResyncPcap? && k in s.sc.cache
    ensures Covered(Next(s, step), k)
  {
    hide Covered, Base;
    PcapResyncCovers(s, step.names, k);
  }

  lemma ResyncedC(s: State, step: Step, k: string)
    requires Base(s) && Enabled(s, step) && step.ResyncCap? && k !in s.sc.cache
    ensures Covered(Next(s, step), k)
  {
    hide Covered, Base;
    CapResyncCovers(s, step.names, k);
  }

  /** Self-stabilisation and crash safety in one: start from any store, caches, queue and workers
      that merely satisfy the base invariant, covered or not; let anything happen, losses included.
      Once both unfiltered resyncs (at any two moments, in either order), one restart, or anything that
      announces the key have happened since the last loss, the key is covered again; at rest it
      agrees with the server. */
  lemma {:induction false} RepairsSound(s: State, steps: seq<Step>, k: string, a: Assurance)
    requires Base(s) && Legal(s, steps) && Assured(s, k, a)
    ensures Assured(Run(s, steps), k, LearnAll(s, steps, k, a))
    decreases |steps|
  {
    hide Base, Covered, Enabled, Next, Lossy, Assured, Learn;
    if steps != [] {
      StepBase(s, steps[0]);
      LearnSound(s, steps[0], k, a);
      RepairsSound(Next(s, steps[0]), steps[1..], k, Learn(s, steps[0], k, a));
    }
  }

  lemma Repaired(s: State, steps: seq<Step>, k: string)
    requires Base(s) && Legal(s, steps)
    requires LearnAll(s, steps, k, Assurance(false, false)) == Assurance(true, true)
    ensures Covered(Run(s, steps), k)
    ensures Quiescent(Run(s, steps)) ==> Agree(StoreView(Run(s, steps), k))
  {
    hide Base, Covered, Enabled, Next, Lossy, Learn, Quiescent, Agree;
    RepairsSound(s, steps, k, Assurance(false, false));
    RunBase(s, steps);
    if Quiescent(Run(s, steps)) {
      AtRest(Run(s, steps), k);
    }
  }

  /** The two resyncs back to back, from any base state: all that follows without loss is covered, and
      right at rest. */
  lemma SelfStabilises(s: State, pcaps: seq<string>, caps: seq<string>, rest: seq<Step>, k: string)
    requires Base(s) && Enabled(s, ResyncPcap(pcaps)) && Enabled(Next(s, ResyncPcap(pcaps)), ResyncCap(caps))
    requires Legal(Next(Next(s, ResyncPcap(pcaps)), ResyncCap(caps)), rest)
    requires Lossless(Next(Next(s, ResyncPcap(pcaps)), ResyncCap(caps)), rest, k)
    ensures var t := Run(Next(Next(s, ResyncPcap(pcaps)), ResyncCap(caps)), rest);
            Covered(t, k) && (Quiescent(t) ==> Agree(StoreView(t, k)))
  {
    hide Base, Covered, Lossy, Enabled, Next, Quiescent, Agree;
    var u := Next(s, ResyncPcap(pcaps));
    StepBase(s, ResyncPcap(pcaps));
    StepBase(u, ResyncCap(caps));
    NotLossy(s, ResyncPcap(pcaps), k);
    NotLossy(u, ResyncCap(caps), k);
    LearnSound(s, ResyncPcap(pcaps), k, Assurance(false, false));
    LearnSound(u, ResyncCap(caps), k, Assurance(true, false));
    RunKeeps(Next(u, ResyncCap(caps)), rest, k);
    RunBase(Next(u, ResyncCap(caps)), rest);
    if Quiescent(Run(Next(u, ResyncCap(caps)), rest)) {
      AtRest(Run(Next(u, ResyncCap(caps)), rest), k);
    }
  }

  lemma NotLossy(s: State, step: Step, k: string)
    requires Resyncing(step) && Enabled(s, step)
    ensures !Lossy(s, step, k) && !Strikes(s, step, k) && !Restarts(s, step)
  {
  }

  // ---------------------------------------------------------------- what cannot rest

  /** The server has a StorageClass that a build would panic on. */
  predicate Unbuildable(s: State, k: string) {
    && k != "" && k in s.sc.feed.store && s.sc.feed.store[k].val.provisioner in s.pcap.feed.store
    && s.sc.feed.store[k].val.allowExpansion.None?
  }

  /** While a StorageClass with a nil AllowVolumeExpansion has a known provisioner, no run rests: the key
      can never agree, because each sync of it panics (Sync.PanicsExactly). */
  lemma NilExpansionNeverRests(s: State, steps: seq<Step>, k: string)
    requires Base(s) && Covered(s, k) && Legal(s, steps) && Lossless(s, steps, k)
    requires Unbuildable(Run(s, steps), k)
    ensures !Quiescent(Run(s, steps))
  {
    hide Base, Quiescent, Covered, Legal, Run, Lossless, Agree, StoreView, Unbuildable;
    RunKeeps(s, steps, k);
    RunBase(s, steps);
    var t := Run(s, steps);
    if Quiescent(t) {
      AtRest(t, k);
      UnbuildableDisagrees(t, k);
    }
  }

  lemma UnbuildableDisagrees(s: State, k: string)
    requires Base(s) && Unbuildable(s, k)
    ensures !Agree(StoreView(s, k))
  {
    hide Replay, Genuine, Newer, Q.Wf, Staffed, Accounted, ReadersOk;
  }
}
