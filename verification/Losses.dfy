/** The two defects really lose wakeups: exactly when a step does, and runs of the program, from an empty
    server on, that come to rest with a wrong capability. */
module Losses {
  import opened Kube
  import opened Capability
  import opened Reconcile
  import opened ReconcileBase
  import opened ReconcileSafety
  import opened ReconcileRuns
  import opened Drain
  import opened DrainRuns
  import opened Sync
  import Q = WorkQueue

  // ---------------------------------------------------------------- exactly when a step loses a wakeup

  /** The capability of the key shows snapshot flags because of its cached snapshot class. */
  predicate ShowsSnapshots(s: State, k: string) {
    && Owed(s, k) && k in s.snap.cache
    && s.snap.cache[k].val.driver == s.sc.cache[k].val.provisioner
    && s.pcap.cache[s.sc.cache[k].val.provisioner].val.features.snapshot != NO_SNAPSHOT
  }

  /** After a strike the key is wrong, except that a snapshot class may have made no difference. */
  lemma StrikeIsWrong(s: State, step: Step, k: string)
    requires Enabled(s, step) && Strikes(s, step, k) && !step.DeliverSnap?
    ensures !Agree(ViewAt(Next(s, step), k))
  {
    hide BootOk, Replied, NoteOf;
    if step.Work? {
      RefusedIsWrong(s, step.i, step.boot, k);
    }
  }

  lemma RefusedIsWrong(s: State, i: nat, boot: Boot, k: string)
    requires WorkEnabled(s, i, Rejected, boot) && Strikes(s, Work(i, Rejected, boot), k)
    ensures !Agree(ViewAt(WorkNext(s, i, Rejected, boot), k))
  {
    hide BootOk;
  }

  /** The exact condition, over all steps of all kinds: a covered key is covered after a step if and only if
      the step is not Lossy for it, or a worker that holds the key has read nothing yet that is not true
      any more, or, for a snapshot class, its absence changes nothing.  handleScObject takes the object
      out of a tombstone and then enqueues the tombstone, which has no name; and syncHandler returns nil
      when the API server has refused to delete. */
  lemma LossIsExact(s: State, step: Step, k: string)
    requires Base(s) && Enabled(s, step) && Covered(s, k)
    ensures Covered(Next(s, step), k)
            <==> || !Lossy(s, step, k)
                 || Attended(Next(s, step), k)
                 || (step.DeliverSnap? && Agree(ViewAt(Next(s, step), k)))
  {
    hide Base, Enabled, Next, Attended, Strikes, Heralded, Pending, Agree, ViewAt;
    if !Lossy(s, step, k) {
      StepKeeps(s, step, k);
    } else if !step.DeliverSnap? {
      StrikeIsWrong(s, step, k);
    }
  }

  /** No worker but the one whose step this is holds the key. */
  ghost predicate Alone(s: State, step: Step, k: string) {
    forall i :: 0 <= i < |s.workers| && Holds(s.workers[i], k) ==> step.Work? && step.i == i
  }

  lemma NobodyAttends(s: State, step: Step, k: string)
    requires Enabled(s, step) && Strikes(s, step, k) && Alone(s, step, k)
    ensures !Attended(Next(s, step), k)
  {
    hide BootOk, ViewAt, Agree, Apply, NoteOf;
    var t := Next(s, step);
    if step.Work? {
      assert t.workers == s.workers[step.i := Settle(k, true)];
    } else {
      assert t.workers == s.workers;
    }
    assert forall i :: 0 <= i < |t.workers| && Holds(t.workers[i], k) ==> t.workers[i] == Settle(k, true);
  }

  /** With nothing else to vouch for it, a covered key agrees. */
  lemma AloneAgrees(s: State, k: string)
    requires Covered(s, k) && !Pending(s, k) && !Heralded(s, k)
    requires forall i :: 0 <= i < |s.workers| ==> !Holds(s.workers[i], k)
    ensures Agree(ViewAt(s, k))
  {
    hide Heralded, Agree, ViewAt;
  }

  lemma ProvisionerKeyed(s: State, k: string)
    requires ChannelsOk(s) && Owed(s, k)
    ensures s.pcap.cache[s.sc.cache[k].val.provisioner].name == s.sc.cache[k].val.provisioner
  {
  }

  /** The tombstone of a snapshot class leaves a key wrong that no worker holds and nothing announces,
      exactly if its capability shows the class. */
  lemma SnapTombstoneExactly(s: State, k: string)
    requires Base(s) && Enabled(s, DeliverSnap(true)) && Covered(s, k)
    requires Lossy(s, DeliverSnap(true), k) && Alone(s, DeliverSnap(true), k)
    ensures Agree(ViewAt(Next(s, DeliverSnap(true)), k)) <==> !ShowsSnapshots(s, k)
  {
    hide ChannelOk, Q.Wf, Staffed, Accounted, ReadsOk, Covered;
    NoteNamesAppend(s.snap.notes, NoteOf(s.snap.cache, s.snap.feed.wire[0], true), true);
    AloneAgrees(s, k);
    ProvisionerKeyed(s, k);
  }

  /** So, for a key that no other worker holds, the loss can be told from the state before the step, and
      from what the step leaves in the queue, on the wire and among the notifications. */
  lemma LossForeseen(s: State, step: Step, k: string)
    requires Base(s) && Enabled(s, step) && Covered(s, k) && Alone(s, step, k)
    ensures Covered(Next(s, step), k) <==> !(Lossy(s, step, k) && (step.DeliverSnap? ==> ShowsSnapshots(s, k)))
  {
    hide Base, Covered, Enabled, Next, Attended, Alone, Strikes, Announced, ShowsSnapshots, Agree, ViewAt;
    LossIsExact(s, step, k);
    if Lossy(s, step, k) {
      NobodyAttends(s, step, k);
      if step.DeliverSnap? {
        StruckByTombstone(s, step, k);
        SnapTombstoneExactly(s, k);
      }
    }
  }

  lemma StruckByTombstone(s: State, step: Step, k: string)
    requires Strikes(s, step, k) && step.DeliverSnap?
    ensures step == DeliverSnap(true)
  {
  }

  // ---------------------------------------------------------------- runs that come to rest wrong

  /** A run that comes to rest with nothing left to do and the wrong capability, or none, for the key. */
  ghost predicate Strands(s: State, steps: seq<Step>, k: string) {
    Legal(s, steps) && Quiescent(Run(s, steps)) && !Agree(StoreView(Run(s, steps), k))
  }

  lemma ThreeSteps(s: State, a: Step, b: Step, c: Step)
    requires Enabled(s, a) && Enabled(Next(s, a), b) && Enabled(Next(Next(s, a), b), c)
    ensures Legal(s, [a, b, c]) && Run(s, [a, b, c]) == Next(Next(Next(s, a), b), c)
  {
    hide Enabled, Next;
    OneStep(Next(Next(s, a), b), c);
    assert [a, b, c][1..] == [b, c] && [b, c][1..] == [c];
  }

  /** From any rest: delete a StorageClass that has a capability, by tombstone. */
  lemma DropScStrands(s: State, k: string)
    requires Base(s) && Quiescent(s) && k in s.sc.feed.store && k in s.cap.feed.store
    ensures Strands(s, [DropSc(k), DeliverSc(true), HandleSc], k)
  {
    hide ChannelOk, Q.Wf, Staffed, Accounted, ReadersOk;
    ThreeSteps(s, DropSc(k), DeliverSc(true), HandleSc);
  }

  /** From any rest: delete a snapshot class that a capability reflects, by tombstone. */
  lemma DropSnapStrands(s: State, k: string)
    requires Base(s) && Quiescent(s) && Agree(StoreView(s, k)) && ShowsSnapshots(s, k)
    ensures Strands(s, [DropSnap(k), DeliverSnap(true), HandleSnap], k)
  {
    hide Genuine, Newer, Q.Wf, Staffed, Accounted, ReadersOk;
    ThreeSteps(s, DropSnap(k), DeliverSnap(true), HandleSnap);
  }

  /** From any rest: delete a capability that is owed, by tombstone. */
  lemma DropCapStrands(s: State, k: string)
    requires Base(s) && Quiescent(s) && Owed(s, k) && k in s.cap.feed.store
    ensures Strands(s, [DropCap(k), DeliverCap(true), HandleCap], k)
  {
    hide Genuine, Newer, Q.Wf, Staffed, Accounted, ReadersOk;
    ThreeSteps(s, DropCap(k), DeliverCap(true), HandleCap);
  }

  /** A deletion that is delivered and handled puts its key, alone, into the queue. */
  lemma DropScQueues(s: State, k: string) returns (t: State)
    requires Base(s) && Quiescent(s) && k in s.sc.feed.store
    ensures Legal(s, [DropSc(k), DeliverSc(false), HandleSc]) && t == Run(s, [DropSc(k), DeliverSc(false), HandleSc])
    ensures t.sc.cache == t.sc.feed.store == s.sc.feed.store - {k} && t.sc.feed.wire == [] && t.sc.notes == []
    ensures t == s.(clock := t.clock, sc := t.sc, queue := t.queue) && t.queue == Q.Add(s.queue, k)
    ensures t.queue.order == [k] && t.queue.dirty == {k} && t.queue.processing == {} && t.queue.delayed == {}
  {
    hide Genuine, Newer, Staffed, Accounted, ReadersOk;
    t := Next(Next(Next(s, DropSc(k)), DeliverSc(false)), HandleSc);
    ThreeSteps(s, DropSc(k), DeliverSc(false), HandleSc);
    NothingDirty(s);
    var queued := HandleScObject(Deleted(Obj(k, s.clock, s.sc.feed.store[k].val)));
    assert queued == [k] && queued[1..] == [];
    assert Q.AddAll(s.queue, queued) == Q.AddAll(Q.Add(s.queue, k), []) == Q.Add(s.queue, k);
  }

  /** From any rest: delete a StorageClass that has a capability, and refuse the controller's call. */
  lemma RefusalStrands(s: State, k: string) returns (item: seq<Step>)
    requires Base(s) && Quiescent(s) && |s.workers| > 0 && k in s.sc.feed.store && k in s.cap.feed.store
    ensures forall j :: 0 <= j < |item| ==> item[j] == Work(0, Rejected, NO_BOOT)
    ensures Strands(s, [DropSc(k), DeliverSc(false), HandleSc] + item, k)
  {
    hide ChannelOk, Staffed, Accounted, ReadersOk, Legal, Run;
    var t := DropScQueues(s, k);
    EndsAt(t, k);
    item := ItemIsRun(t, 0, Rejected, NO_BOOT);
    RunConcat(s, [DropSc(k), DeliverSc(false), HandleSc], item);
  }

  const PROVISIONER := "p"
  const P_SPEC := PcapSpec(PluginInfo(PROVISIONER, "1"),
                           Features(true, Volume(true, true, true, true, true, EXPAND_ONLINE), Snapshot(true, true)))

  /** Somebody installs a provisioner, a snapshot class and a StorageClass. */
  function Setup(k: string): seq<Step> {
    [PutPcap(PROVISIONER, P_SPEC), PutSnap(k, SnapClass(PROVISIONER)), PutSc(k, StorageClass(PROVISIONER, Some(true)))]
  }

  lemma SetupRuns(s: State, k: string) returns (t: State)
    requires Init(s)
    ensures Legal(s, Setup(k)) && t == Run(s, Setup(k))
    ensures Base(t) && Buildable(t) && |t.workers| == |s.workers| && forall j :: Covered(t, j)
    ensures t.sc.feed.store.Keys == {k} && t.sc.feed.store[k].name == k
    ensures t.sc.feed.store[k].val == StorageClass(PROVISIONER, Some(true))
    ensures PROVISIONER in t.pcap.feed.store && t.pcap.feed.store[PROVISIONER].val == P_SPEC
    ensures k in t.snap.feed.store && t.snap.feed.store[k].val.driver == PROVISIONER
  {
    hide Base, Covered;
    var steps := Setup(k);
    ThreeSteps(s, steps[0], steps[1], steps[2]);
    t := Run(s, steps);
    InitBase(s);
    RunBase(s, steps);
    forall j
      ensures Covered(t, j)
    {
      ThreeExternal(s, steps[0], steps[1], steps[2], j);
    }
  }

  lemma ThreeExternal(s: State, a: Step, b: Step, c: Step, k: string)
    requires Base(s) && Covered(s, k) && External(a) && External(b) && External(c)
    requires Enabled(s, a) && Enabled(Next(s, a), b) && Enabled(Next(Next(s, a), b), c)
    ensures Covered(Next(Next(Next(s, a), b), c), k)
  {
    hide Base, Covered, Enabled, Next;
    StepBase(s, a);
    StepBase(Next(s, a), b);
    ExternalKeeps(s, a, k);
    ExternalKeeps(Next(s, a), b, k);
    ExternalKeeps(Next(Next(s, a), b), c, k);
  }

  /** The controller brings what Setup asks for about: a rest at which the capability that it made itself
      is right and shows the snapshot flags. */
  lemma SetupRests(s: State, k: string) returns (steps: seq<Step>)
    requires Init(s) && |s.workers| > 0 && k != ""
    ensures Legal(s, steps)
    ensures var t := Run(s, steps);
            && Base(t) && Quiescent(t) && Agree(StoreView(t, k)) && |t.workers| > 0
            && k in t.sc.feed.store && k in t.cap.feed.store && Owed(t, k) && ShowsSnapshots(t, k)
  {
    hide Base, Quiescent, Legal, Run, Agree, AllGood, Buildable, Covered;
    var ready := SetupRuns(s, k);
    var drain := Converges(ready);
    steps := Setup(k) + drain;
    RunConcat(s, Setup(k), drain);
    AllGoodSameServer(ready, drain);
    RunBase(ready, drain);
    var t := Run(s, steps);
    RestingCaches(t);
    assert Agree(StoreView(t, k));
    OwedExists(t, k);
  }

  lemma RestingCaches(s: State)
    requires Base(s) && Quiescent(s)
    ensures s.sc.cache == s.sc.feed.store && s.snap.cache == s.snap.feed.store && s.pcap.cache == s.pcap.feed.store
    ensures s.cap.cache == s.cap.feed.store
  {
    hide Genuine, Newer, Q.Wf, Staffed, Accounted, ReadersOk;
  }

  lemma OwedExists(s: State, k: string)
    requires Agree(StoreView(s, k)) && Owed(s, k) && s.sc.cache == s.sc.feed.store && s.pcap.cache == s.pcap.feed.store
    ensures k in s.cap.feed.store
  {
  }

  /** The losses are real.  Start the program on an empty server with any number of workers but none,
      and take any name: there is a run to a rest at which its capability is right, and from there a
      run to a rest at which it is wrong for each of the three tombstones, and for a refused deletion
      that was delivered and handled as it should be. */
  lemma LossesHappen(s: State, k: string) returns (steps: seq<Step>, refusal: seq<Step>)
    requires Init(s) && |s.workers| > 0 && k != ""
    ensures Legal(s, steps) && Quiescent(Run(s, steps)) && Agree(StoreView(Run(s, steps), k))
    ensures Strands(s, steps + [DropSc(k), DeliverSc(true), HandleSc], k)
    ensures Strands(s, steps + [DropSnap(k), DeliverSnap(true), HandleSnap], k)
    ensures Strands(s, steps + [DropCap(k), DeliverCap(true), HandleCap], k)
    ensures Strands(s, steps + [DropSc(k), DeliverSc(false), HandleSc] + refusal, k)
    ensures forall j :: 0 <= j < |refusal| ==> refusal[j] == Work(0, Rejected, NO_BOOT)
  {
    hide Base, Quiescent, Legal, Run, Agree, Owed, ShowsSnapshots, Init, StoreView;
    steps := SetupRests(s, k);
    var t := Run(s, steps);
    DropScStrands(t, k);
    StrandsAfter(s, steps, [DropSc(k), DeliverSc(true), HandleSc], k);
    DropSnapStrands(t, k);
    StrandsAfter(s, steps, [DropSnap(k), DeliverSnap(true), HandleSnap], k);
    DropCapStrands(t, k);
    StrandsAfter(s, steps, [DropCap(k), DeliverCap(true), HandleCap], k);
    refusal := RefusalStrands(t, k);
    StrandsAfter(s, steps, [DropSc(k), DeliverSc(false), HandleSc] + refusal, k);
    assert steps + ([DropSc(k), DeliverSc(false), HandleSc] + refusal)
        == steps + [DropSc(k), DeliverSc(false), HandleSc] + refusal;
  }

  lemma StrandsAfter(s: State, steps: seq<Step>, more: seq<Step>, k: string)
    requires Legal(s, steps) && Strands(Run(s, steps), more, k)
    ensures Strands(s, steps + more, k)
  {
    hide Legal, Run, Quiescent, Agree, StoreView;
    RunConcat(s, steps, more);
  }

  // ---------------------------------------------------------------- a run that cannot come to rest

  /** Somebody installs a provisioner and a StorageClass that does not set AllowVolumeExpansion. */
  function NilSetup(k: string): seq<Step> {
    [PutPcap(PROVISIONER, P_SPEC), PutSc(k, StorageClass(PROVISIONER, None))]
  }

  /** On an empty server that is enough: however the controller is left to work, it does not come to rest. */
  lemma NilSetupNeverRests(s: State, k: string)
    requires Init(s) && k != ""
    ensures Legal(s, NilSetup(k))
    ensures var t := Run(s, NilSetup(k));
            forall drain :: Legal(t, drain) && AllGood(t, drain) ==> !Quiescent(Run(t, drain))
  {
    hide Base, Covered, Quiescent, AllGood, Lossless;
    var steps := NilSetup(k);
    TwoSteps(s, steps[0], steps[1]);
    var t := Run(s, steps);
    InitBase(s);
    RunBase(s, steps);
    ExternalKeeps(s, steps[0], k);
    StepBase(s, steps[0]);
    ExternalKeeps(Next(s, steps[0]), steps[1], k);
    assert Unbuildable(t, k);
    forall drain | Legal(t, drain) && AllGood(t, drain)
      ensures !Quiescent(Run(t, drain))
    {
      DrainNeverRests(t, drain, k);
    }
  }
}
