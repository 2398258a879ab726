/** Termination over whole runs: every fair run of a draining controller ends, and it ends right. */
module DrainRuns {
  import opened Kube
  import opened Capability
  import opened Reconcile
  import opened ReconcileBase
  import opened ReconcileSafety
  import opened ReconcileRuns
  import opened Drain
  import Q = WorkQueue

  /** The i-th step leads from the i-th state to the next. */
  ghost predicate Follows(states: nat -> State, steps: nat -> Step, i: nat) {
    Draining(steps(i)) && Enabled(states(i), steps(i)) && states(i + 1) == Next(states(i), steps(i))
  }

  /** An infinite run of the controller left to itself. */
  ghost predicate EndlessDrain(states: nat -> State, steps: nat -> Step) {
    forall i: nat :: Follows(states, steps, i)
  }

  ghost predicate DeliveredAfter(steps: nat -> Step, i: nat) {
    exists j: nat :: i <= j && steps(j).DeliverCap?
  }

  /** A capability event in flight is eventually followed by a delivery of such an event. */
  ghost predicate Fair(states: nat -> State, steps: nat -> Step) {
    forall i: nat :: states(i).cap.feed.wire != [] ==> DeliveredAfter(steps, i)
  }

  lemma {:induction false} EndlessBase(states: nat -> State, steps: nat -> Step, i: nat)
    requires EndlessDrain(states, steps) && Base(states(0)) && Buildable(states(0))
    ensures Base(states(i)) && Buildable(states(i))
  {
    hide Base, Buildable, Enabled, Next, Draining;
    if i > 0 {
      EndlessBase(states, steps, i - 1);
      assert Follows(states, steps, i - 1);
      StepBase(states(i - 1), steps(i - 1));
      DrainStaysBuildable(states(i - 1), steps(i - 1));
    }
  }

  /** Up to step j the first four components never rise, and if j delivers they have sunk. */
  lemma {:induction false} SinksBy(states: nat -> State, steps: nat -> Step, i: nat, j: nat)
    requires EndlessDrain(states, steps) && Base(states(0)) && Buildable(states(0)) && i <= j
    ensures i < j ==> Sinks(RankOf(states(j)), RankOf(states(i))) || Level(RankOf(states(j)), RankOf(states(i)))
    ensures steps(j).DeliverCap? ==> Sinks(RankOf(states(j + 1)), RankOf(states(i)))
    decreases j - i
  {
    hide Base, Buildable, Enabled, Next, RankOf, StaleRetry;
    EndlessBase(states, steps, j);
    assert Follows(states, steps, j);
    DrainRank(states(j), steps(j));
    if i < j {
      SinksBy(states, steps, i, j - 1);
      EndlessBase(states, steps, j - 1);
      assert Follows(states, steps, j - 1);
      DrainRank(states(j - 1), steps(j - 1));
    }
  }

  lemma NoStaleRetry(s: State, step: Step)
    requires s.cap.feed.wire == []
    ensures !StaleRetry(s, step)
  {
  }

  lemma {:induction false} NoEndlessDrain(states: nat -> State, steps: nat -> Step, i: nat)
    requires EndlessDrain(states, steps) && Fair(states, steps) && Base(states(0)) && Buildable(states(0))
    ensures false
    decreases RankOf(states(i)).inputs, RankOf(states(i)).stale, RankOf(states(i)).wrong, RankOf(states(i)).events,
              RankOf(states(i)).saves, RankOf(states(i)).notes, RankOf(states(i)).chores
  {
    hide Base, Buildable, Enabled, Next, RankOf, StaleRetry, Draining;
    if states(i).cap.feed.wire == [] {
      EndlessBase(states, steps, i);
      assert Follows(states, steps, i);
      DrainRank(states(i), steps(i));
      NoStaleRetry(states(i), steps(i));
      NoEndlessDrain(states, steps, i + 1);
    } else {
      assert DeliveredAfter(steps, i);
      var j: nat :| i <= j && steps(j).DeliverCap?;
      SinksBy(states, steps, i, j);
      NoEndlessDrain(states, steps, j + 1);
    }
  }

  /** Termination: from any base state whose StorageClasses can be built, no infinite run is fair. */
  lemma DrainTerminates(states: nat -> State, steps: nat -> Step)
    requires Base(states(0)) && Buildable(states(0))
    ensures !(EndlessDrain(states, steps) && Fair(states, steps))
  {
    hide Base, Buildable, EndlessDrain, Fair;
    if EndlessDrain(states, steps) && Fair(states, steps) {
      NoEndlessDrain(states, steps, 0);
    }
  }

  // ---------------------------------------------------------------- a run is only ever stuck at rest

  lemma {:induction false} ListSet(keys: set<string>) returns (names: seq<string>)
    ensures forall k :: k in names <==> k in keys
    decreases |keys|
  {
    names := [];
    if keys != {} {
      var k :| k in keys;
      var rest := ListSet(keys - {k});
      names := [k] + rest;
    }
  }

  lemma ListBoot(s: State) returns (boot: Boot)
    ensures BootOk(s, boot)
  {
    var sc := ListSet(s.sc.feed.store.Keys);
    var snap := ListSet(s.snap.feed.store.Keys);
    var pcap := ListSet(s.pcap.feed.store.Keys);
    var cap := ListSet(s.cap.feed.store.Keys);
    boot := Boot(sc, snap, pcap, cap);
  }

  /** A step a draining controller can take and that loses nothing. */
  ghost predicate Good(s: State, step: Step) {
    Draining(step) && Enabled(s, step) && forall k :: !Lossy(s, step, k)
  }

  lemma BusyWorker(s: State, i: nat) returns (step: Step)
    requires i < |s.workers| && (s.workers[i].Idle? ==> s.queue.order != [])
    ensures Good(s, step) && !step.DeliverCap?
  {
    var boot := Boot([], [], [], []);
    if Panics(s, s.workers[i], NoFault) {
      boot := ListBoot(Wreck(s, s.workers[i], NoFault));
    }
    step := Work(i, NoFault, boot);
  }

  /** With at least one worker, some step is possible unless everything is at rest; and capability
      events can always be delivered first. */
  lemma NotStuck(s: State) returns (step: Step)
    requires |s.workers| > 0 && !Quiescent(s)
    ensures Good(s, step)
    ensures s.cap.feed.wire != [] ==> step.DeliverCap?
  {
    hide Panics, PcapKeys, HandleScObject, EnqueueSccap, BootOk;
    if s.cap.feed.wire != [] {
      step := DeliverCap(false);
    } else if s.sc.feed.wire != [] {
      step := DeliverSc(false);
    } else if s.snap.feed.wire != [] {
      step := DeliverSnap(false);
    } else if s.pcap.feed.wire != [] {
      step := DeliverPcap(false);
    } else if s.sc.notes != [] {
      step := HandleSc;
    } else if s.snap.notes != [] {
      step := HandleSnap;
    } else if s.cap.notes != [] {
      step := HandleCap;
    } else if s.pcap.notes != [] {
      var found := ListSet(PcapKeys(s.sc.cache, s.pcap.notes[0]));
      step := HandlePcap(found);
    } else if s.queue.delayed != {} {
      var k :| k in s.queue.delayed;
      step := Fire(k);
    } else if s.queue.order != [] {
      step := BusyWorker(s, 0);
    } else {
      var i :| 0 <= i < |s.workers| && !s.workers[i].Idle?;
      step := BusyWorker(s, i);
    }
  }

  ghost predicate AllGood(s: State, steps: seq<Step>)
    requires Legal(s, steps)
    decreases |steps|
  {
    steps == [] || (Good(s, steps[0]) && AllGood(Next(s, steps[0]), steps[1..]))
  }

  lemma SameCrew(s: State, step: Step)
    requires Enabled(s, step)
    ensures |Next(s, step).workers| == |s.workers|
  {
  }

  /** From anywhere, delivering capability events first, the controller works itself to rest. */
  lemma {:induction false} DrainsToRest(s: State) returns (steps: seq<Step>)
    requires Base(s) && Buildable(s) && |s.workers| > 0
    ensures Legal(s, steps) && AllGood(s, steps) && Quiescent(Run(s, steps))
    decreases RankOf(s).inputs, RankOf(s).stale, RankOf(s).wrong, RankOf(s).events,
              RankOf(s).saves, RankOf(s).notes, RankOf(s).chores
  {
    hide Base, Buildable, Enabled, Next, RankOf, StaleRetry, Draining, Quiescent, Lossy;
    steps := [];
    if !Quiescent(s) {
      var step := NotStuck(s);
      DrainRank(s, step);
      if s.cap.feed.wire == [] {
        NoStaleRetry(s, step);
      } else {
        DeliverRetriesNothing(s, step);
      }
      StepBase(s, step);
      DrainStaysBuildable(s, step);
      SameCrew(s, step);
      var rest := DrainsToRest(Next(s, step));
      steps := [step] + rest;
      assert steps[1..] == rest;
    }
  }

  lemma DeliverRetriesNothing(s: State, step: Step)
    requires step.DeliverCap?
    ensures !StaleRetry(s, step)
  {
  }

  lemma {:induction false} AllGoodLossless(s: State, steps: seq<Step>, k: string)
    requires Legal(s, steps) && AllGood(s, steps)
    ensures Lossless(s, steps, k)
    decreases |steps|
  {
    hide Enabled, Next, Draining, Lossy;
    if steps != [] {
      AllGoodLossless(Next(s, steps[0]), steps[1..], k);
    }
  }

  /** A drain leaves the server's inputs alone and keeps all its workers. */
  lemma {:induction false} AllGoodSameServer(s: State, steps: seq<Step>)
    requires Legal(s, steps) && AllGood(s, steps)
    ensures SameServer(s, Run(s, steps)) && |Run(s, steps).workers| == |s.workers|
    decreases |steps|
  {
    hide Enabled, Next, Draining, Lossy;
    if steps != [] {
      DrainSameServer(s, steps[0]);
      SameCrew(s, steps[0]);
      AllGoodSameServer(Next(s, steps[0]), steps[1..]);
    }
  }

  /** Convergence: from any state in which no wakeup is lost, some draining leads to a rest at which
      every key agrees with the server's own objects. */
  lemma Converges(t: State) returns (steps: seq<Step>)
    requires Base(t) && Buildable(t) && |t.workers| > 0 && forall k :: Covered(t, k)
    ensures Legal(t, steps) && AllGood(t, steps) && Quiescent(Run(t, steps))
    ensures forall k :: Agree(StoreView(Run(t, steps), k))
  {
    hide Base, Buildable, Enabled, RankOf, Quiescent, Agree, Covered, Good;
    steps := DrainsToRest(t);
    RunBase(t, steps);
    forall k
      ensures Agree(StoreView(Run(t, steps), k))
    {
      assert Covered(t, k);
      AllGoodLossless(t, steps, k);
      RunKeeps(t, steps, k);
      AtRest(Run(t, steps), k);
    }
  }

  lemma DrainNeverRests(t: State, steps: seq<Step>, k: string)
    requires Base(t) && Covered(t, k) && Unbuildable(t, k)
    requires Legal(t, steps) && AllGood(t, steps)
    ensures !Quiescent(Run(t, steps))
  {
    hide Base, Covered, Legal, Run, AllGood, Quiescent;
    AllGoodLossless(t, steps, k);
    AllGoodSameServer(t, steps);
    NilExpansionNeverRests(t, steps, k);
  }

  /** Exactly when a controller that is left alone can come to rest: when every StorageClass with a known
      provisioner sets AllowVolumeExpansion. */
  lemma RestsExactly(t: State)
    requires Base(t) && |t.workers| > 0 && forall k :: Covered(t, k)
    ensures Buildable(t) <==> exists steps :: Legal(t, steps) && AllGood(t, steps) && Quiescent(Run(t, steps))
  {
    hide Base, Covered, Legal, Run, AllGood, Quiescent, Agree;
    if Buildable(t) {
      var steps := Converges(t);
      assert Legal(t, steps) && AllGood(t, steps) && Quiescent(Run(t, steps));
    } else {
      var k :| k in t.sc.feed.store && k != "" && t.sc.feed.store[k].val.provisioner in t.pcap.feed.store
               && t.sc.feed.store[k].val.allowExpansion.None?;
      assert Unbuildable(t, k);
      forall steps | Legal(t, steps) && AllGood(t, steps)
        ensures !Quiescent(Run(t, steps))
      {
        DrainNeverRests(t, steps, k);
      }
    }
  }

  /** And from any state at all, once the process has been restarted. */
  lemma ConvergesAfterRestart(s: State, boot: Boot) returns (steps: seq<Step>)
    requires Base(s) && Buildable(s) && |s.workers| > 0 && BootOk(s, boot)
    ensures var t := Restart(s, boot);
            && Legal(t, steps) && AllGood(t, steps) && Quiescent(Run(t, steps))
            && forall k :: Agree(StoreView(Run(t, steps), k))
  {
    hide Base, Buildable, Enabled, RankOf, Quiescent, BootOk, Restart, Agree, Covered, Good;
    KillBuildable(s, boot);
    forall k
      ensures Covered(Restart(s, boot), k)
    {
      KillCovers(s, boot, k);
    }
    steps := Converges(Restart(s, boot));
  }

  /** Self-stabilisation: from any state at all, whatever its store, caches, queue and workers, one resync
      of the two unfiltered handlers and a drain do too. */
  lemma ConvergesAfterResyncs(s: State, pcaps: seq<string>, caps: seq<string>) returns (steps: seq<Step>)
    requires Base(s) && Buildable(s) && |s.workers| > 0
    requires Lists(pcaps, s.pcap.cache) && Lists(caps, s.cap.cache)
    ensures Legal(s, [ResyncPcap(pcaps), ResyncCap(caps)])
    ensures var t := Run(s, [ResyncPcap(pcaps), ResyncCap(caps)]);
            && Legal(t, steps) && AllGood(t, steps) && Quiescent(Run(t, steps))
            && forall k :: Agree(StoreView(Run(t, steps), k))
  {
    hide Base, Buildable, Lists, RankOf, Quiescent, Agree, Covered, Good, Lossless;
    var u := Next(s, ResyncPcap(pcaps));
    var t := Next(u, ResyncCap(caps));
    TwoSteps(s, ResyncPcap(pcaps), ResyncCap(caps));
    StepBase(s, ResyncPcap(pcaps));
    StepBase(u, ResyncCap(caps));
    assert Buildable(t) by { SameBuildable(s, t); }
    forall k
      ensures Covered(t, k)
    {
      assert Lossless(t, [], k) by { NoSteps(t, k); }
      SelfStabilises(s, pcaps, caps, [], k);
    }
    steps := Converges(t);
  }

  lemma TwoSteps(s: State, a: Step, b: Step)
    requires Enabled(s, a) && Enabled(Next(s, a), b)
    ensures Legal(s, [a, b]) && Run(s, [a, b]) == Next(Next(s, a), b)
  {
    hide Enabled, Next;
    assert [a, b][1..] == [b] && [b][1..] == [];
    assert Legal(Next(Next(s, a), b), []) && Legal(Next(s, a), [b]) && Legal(s, [a, b]);
    assert Run(s, [a, b]) == Run(Next(s, a), [b]) == Run(Next(Next(s, a), b), []);
  }

  lemma NoSteps(t: State, k: string)
    ensures Legal(t, []) && Lossless(t, [], k)
  {
  }

  lemma SameBuildable(s: State, t: State)
    requires Buildable(s) && SameServer(s, t)
    ensures Buildable(t)
  {
  }

  lemma KillBuildable(s: State, boot: Boot)
    requires Base(s) && Buildable(s) && BootOk(s, boot)
    ensures Restart(s, boot) == Next(s, Kill(boot))
    ensures Base(Restart(s, boot)) && Buildable(Restart(s, boot)) && |Restart(s, boot).workers| == |s.workers|
  {
    hide ChannelOk, Q.Wf, Staffed, Accounted, ReadsOk;
    KillBase(s, boot);
  }

  // ---------------------------------------------------------------- confluence of concurrent drains

  ghost predicate AllDraining(steps: seq<Step>) {
    forall i :: 0 <= i < |steps| ==> Draining(steps[i])
  }

  /** A key that has a StorageClass and is owed nothing is left as it is. */
  lemma UnowedStays(s: State, step: Step, k: string)
    requires Base(s) && Informed(s) && Draining(step) && Enabled(s, step)
    requires k in s.sc.cache && !Owed(s, k)
    ensures SpecAt(Next(s, step), k) == SpecAt(s, k)
  {
    hide Base, Informed, WorkEnabled, WorkNext, PcapKeys, Q.AddAll, Q.Fire, Apply, NoteOf;
    if step.Work? {
      UnowedWrite(s, step.i, step.boot, k);
    }
  }

  lemma UnowedWrite(s: State, i: nat, boot: Boot, k: string)
    requires Base(s) && Informed(s) && WorkEnabled(s, i, NoFault, boot)
    requires k in s.sc.cache && !Owed(s, k)
    ensures SpecAt(WorkNext(s, i, NoFault, boot), k) == SpecAt(s, k)
  {
    hide ChannelsOk, Q.Wf, Staffed, Accounted, BootOk, Sent, BuiltBy, StaleWorkers, Wired;
    var w := s.workers[i];
    if w.Remove? || (w.Save? && BuiltBy(w).Made?) {
      assert ReadsOk(w, s.cap.feed.issued);
      NoStale(s, i);
      SentLocal(s, w, NoFault, k);
    }
  }

  /** With all inputs delivered the caches hold the server's inputs. */
  lemma InformedCaches(s: State)
    requires ChannelsOk(s) && Informed(s)
    ensures s.sc.cache == s.sc.feed.store && s.snap.cache == s.snap.feed.store && s.pcap.cache == s.pcap.feed.store
  {
    hide Genuine, Newer, NameKeyed, StaleWorkers;
  }

  lemma {:induction false} DrainLeaves(s: State, steps: seq<Step>, k: string)
    requires Base(s) && Informed(s) && Legal(s, steps) && AllDraining(steps)
    requires k in s.sc.cache && !Owed(s, k)
    ensures SpecAt(Run(s, steps), k) == SpecAt(s, k)
    decreases |steps|
  {
    hide ChannelsOk, Q.Wf, Staffed, Accounted, ReadersOk, Informed, Enabled, Next, Draining, SpecAt;
    if steps != [] {
      var t := Next(s, steps[0]);
      assert Draining(steps[0]);
      StepBase(s, steps[0]);
      DrainStaysInformed(s, steps[0]);
      DrainSameServer(s, steps[0]);
      InformedCaches(s);
      InformedCaches(t);
      UnowedStays(s, steps[0], k);
      DrainLeaves(t, steps[1..], k);
    }
  }

  lemma {:induction false} DrainsSameServer(s: State, steps: seq<Step>)
    requires Legal(s, steps) && AllDraining(steps)
    ensures SameServer(s, Run(s, steps))
    decreases |steps|
  {
    hide Enabled, Next, Draining;
    if steps != [] {
      assert Draining(steps[0]);
      DrainSameServer(s, steps[0]);
      DrainsSameServer(Next(s, steps[0]), steps[1..]);
    }
  }

  /** Confluence, with any number of workers, from any base state: let the controller work.  However the
      workers interleave, whichever keys they take first, whether they panic and start again or not,
      every key that is covered ends with the same spec at rest.  A key without obligation keeps the
      spec it has once every input has been delivered and no worker holds an outdated one; before that
      an outdated worker may still write to it. */
  lemma DrainsAgree(s: State, xs: seq<Step>, ys: seq<Step>, k: string)
    requires Base(s) && Covered(s, k) && (Obliging(Inputs(s, k)) || Informed(s))
    requires Legal(s, xs) && AllDraining(xs) && Lossless(s, xs, k) && Quiescent(Run(s, xs))
    requires Legal(s, ys) && AllDraining(ys) && Lossless(s, ys, k) && Quiescent(Run(s, ys))
    ensures SpecAt(Run(s, xs), k) == SpecAt(Run(s, ys), k)
  {
    hide Q.Wf, Staffed, Accounted, ReadersOk, ChannelsOk, Informed, Legal, AllDraining, Lossless, Quiescent, Covered, Agree, SpecAt;
    DrainsSameServer(s, xs);
    DrainsSameServer(s, ys);
    if Obliging(Inputs(s, k)) {
      DrainEndsRight(s, xs, k);
      DrainEndsRight(s, ys, k);
      AgreedSpec(Run(s, xs), Run(s, ys), k);
    } else {
      InformedCaches(s);
      DrainLeaves(s, xs, k);
      DrainLeaves(s, ys, k);
    }
  }

  lemma DrainEndsRight(s: State, steps: seq<Step>, k: string)
    requires Base(s) && Covered(s, k) && Legal(s, steps) && Lossless(s, steps, k) && Quiescent(Run(s, steps))
    ensures Agree(StoreView(Run(s, steps), k))
  {
    hide Base, Covered, Legal, Lossless, Run, Quiescent, Agree;
    RunBase(s, steps);
    RunKeeps(s, steps, k);
    AtRest(Run(s, steps), k);
  }
}
