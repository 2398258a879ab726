/** Why draining needs capability events to be delivered: a run of the program, from an empty server on,
    that leads into an endless loop of refused writes. */
module Endless {
  import opened Kube
  import opened Capability
  import opened Reconcile
  import opened ReconcileBase
  import opened ReconcileRuns
  import opened Drain
  import opened DrainRuns
  import opened Sync
  import opened Losses
  import Q = WorkQueue

  /** A worker about to create a capability that exists, because the event that would tell it so is
      not delivered: its position in the loop of fire, get, four reads, create, requeue and done. */
  ghost predicate Retrying(s: State, i: nat, k: string, phase: nat) {
    && i < |s.workers| && k != "" && k in s.sc.cache && k !in s.cap.cache && k in s.cap.feed.store
    && s.sc.cache[k].name == k && s.sc.cache[k].val.allowExpansion.Some?
    && s.sc.cache[k].val.provisioner in s.pcap.cache
    && var sc := s.sc.cache[k];
       var pcap := s.pcap.cache[sc.val.provisioner];
       var snap := Look(s.snap.cache, k);
       && s.workers[i] == (match phase
                           case 0 => Idle
                           case 1 => Idle
                           case 2 => ReadSc(k)
                           case 3 => ReadPcap(k, sc)
                           case 4 => ReadSnap(k, sc, pcap)
                           case 5 => ReadCap(k, sc, pcap, snap)
                           case 6 => Save(k, sc, pcap, snap, None)
                           case 7 => Settle(k, false)
                           case _ => Close(k))
       && s.queue.order == (if phase == 1 then [k] else [])
       && s.queue.dirty == (if phase == 1 then {k} else {})
       && s.queue.processing == (if phase < 2 then {} else {k})
       && s.queue.delayed == (if phase == 0 || phase == 8 then {k} else {})
  }

  ghost function RetryStep(i: nat, k: string, n: nat): Step {
    if n % 9 == 0 then Fire(k) else Work(i, NoFault, NO_BOOT)
  }

  lemma RetryingGoesOn(s: State, i: nat, k: string, n: nat)
    requires Retrying(s, i, k, n % 9)
    ensures Draining(RetryStep(i, k, n)) && Enabled(s, RetryStep(i, k, n))
    ensures Retrying(Next(s, RetryStep(i, k, n)), i, k, (n + 1) % 9)
  {
    assert (n + 1) % 9 == if n % 9 == 8 then 0 else n % 9 + 1;
  }

  ghost function RetryState(s: State, i: nat, k: string, n: nat): State {
    if n == 0 then s
    else
      var t := RetryState(s, i, k, n - 1);
      if Enabled(t, RetryStep(i, k, n - 1)) then Next(t, RetryStep(i, k, n - 1)) else t
  }

  lemma {:induction false} RetryingForever(s: State, i: nat, k: string, n: nat)
    requires Retrying(s, i, k, 0)
    ensures Retrying(RetryState(s, i, k, n), i, k, n % 9)
  {
    hide Retrying, Enabled, Next, RetryStep;
    if n > 0 {
      RetryingForever(s, i, k, n - 1);
      RetryingGoesOn(RetryState(s, i, k, n - 1), i, k, n - 1);
    }
  }

  ghost function Retries(s: State, i: nat, k: string): nat -> State {
    (n: nat) => RetryState(s, i, k, n)
  }

  ghost function RetrySteps(i: nat, k: string): nat -> Step {
    (n: nat) => RetryStep(i, k, n)
  }

  lemma MissedEvent(s: State, i: nat, k: string)
    requires Base(s) && Retrying(s, i, k, 0)
    ensures s.cap.feed.wire != []
  {
    hide ChannelOk, Q.Wf, Staffed, Accounted, ReadsOk;
    if s.cap.feed.wire == [] {
      QuietCache(s.cap, s.clock, k);
    }
  }

  /** Without delivery the retries need not end: this run is endless, and what it lacks is fairness. */
  lemma UnfairDrainIsEndless(s: State, i: nat, k: string)
    requires Base(s) && Retrying(s, i, k, 0)
    ensures EndlessDrain(Retries(s, i, k), RetrySteps(i, k))
    ensures !Fair(Retries(s, i, k), RetrySteps(i, k))
  {
    hide Base, Retrying, Enabled, Next, Draining;
    forall n: nat
      ensures Follows(Retries(s, i, k), RetrySteps(i, k), n)
    {
      RetryingForever(s, i, k, n);
      RetryingGoesOn(RetryState(s, i, k, n), i, k, n);
    }
    MissedEvent(s, i, k);
    assert Retries(s, i, k)(0) == s;
    assert !DeliveredAfter(RetrySteps(i, k), 0);
  }

  // ---------------------------------------------------------------- how a run gets there

  lemma Extend(s: State, steps: seq<Step>, step: Step) returns (t: State)
    requires Legal(s, steps) && Enabled(Run(s, steps), step)
    ensures Legal(s, steps + [step]) && t == Run(s, steps + [step]) == Next(Run(s, steps), step)
  {
    hide Enabled, Next;
    OneStep(Run(s, steps), step);
    RunConcat(s, steps, [step]);
    t := Run(s, steps + [step]);
  }

  /** A worker waits, the one StorageClass there is has a known provisioner, and no capability is cached. */
  ghost predicate Primed(s: State, k: string) {
    && s.sc.cache.Keys == {k} && s.sc.cache[k].name == k && s.sc.cache[k].val == StorageClass(PROVISIONER, Some(true))
    && PROVISIONER in s.pcap.cache && s.pcap.cache[PROVISIONER].name == PROVISIONER && s.cap.cache == map[]
    && |s.workers| > 0 && s.workers[0] == Idle
    && s.queue.processing == {} && s.queue.delayed == {}
  }

  /** The provisioner's notification has yet to be handled. */
  predicate Untold(s: State) {
    PROVISIONER in s.pcap.cache && s.pcap.notes == [Added(s.pcap.cache[PROVISIONER])]
  }

  predicate Queued(s: State, k: string) {
    s.queue.order == [k] && s.queue.dirty == {k}
  }

  lemma PrimeCaches(s: State, k: string) returns (steps: seq<Step>, t: State)
    requires Init(s) && |s.workers| > 0
    ensures Legal(s, steps) && t == Run(s, steps)
    ensures Primed(t, k) && Untold(t) && k !in t.cap.feed.store && t.queue == Q.EMPTY
    ensures t.sc.notes != [] && t.sc.notes[0].Added? && t.sc.notes[0].obj.name == k
  {
    hide Legal, Run;
    steps := [PutPcap(PROVISIONER, P_SPEC), PutSc(k, StorageClass(PROVISIONER, Some(true))), DeliverPcap(false)];
    ThreeSteps(s, steps[0], steps[1], steps[2]);
    t := Extend(s, steps, DeliverSc(false));
    steps := steps + [DeliverSc(false)];
  }

  lemma Prime(s: State, k: string) returns (steps: seq<Step>)
    requires Init(s) && |s.workers| > 0
    ensures Legal(s, steps) && Primed(Run(s, steps), k) && Queued(Run(s, steps), k) && Untold(Run(s, steps))
    ensures k !in Run(s, steps).cap.feed.store
  {
    hide Legal, Run, Init;
    var caches, t := PrimeCaches(s, k);
    var queued := HandleScObject(t.sc.notes[0]);
    assert queued == [k] && queued[1..] == [];
    assert Q.AddAll(t.queue, queued) == Q.AddAll(Q.Add(t.queue, k), []) == Q.Add(t.queue, k);
    var _ := Extend(s, caches, HandleSc);
    steps := caches + [HandleSc];
  }

  /** The sync creates the capability; its event stays in flight. */
  lemma FirstItem(t: State, k: string) returns (steps: seq<Step>)
    requires Primed(t, k) && Queued(t, k) && k != "" && k !in t.cap.feed.store
    ensures Legal(t, steps)
    ensures var u := Run(t, steps);
            Primed(u, k) && u.pcap == t.pcap && u.queue.order == [] && u.queue.dirty == {} && k in u.cap.feed.store
  {
    hide Legal, Run;
    EndsAt(t, k);
    steps := ItemIsRun(t, 0, NoFault, NO_BOOT);
  }

  /** The provisioner's notification enqueues the key again, and the lagging cache has the sync create
      once more. */
  lemma SecondItem(t: State, k: string) returns (steps: seq<Step>)
    requires Primed(t, k) && Queued(t, k) && k != "" && k in t.cap.feed.store
    ensures Legal(t, steps) && Retrying(Run(t, steps), 0, k, 0)
  {
    hide Legal, Run;
    EndsAt(t, k);
    steps := ItemIsRun(t, 0, NoFault, NO_BOOT);
  }

  /** From an empty server, a handful of ordinary steps lead into the loop: the controller creates a
      capability, hears of its provisioner, and, the event of its own write still undelivered, tries
      to create it again. */
  lemma LoopIsReached(s: State, k: string) returns (steps: seq<Step>)
    requires Init(s) && |s.workers| > 0 && k != ""
    ensures Legal(s, steps) && Base(Run(s, steps)) && Retrying(Run(s, steps), 0, k, 0)
  {
    hide Legal, Run, Base, Init, Primed, Retrying;
    var prime := Prime(s, k);
    var first := FirstItem(Run(s, prime), k);
    RunConcat(s, prime, first);
    var u := Run(s, prime + first);
    HearsAgain(u, k);
    var v := Extend(s, prime + first, HandlePcap([k]));
    var second := SecondItem(v, k);
    steps := prime + first + [HandlePcap([k])] + second;
    RunConcat(s, prime + first + [HandlePcap([k])], second);
    InitBase(s);
    RunBase(s, steps);
  }

  lemma HearsAgain(u: State, k: string)
    requires Primed(u, k) && Untold(u) && u.queue.order == [] && u.queue.dirty == {} && k in u.cap.feed.store
    ensures Enabled(u, HandlePcap([k]))
    ensures var v := Next(u, HandlePcap([k])); Primed(v, k) && Queued(v, k) && k in v.cap.feed.store
  {
    assert [k][1..] == [];
    assert Q.AddAll(u.queue, [k]) == Q.AddAll(Q.Add(u.queue, k), []) == Q.Add(u.queue, k);
  }
}
