/** One sync as a whole: what an undisturbed worker makes of a key, in terms of the protocol's own
    steps, and why the order in which keys are synced does not matter. */
module Sync {
  import opened Kube
  import opened Capability
  import opened Reconcile
  import opened ReconcileBase
  import opened ReconcileSafety
  import Q = WorkQueue

  predicate Reading(w: Worker) {
    w.ReadSc? || w.ReadPcap? || w.ReadSnap? || w.ReadCap?
  }

  function ReadsLeft(w: Worker): nat {
    if w.ReadSc? then 4 else if w.ReadPcap? then 3 else if w.ReadSnap? then 2 else if w.ReadCap? then 1 else 0
  }

  /** Where a worker stands after its remaining reads, if the caches hold still. */
  function Ends(s: State, w: Worker): (r: Worker)
    ensures !Reading(r)
    ensures Reading(w) ==> (r.Settle? && r.ok) || r.Remove? || r.Save?
    ensures Reading(w) ==> r.key == w.key
    decreases ReadsLeft(w)
  {
    if Reading(w) then Ends(s, AfterRead(s, w)) else w
  }

  /** The four reads at once. */
  lemma EndsAt(s: State, k: string)
    ensures Ends(s, ReadSc(k)) ==
            if k !in s.sc.cache then Remove(k)
            else
              var sc := s.sc.cache[k];
              if sc.name == "" || sc.val.provisioner !in s.pcap.cache then Settle(k, true)
              else Save(k, sc, s.pcap.cache[sc.val.provisioner], Look(s.snap.cache, sc.name), Look(s.cap.cache, sc.name))
  {
    assert Ends(s, ReadSc(k)) == Ends(s, AfterRead(s, ReadSc(k)));
    if k in s.sc.cache && s.sc.cache[k].name != "" {
      var sc := s.sc.cache[k];
      assert Ends(s, ReadPcap(k, sc)) == Ends(s, AfterRead(s, ReadPcap(k, sc)));
      if sc.val.provisioner in s.pcap.cache {
        var w := AfterRead(s, AfterRead(s, ReadPcap(k, sc)));
        assert Ends(s, w) == Ends(s, AfterRead(s, w));
      }
    }
  }

  /** The effect of syncHandler on the server, whether it panics, and whether it returns nil. */
  datatype Outcome = Outcome(feed: Feed<Cap>, clock: nat, panicked: bool, ok: bool)

  function SyncOutcome(s: State, name: string, fault: Fault): Outcome {
    var w := Ends(s, ReadSc(name));
    if w.Settle? then Outcome(s.cap.feed, s.clock, false, w.ok)
    else if Panics(s, w, fault) then
      var left := Wreck(s, w, fault);
      Outcome(left.cap.feed, left.clock, true, false)
    else
      var r := Sent(s, w, fault);
      Outcome(r.feed, r.clock, false, w.Remove? || r.err.Okay?)
  }

  function Effect(s: State, o: Outcome): State {
    s.(clock := o.clock, cap := s.cap.(feed := o.feed))
  }

  /** Exactly when a sync panics: when it deletes a capability successfully, or when it has everything
      to build from except AllowVolumeExpansion. */
  lemma PanicsExactly(s: State, name: string, fault: Fault)
    requires ChannelsOk(s)
    ensures SyncOutcome(s, name, fault).panicked <==>
            || (name !in s.sc.cache && name in s.cap.feed.store && fault.NoFault?)
            || (Owed(s, name) && s.sc.cache[name].val.allowExpansion.None?)
  {
    hide Genuine, Newer, Replay;
    EndsAt(s, name);
    var w := Ends(s, ReadSc(name));
    if w.Save? {
      PathIndependence(w.sc, w.snap, w.pcap, w.cap);
    }
  }

  // ---------------------------------------------------------------- a sync is a run of the protocol

  lemma {:induction false} SameEnds(s: State, t: State, w: Worker)
    requires t.sc == s.sc && t.pcap == s.pcap && t.snap == s.snap && t.cap == s.cap
    ensures Ends(t, w) == Ends(s, w)
    decreases ReadsLeft(w)
  {
    if Reading(w) {
      SameEnds(s, t, AfterRead(s, w));
    }
  }

  lemma {:induction false} RunConcat(s: State, a: seq<Step>, b: seq<Step>)
    requires Legal(s, a) && Legal(Run(s, a), b)
    ensures Legal(s, a + b) && Run(s, a + b) == Run(Run(s, a), b)
    decreases |a|
  {
    hide Enabled, Next;
    if a == [] {
      assert a + b == b;
    } else {
      assert (a + b)[1..] == a[1..] + b;
      RunConcat(Next(s, a[0]), a[1..], b);
    }
  }

  lemma OneStep(s: State, step: Step)
    requires Enabled(s, step)
    ensures Legal(s, [step]) && Run(s, [step]) == Next(s, step)
  {
    hide Enabled, Next;
    assert [step][1..] == [];
  }

  /** The reads of one sync, as steps of its worker. */
  lemma {:induction false} ReadsRun(s: State, i: nat, fault: Fault, boot: Boot) returns (steps: seq<Step>)
    requires i < |s.workers|
    ensures forall j :: 0 <= j < |steps| ==> steps[j] == Work(i, fault, boot)
    ensures Legal(s, steps) && !s.workers[i].Idle? ==> Run(s, steps) == SetWorker(s, i, Ends(s, s.workers[i]))
    ensures !s.workers[i].Idle? ==> Legal(s, steps)
    decreases ReadsLeft(s.workers[i])
  {
    hide Next, Enabled, AfterRead;
    steps := [];
    if Reading(s.workers[i]) {
      var t := SetWorker(s, i, AfterRead(s, s.workers[i]));
      assert Enabled(s, Work(i, fault, boot)) && Next(s, Work(i, fault, boot)) == t by {
        ReadStep(s, i, fault, boot);
      }
      assert ReadsLeft(t.workers[i]) < ReadsLeft(s.workers[i]) && !t.workers[i].Idle? by {
        ReadsGoDown(s, s.workers[i]);
      }
      var rest := ReadsRun(t, i, fault, boot);
      SameEnds(s, t, t.workers[i]);
      assert SetWorker(t, i, Ends(s, t.workers[i])) == SetWorker(s, i, Ends(s, t.workers[i]));
      steps := [Work(i, fault, boot)] + rest;
      assert steps[1..] == rest;
    } else {
      assert SetWorker(s, i, s.workers[i]) == s;
    }
  }

  lemma ReadStep(s: State, i: nat, fault: Fault, boot: Boot)
    requires i < |s.workers| && Reading(s.workers[i])
    ensures Enabled(s, Work(i, fault, boot))
    ensures Next(s, Work(i, fault, boot)) == SetWorker(s, i, AfterRead(s, s.workers[i]))
  {
  }

  lemma ReadsGoDown(s: State, w: Worker)
    requires Reading(w)
    ensures ReadsLeft(AfterRead(s, w)) < ReadsLeft(w) && !AfterRead(s, w).Idle?
  {
  }

  /** An undisturbed sync, from its first read to its return or panic, is a run of the protocol. */
  lemma SyncIsRun(s: State, i: nat, fault: Fault, boot: Boot) returns (steps: seq<Step>)
    requires i < |s.workers| && s.workers[i].ReadSc?
    requires var o := SyncOutcome(s, s.workers[i].key, fault); o.panicked ==> BootOk(Effect(s, o), boot)
    ensures forall j :: 0 <= j < |steps| ==> steps[j] == Work(i, fault, boot)
    ensures Legal(s, steps)
    ensures var k := s.workers[i].key;
            var o := SyncOutcome(s, k, fault);
            && (!o.panicked ==> Run(s, steps) == SetWorker(Effect(s, o), i, Settle(k, o.ok)))
            && (o.panicked ==> Run(s, steps) == Restart(Effect(s, o), boot))
  {
    hide Enabled, Next, AfterRead, Sent, Panics, BootOk, Restart;
    var gather := ReadsRun(s, i, fault, boot);
    var w := Ends(s, s.workers[i]);
    var t := SetWorker(s, i, w);
    steps := gather;
    if !w.Settle? {
      WriteStep(s, t, i, w, fault, boot);
      OneStep(t, Work(i, fault, boot));
      RunConcat(s, gather, [Work(i, fault, boot)]);
      steps := gather + [Work(i, fault, boot)];
    }
  }

  lemma WriteStep(s: State, t: State, i: nat, w: Worker, fault: Fault, boot: Boot)
    requires i < |s.workers| && t == SetWorker(s, i, w) && (w.Remove? || w.Save?)
    requires Panics(s, w, fault) ==> BootOk(Wreck(s, w, fault), boot)
    ensures Enabled(t, Work(i, fault, boot))
    ensures Panics(s, w, fault) ==> Next(t, Work(i, fault, boot)) == Restart(Wreck(s, w, fault), boot)
    ensures !Panics(s, w, fault) ==>
              var r := Sent(s, w, fault);
              Next(t, Work(i, fault, boot)) == SetWorker(Replied(s, r), i, Settle(w.key, w.Remove? || r.err.Okay?))
  {
    if !Panics(s, w, fault) {
      var r := Sent(s, w, fault);
      assert t.workers[i := Settle(w.key, w.Remove? || r.err.Okay?)]
          == s.workers[i := Settle(w.key, w.Remove? || r.err.Okay?)];
    }
  }

  /** What processNextWorkItem leaves of the queue. */
  function Processed(q: Q.Queue, ok: bool): Q.Queue
    requires q.order != []
  {
    var k, g := q.order[0], Q.Get(q);
    Q.Done(if ok then Q.Forget(g, k) else Q.AddRateLimited(g, k), k)
  }

  /** A whole processNextWorkItem of an idle worker, undisturbed, is a run of the protocol too: the key
      at the head is fetched, synced, then forgotten or requeued, then given back; or the sync panics
      and a new process starts. */
  lemma ItemIsRun(s: State, i: nat, fault: Fault, boot: Boot) returns (steps: seq<Step>)
    requires i < |s.workers| && s.workers[i] == Idle && s.queue.order != []
    requires var o := SyncOutcome(s, s.queue.order[0], fault); o.panicked ==> BootOk(Effect(s, o), boot)
    ensures forall j :: 0 <= j < |steps| ==> steps[j] == Work(i, fault, boot)
    ensures Legal(s, steps)
    ensures var o := SyncOutcome(s, s.queue.order[0], fault);
            && (!o.panicked ==> Run(s, steps) == Effect(s, o).(queue := Processed(s.queue, o.ok)))
            && (o.panicked ==> Run(s, steps) == Restart(Effect(s, o), boot))
  {
    hide Enabled, Next, Restart, BootOk, SyncOutcome;
    var k, step := s.queue.order[0], Work(i, fault, boot);
    var o := SyncOutcome(s, k, fault);
    var t := SetWorker(s, i, ReadSc(k)).(queue := Q.Get(s.queue));
    assert Enabled(s, step) && Next(s, step) == t by { GetStep(s, i, fault, boot); }
    assert SyncOutcome(t, k, fault) == o by { SameOutcome(s, t, k, fault); }
    if o.panicked {
      SameBoot(s, t, o, boot);
    }
    var middle := SyncIsRun(t, i, fault, boot);
    OneStep(s, step);
    RunConcat(s, [step], middle);
    if o.panicked {
      steps := [step] + middle;
    } else {
      var u := SetWorker(Effect(t, o), i, Settle(k, o.ok));
      GiveBack(u, i, k, o.ok, fault, boot);
      var v := Next(u, step);
      RunAround(s, step, middle, u, v);
      steps := [step] + middle + [step] + [step];
      assert s.workers[i := ReadSc(k)][i := Settle(k, o.ok)][i := Close(k)][i := Idle] == s.workers;
    }
  }

  /** A new process depends on the server alone. */
  lemma SameBoot(s: State, t: State, o: Outcome, boot: Boot)
    requires t.sc == s.sc && t.pcap == s.pcap && t.snap == s.snap && t.cap == s.cap && |t.workers| == |s.workers|
    requires BootOk(Effect(s, o), boot)
    ensures BootOk(Effect(t, o), boot) && Restart(Effect(t, o), boot) == Restart(Effect(s, o), boot)
  {
    hide Relist;
  }

  lemma RunAround(s: State, step: Step, middle: seq<Step>, u: State, v: State)
    requires Enabled(s, step) && Legal(Next(s, step), middle) && Run(Next(s, step), middle) == u
    requires Enabled(u, step) && Next(u, step) == v && Enabled(v, step)
    ensures Legal(s, [step] + middle + [step] + [step])
    ensures Run(s, [step] + middle + [step] + [step]) == Next(v, step)
  {
    hide Enabled, Next;
    OneStep(s, step);
    OneStep(u, step);
    OneStep(v, step);
    RunConcat(s, [step], middle);
    RunConcat(s, [step] + middle, [step]);
    RunConcat(s, [step] + middle + [step], [step]);
  }

  lemma GetStep(s: State, i: nat, fault: Fault, boot: Boot)
    requires i < |s.workers| && s.workers[i] == Idle && s.queue.order != []
    ensures Enabled(s, Work(i, fault, boot))
    ensures Next(s, Work(i, fault, boot)) == SetWorker(s, i, ReadSc(s.queue.order[0])).(queue := Q.Get(s.queue))
  {
  }

  lemma SameOutcome(s: State, t: State, k: string, fault: Fault)
    requires t.sc == s.sc && t.pcap == s.pcap && t.snap == s.snap && t.cap == s.cap && t.clock == s.clock
    ensures SyncOutcome(t, k, fault) == SyncOutcome(s, k, fault)
  {
    hide Ends;
    SameEnds(s, t, ReadSc(k));
  }

  lemma GiveBack(u: State, i: nat, k: string, ok: bool, fault: Fault, boot: Boot)
    requires i < |u.workers| && u.workers[i] == Settle(k, ok)
    ensures Enabled(u, Work(i, fault, boot))
    ensures var v := Next(u, Work(i, fault, boot));
            && Enabled(v, Work(i, fault, boot))
            && Next(v, Work(i, fault, boot))
                 == u.(workers := u.workers[i := Close(k)][i := Idle],
                       queue := Q.Done(if ok then Q.Forget(u.queue, k) else Q.AddRateLimited(u.queue, k), k))
  {
  }

  // ---------------------------------------------------------------- what a sync means, and confluence

  /** All caches are current and name-keyed. */
  ghost predicate Current(s: State) {
    && NameKeyed(s.sc.cache) && NameKeyed(s.pcap.cache) && NameKeyed(s.snap.cache)
    && NameKeyed(s.cap.feed.store) && s.cap.cache == s.cap.feed.store
  }

  /** What a sync of a key is for: no capability without a StorageClass; nothing where there is no
      obligation or the build panics; otherwise a spec that describes the inputs. */
  ghost predicate Meets(v: View, before: Option<CapSpec>, after: Option<CapSpec>) {
    if v.sc.None? then after.None?
    else if v.sc.value.name == "" || v.pcap.None? || v.sc.value.val.allowExpansion.None? then after == before
    else after.Some? && Describes(after.value, v.sc.value, v.snap, v.pcap.value)
  }

  /** The state after a sync of k with no fault, its capability event delivered. */
  function Synced(s: State, k: string): State {
    var o := SyncOutcome(s, k, NoFault);
    s.(clock := o.clock, cap := Channel(o.feed, o.feed.store, []))
  }

  lemma SyncMeets(s: State, k: string)
    requires Current(s)
    ensures Meets(ViewAt(s, k), SpecAt(s, k), SpecAt(Synced(s, k), k))
  {
    EndsAt(s, k);
    var w := Ends(s, ReadSc(k));
    if w.Save? {
      PathIndependence(w.sc, w.snap, w.pcap, w.cap);
    }
  }

  /** A sync touches no key but its own. */
  lemma SyncLocal(s: State, k: string, j: string)
    requires Current(s)
    ensures Current(Synced(s, k))
    ensures j != k ==> SpecAt(Synced(s, k), j) == SpecAt(s, j)
    ensures var v, w := ViewAt(s, j), ViewAt(Synced(s, k), j); v.sc == w.sc && v.pcap == w.pcap && v.snap == w.snap
  {
    EndsAt(s, k);
    var w := Ends(s, ReadSc(k));
    if w.Save? {
      PathIndependence(w.sc, w.snap, w.pcap, w.cap);
    }
  }

  function SyncAll(s: State, keys: seq<string>): State
    decreases |keys|
  {
    if keys == [] then s else SyncAll(Synced(s, keys[0]), keys[1..])
  }

  /** Any sequence of syncs, duplicates included, leaves every listed key as one sync would and every
      other key as it was. */
  lemma {:induction false} SyncAllMeets(s: State, keys: seq<string>, j: string)
    requires Current(s)
    ensures j in keys ==> Meets(ViewAt(s, j), SpecAt(s, j), SpecAt(SyncAll(s, keys), j))
    ensures j !in keys ==> SpecAt(SyncAll(s, keys), j) == SpecAt(s, j)
    decreases |keys|
  {
    hide Current, Synced, SpecAt, ViewAt;
    if keys != [] {
      SyncLocal(s, keys[0], j);
      SyncAllMeets(Synced(s, keys[0]), keys[1..], j);
      if j == keys[0] {
        SyncMeets(s, j);
      }
    }
  }

  lemma MeetsOne(v: View, before: Option<CapSpec>, a: Option<CapSpec>, b: Option<CapSpec>)
    requires Meets(v, before, a) && Meets(v, before, b)
    ensures a == b
  {
    if a.Some? && b.Some? && v.sc.Some? && v.pcap.Some? && a != before {
      DescribesOne(a.value, b.value, v.sc.value, v.snap, v.pcap.value);
    }
  }

  /** Confluence of sequential syncs: two sequences over the same keys, in any orders and with any
      repetitions, end in the same specs. */
  lemma Confluence(s: State, xs: seq<string>, ys: seq<string>, j: string)
    requires Current(s) && forall k :: k in xs <==> k in ys
    ensures SpecAt(SyncAll(s, xs), j) == SpecAt(SyncAll(s, ys), j)
  {
    hide Current, SyncAll, SpecAt, ViewAt, Meets;
    SyncAllMeets(s, xs, j);
    SyncAllMeets(s, ys, j);
    if j in xs {
      MeetsOne(ViewAt(s, j), SpecAt(s, j), SpecAt(SyncAll(s, xs), j), SpecAt(SyncAll(s, ys), j));
    }
  }
}
