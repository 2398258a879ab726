/** What every step of the protocol keeps, whatever fails: caches lag but never lie, the queue's
    books balance, and no key is in two hands. */
module ReconcileBase {
  import opened Kube
  import opened Capability
  import opened Reconcile
  import Q = WorkQueue

  ghost predicate ChannelsOk(s: State) {
    && ChannelOk(s.sc, s.clock)
    && ChannelOk(s.snap, s.clock)
    && ChannelOk(s.pcap, s.clock)
    && ChannelOk(s.cap, s.clock)
  }

  ghost predicate HeldBySome(workers: seq<Worker>, k: string) {
    exists i :: 0 <= i < |workers| && Holds(workers[i], k)
  }

  ghost predicate Closing(workers: seq<Worker>, k: string) {
    exists i :: 0 <= i < |workers| && workers[i] == Close(k)
  }

  /** The workers hold exactly the keys being processed, no key twice. */
  ghost predicate Staffed(q: Q.Queue, workers: seq<Worker>) {
    && (forall i :: 0 <= i < |workers| && !workers[i].Idle? ==> workers[i].key in q.processing)
    && (forall i, j :: 0 <= i < j < |workers| && !workers[i].Idle? && !workers[j].Idle? ==> workers[i].key != workers[j].key)
    && (forall k :: k in q.processing ==> HeldBySome(workers, k))
  }

  /** Each sync that has returned was either forgotten or scheduled for a retry, never both, and its
      key is given back exactly once. */
  ghost predicate Accounted(q: Q.Queue, workers: seq<Worker>) {
    forall k :: q.forgotten[k] + q.retried[k] == q.finished[k] + if Closing(workers, k) then 1 else 0
  }

  /** Whatever a worker has read, it read under its key. */
  ghost predicate ReadsOk(w: Worker, issued: map<nat, CapObj>) {
    && (w.ReadPcap? || w.ReadSnap? || w.ReadCap? || w.Save? ==> w.sc.name == w.key && w.key != "")
    && (w.ReadSnap? || w.ReadCap? || w.Save? ==> w.pcap.name == w.sc.val.provisioner)
    && (w.ReadCap? || w.Save? ==> w.snap.Some? ==> w.snap.value.name == w.key)
    && (w.Save? && w.cap.Some? ==> w.cap.value.name == w.key && Issued(issued, w.cap.value))
  }

  ghost predicate ReadersOk(s: State) {
    forall i :: 0 <= i < |s.workers| ==> ReadsOk(s.workers[i], s.cap.feed.issued)
  }

  ghost predicate Base(s: State) {
    && ChannelsOk(s)
    && Q.Wf(s.queue)
    && Staffed(s.queue, s.workers)
    && Accounted(s.queue, s.workers)
    && ReadersOk(s)
  }

  ghost predicate Init(s: State) {
    && s.sc == NewChannel() && s.snap == NewChannel() && s.pcap == NewChannel() && s.cap == NewChannel()
    && s.queue == Q.EMPTY
    && s.workers == Idlers(|s.workers|)
  }

  lemma InitBase(s: State)
    requires Init(s)
    ensures Base(s)
    ensures forall k :: Covered(s, k)
  {
  }

  // ---------------------------------------------------------------- the server's side

  ghost predicate External(step: Step) {
    || step.PutSc? || step.PutSnap? || step.PutPcap? || step.PutCap?
    || step.DropSc? || step.DropSnap? || step.DropPcap? || step.DropCap?
  }

  lemma ClocksOk(s: State, later: nat)
    requires ChannelsOk(s) && s.clock <= later
    ensures ChannelsOk(s.(clock := later))
  {
    hide ChannelOk;
    ClockOk(s.sc, s.clock, later);
    ClockOk(s.snap, s.clock, later);
    ClockOk(s.pcap, s.clock, later);
    ClockOk(s.cap, s.clock, later);
  }

  lemma IssuedGrows(s: State, t: State)
    requires Base(s) && t.workers == s.workers
    requires forall v :: v in s.cap.feed.issued ==> v in t.cap.feed.issued && t.cap.feed.issued[v] == s.cap.feed.issued[v]
    ensures ReadersOk(t)
  {
    forall i | 0 <= i < |t.workers|
      ensures ReadsOk(t.workers[i], t.cap.feed.issued)
    {
      assert ReadsOk(s.workers[i], s.cap.feed.issued);
    }
  }

  lemma PutChannels(s: State, step: Step)
    requires ChannelsOk(s) && (step.PutSc? || step.PutSnap? || step.PutPcap? || step.PutCap?)
    ensures ChannelsOk(Next(s, step))
  {
    hide ChannelOk, NameKeyed, Replay, Genuine, Newer;
    ClocksOk(s, s.clock + 1);
    match step {
      case PutSc(n, v) => PutOk(s.sc, s.clock, n, v);
      case PutSnap(n, v) => PutOk(s.snap, s.clock, n, v);
      case PutPcap(n, v) => PutOk(s.pcap, s.clock, n, v);
      case PutCap(n, v) => PutOk(s.cap, s.clock, n, v);
      case _ =>
    }
  }

  lemma DropChannels(s: State, step: Step)
    requires ChannelsOk(s) && Enabled(s, step) && (step.DropSc? || step.DropSnap? || step.DropPcap? || step.DropCap?)
    ensures ChannelsOk(Next(s, step))
  {
    hide ChannelOk, NameKeyed, Replay, Genuine, Newer;
    ClocksOk(s, s.clock + 1);
    match step {
      case DropSc(n) => DelOk(s.sc, s.clock, n);
      case DropSnap(n) => DelOk(s.snap, s.clock, n);
      case DropPcap(n) => DelOk(s.pcap, s.clock, n);
      case DropCap(n) => DelOk(s.cap, s.clock, n);
      case _ =>
    }
  }

  lemma Unissued<T>(c: Channel<T>, clock: nat)
    requires ChannelOk(c, clock)
    ensures clock !in c.feed.issued
  {
  }

  lemma ExternalBase(s: State, step: Step)
    requires Base(s) && External(step) && Enabled(s, step)
    ensures Base(Next(s, step))
  {
    hide ChannelOk, Q.Wf, Staffed, Accounted;
    if step.PutSc? || step.PutSnap? || step.PutPcap? || step.PutCap? {
      PutChannels(s, step);
    } else {
      DropChannels(s, step);
    }
    Unissued(s.cap, s.clock);
    IssuedGrows(s, Next(s, step));
  }

  // ---------------------------------------------------------------- informers and handlers

  ghost predicate Delivery(step: Step) {
    step.DeliverSc? || step.DeliverSnap? || step.DeliverPcap? || step.DeliverCap?
  }

  lemma DeliveryBase(s: State, step: Step)
    requires Base(s) && Delivery(step) && Enabled(s, step)
    ensures Base(Next(s, step))
  {
    hide ChannelOk, Q.Wf, Staffed, Accounted;
    match step {
      case DeliverSc(tomb) => DeliverOk(s.sc, s.clock, tomb);
      case DeliverSnap(tomb) => DeliverOk(s.snap, s.clock, tomb);
      case DeliverPcap(tomb) => DeliverOk(s.pcap, s.clock, tomb);
      case DeliverCap(tomb) => DeliverOk(s.cap, s.clock, tomb);
      case _ =>
    }
  }

  ghost predicate Handling(step: Step) {
    step.HandleSc? || step.HandleSnap? || step.HandlePcap? || step.HandleCap?
  }

  lemma EnqueueBase(s: State, keys: seq<string>)
    requires Base(s)
    ensures Base(Enqueue(s, keys))
  {
    hide ChannelOk, Q.AddAll;
    Q.AddAllWf(s.queue, keys);
    Q.AddAllAdds(s.queue, keys);
  }

  /** Pending notifications play no part in the base invariant. */
  lemma NotesBase(s: State, t: State)
    requires Base(s)
    requires t == s.(sc := s.sc.(notes := t.sc.notes), snap := s.snap.(notes := t.snap.notes),
                     pcap := s.pcap.(notes := t.pcap.notes), cap := s.cap.(notes := t.cap.notes))
    ensures Base(t)
  {
    hide ChannelOk, Q.Wf, Staffed, Accounted, ReadsOk;
    NotesOk(s.sc, s.clock, t.sc.notes);
    NotesOk(s.snap, s.clock, t.snap.notes);
    NotesOk(s.pcap, s.clock, t.pcap.notes);
    NotesOk(s.cap, s.clock, t.cap.notes);
  }

  /** The keys a handler hands to the queue. */
  ghost function Handled(s: State, step: Step): seq<string>
    requires Handling(step) && Enabled(s, step)
  {
    match step
    case HandleSc => HandleScObject(s.sc.notes[0])
    case HandleSnap => HandleScObject(s.snap.notes[0])
    case HandlePcap(found) => found
    case HandleCap => EnqueueSccap(s.cap.notes[0])
  }

  /** A handler makes dirty exactly the keys it is for: the object's name, unless the notification is a
      tombstone or, for StorageClasses and snapshot classes, an update between equal versions; and the
      StorageClasses of a ProvisionerCapability.  It delays nothing and takes nothing away. */
  lemma HandlersEnqueueExactly(s: State, step: Step, k: string)
    requires Handling(step) && Enabled(s, step)
    ensures var t := Next(s, step);
            && t.queue.delayed == s.queue.delayed && t.queue.processing == s.queue.processing
            && (step.HandleSc? ==> var n := s.sc.notes[0];
                  k in t.queue.dirty <==>
                    || k in s.queue.dirty
                    || (k == n.obj.name && !n.Tombstone? && !(n.Updated? && n.was.rv == n.obj.rv)))
            && (step.HandleSnap? ==> var n := s.snap.notes[0];
                  k in t.queue.dirty <==>
                    || k in s.queue.dirty
                    || (k == n.obj.name && !n.Tombstone? && !(n.Updated? && n.was.rv == n.obj.rv)))
            && (step.HandlePcap? ==> var n := s.pcap.notes[0];
                  k in t.queue.dirty <==>
                    || k in s.queue.dirty
                    || (k in s.sc.cache && s.sc.cache[k].val.provisioner == n.obj.name && !n.Tombstone?))
            && (step.HandleCap? ==> var n := s.cap.notes[0];
                  k in t.queue.dirty <==> k in s.queue.dirty || (k == n.obj.name && !n.Tombstone?))
  {
    hide Q.AddAll;
    Q.AddAllAdds(s.queue, Handled(s, step));
  }

  lemma HandlingBase(s: State, step: Step)
    requires Base(s) && Handling(step) && Enabled(s, step)
    ensures Base(Next(s, step))
  {
    hide ChannelOk, Q.Wf, Q.AddAll, Staffed, Accounted, ReadsOk;
    EnqueueBase(s, Handled(s, step));
    NotesBase(Enqueue(s, Handled(s, step)), Next(s, step));
  }

  ghost predicate Resyncing(step: Step) {
    step.ResyncSc? || step.ResyncSnap? || step.ResyncPcap? || step.ResyncCap?
  }

  lemma ResyncingBase(s: State, step: Step)
    requires Base(s) && Resyncing(step) && Enabled(s, step)
    ensures Base(Next(s, step))
  {
    hide ChannelOk, Q.Wf, Staffed, Accounted, ReadsOk;
    NotesBase(s, Next(s, step));
  }

  lemma FireBase(s: State, k: string)
    requires Base(s) && k in s.queue.delayed
    ensures Base(Next(s, Fire(k)))
  {
    hide ChannelOk, ReadsOk;
    Q.FireWf(s.queue, k);
  }

  lemma RestartBase(s: State, boot: Boot)
    requires ChannelsOk(s) && BootOk(s, boot)
    ensures Base(Restart(s, boot))
  {
    hide ChannelOk;
    RelistOk(s.sc, s.clock, boot.sc);
    RelistOk(s.snap, s.clock, boot.snap);
    RelistOk(s.pcap, s.clock, boot.pcap);
    RelistOk(s.cap, s.clock, boot.cap);
  }

  lemma KillBase(s: State, boot: Boot)
    requires Base(s) && BootOk(s, boot)
    ensures Base(Next(s, Kill(boot)))
  {
    hide ChannelOk, Q.Wf, Staffed, Accounted, ReadsOk;
    RestartBase(s, boot);
  }

  // ---------------------------------------------------------------- workers

  /** A worker that moves on while keeping its key changes nothing in the staffing. */
  lemma SameHandStaffed(q: Q.Queue, workers: seq<Worker>, i: nat, w: Worker)
    requires Staffed(q, workers) && i < |workers|
    requires !workers[i].Idle? && !w.Idle? && w.key == workers[i].key
    ensures Staffed(q, workers[i := w])
  {
    forall k | k in q.processing
      ensures HeldBySome(workers[i := w], k)
    {
      var j :| 0 <= j < |workers| && Holds(workers[j], k);
      assert Holds(workers[i := w][j], k);
    }
  }

  lemma NoCloseAccounted(q: Q.Queue, workers: seq<Worker>, i: nat, w: Worker)
    requires Accounted(q, workers) && i < |workers| && !workers[i].Close? && !w.Close?
    ensures Accounted(q, workers[i := w])
  {
    forall k
      ensures Closing(workers[i := w], k) <==> Closing(workers, k)
    {
      if Closing(workers, k) {
        var j :| 0 <= j < |workers| && workers[j] == Close(k);
        assert workers[i := w][j] == Close(k);
      }
    }
  }

  lemma GetStaffed(q: Q.Queue, workers: seq<Worker>, i: nat)
    requires Staffed(q, workers) && i < |workers| && workers[i].Idle?
    requires q.order != [] && q.order[0] !in q.processing
    ensures Staffed(Q.Get(q), workers[i := ReadSc(q.order[0])])
  {
    var now := workers[i := ReadSc(q.order[0])];
    forall k | k in Q.Get(q).processing
      ensures HeldBySome(now, k)
    {
      if k in q.processing {
        var j :| 0 <= j < |workers| && Holds(workers[j], k);
        assert Holds(now[j], k);
      } else {
        assert Holds(now[i], k);
      }
    }
  }

  lemma GetBase(s: State, i: nat, fault: Fault, boot: Boot)
    requires Base(s) && WorkEnabled(s, i, fault, boot) && s.workers[i].Idle?
    ensures Base(WorkNext(s, i, fault, boot))
  {
    hide ChannelOk, Q.Wf, Staffed;
    Q.GetWf(s.queue);
    NoCloseAccounted(s.queue, s.workers, i, ReadSc(s.queue.order[0]));
    GetStaffed(s.queue, s.workers, i);
  }

  lemma ReadBase(s: State, i: nat, fault: Fault, boot: Boot)
    requires Base(s) && WorkEnabled(s, i, fault, boot)
    requires s.workers[i].ReadSc? || s.workers[i].ReadPcap? || s.workers[i].ReadSnap? || s.workers[i].ReadCap?
    ensures Base(WorkNext(s, i, fault, boot))
  {
    hide Q.Wf, Replay, Newer, Staffed, Accounted;
    var w := AfterRead(s, s.workers[i]);
    assert ReadsOk(s.workers[i], s.cap.feed.issued);
    SameHandStaffed(s.queue, s.workers, i, w);
    NoCloseAccounted(s.queue, s.workers, i, w);
  }

  lemma SentOk(s: State, w: Worker, fault: Fault)
    requires ChannelsOk(s) && (w.Remove? || (w.Save? && BuiltBy(w).Made?))
    ensures s.clock <= Sent(s, w, fault).clock
    ensures ChannelsOk(Replied(s, Sent(s, w, fault)))
    ensures var now := Sent(s, w, fault).feed.issued;
            forall v :: v in s.cap.feed.issued ==> v in now && now[v] == s.cap.feed.issued[v]
  {
    hide ChannelOk;
    Unissued(s.cap, s.clock);
    if w.Remove? {
      DeleteOk(s.cap, s.clock, w.key, fault);
    } else if w.cap.None? {
      CreateOk(s.cap, s.clock, BuiltBy(w).obj.name, BuiltBy(w).obj.val, fault);
    } else {
      UpdateOk(s.cap, s.clock, BuiltBy(w).obj, fault);
    }
    ClocksOk(s, Sent(s, w, fault).clock);
  }

  lemma PanicBase(s: State, w: Worker, fault: Fault, boot: Boot)
    requires ChannelsOk(s) && Panics(s, w, fault) && BootOk(Wreck(s, w, fault), boot)
    ensures Base(Restart(Wreck(s, w, fault), boot))
  {
    hide ChannelOk;
    if w.Remove? {
      SentOk(s, w, fault);
    }
    RestartBase(Wreck(s, w, fault), boot);
  }

  lemma RepliedBase(s: State, w: Worker, fault: Fault)
    requires Base(s) && (w.Remove? || (w.Save? && BuiltBy(w).Made?))
    ensures Base(Replied(s, Sent(s, w, fault)))
  {
    hide ChannelOk, Q.Wf, Staffed, Accounted;
    SentOk(s, w, fault);
    IssuedGrows(s, Replied(s, Sent(s, w, fault)));
  }

  lemma SettlingBase(s: State, i: nat, ok: bool)
    requires Base(s) && i < |s.workers| && !s.workers[i].Idle? && !s.workers[i].Close?
    ensures Base(SetWorker(s, i, Settle(s.workers[i].key, ok)))
  {
    hide ChannelOk, Q.Wf, Staffed, Accounted;
    SameHandStaffed(s.queue, s.workers, i, Settle(s.workers[i].key, ok));
    NoCloseAccounted(s.queue, s.workers, i, Settle(s.workers[i].key, ok));
  }

  lemma WriteBase(s: State, i: nat, fault: Fault, boot: Boot)
    requires Base(s) && WorkEnabled(s, i, fault, boot)
    requires s.workers[i].Remove? || s.workers[i].Save?
    ensures Base(WorkNext(s, i, fault, boot))
  {
    hide ChannelsOk, Q.Wf, Staffed, Accounted, ReadsOk, ReadersOk;
    var w := s.workers[i];
    if Panics(s, w, fault) {
      PanicBase(s, w, fault, boot);
    } else {
      RepliedBase(s, w, fault);
      SettlingBase(Replied(s, Sent(s, w, fault)), i, w.Remove? || Sent(s, w, fault).err.Okay?);
    }
  }

  lemma SettleAccounted(q: Q.Queue, workers: seq<Worker>, i: nat, key: string)
    requires Accounted(q, workers) && Staffed(q, workers) && i < |workers| && workers[i].Settle? && workers[i].key == key
    ensures Accounted(Q.Forget(q, key), workers[i := Close(key)])
    ensures Accounted(Q.AddRateLimited(q, key), workers[i := Close(key)])
  {
    var now := workers[i := Close(key)];
    assert now[i] == Close(key);
    forall k
      ensures Closing(now, k) <==> k == key || Closing(workers, k)
    {
      if k != key && Closing(workers, k) {
        var j :| 0 <= j < |workers| && workers[j] == Close(k);
        assert now[j] == Close(k);
      }
    }
    assert !Closing(workers, key);
  }

  lemma SettleBase(s: State, i: nat, fault: Fault, boot: Boot)
    requires Base(s) && WorkEnabled(s, i, fault, boot) && s.workers[i].Settle?
    ensures Base(WorkNext(s, i, fault, boot))
  {
    hide ChannelOk, Accounted;
    SameHandStaffed(s.queue, s.workers, i, Close(s.workers[i].key));
    SettleAccounted(s.queue, s.workers, i, s.workers[i].key);
  }

  lemma CloseStaffed(q: Q.Queue, workers: seq<Worker>, i: nat, key: string)
    requires Accounted(q, workers) && Staffed(q, workers) && i < |workers| && workers[i] == Close(key)
    ensures Staffed(Q.Done(q, key), workers[i := Idle])
    ensures Accounted(Q.Done(q, key), workers[i := Idle])
  {
    var now := workers[i := Idle];
    assert Closing(workers, key);
    forall k | k in q.processing && k != key
      ensures HeldBySome(now, k)
    {
      var j :| 0 <= j < |workers| && Holds(workers[j], k);
      assert Holds(now[j], k);
    }
    forall k | k != key && Closing(workers, k)
      ensures Closing(now, k)
    {
      var j :| 0 <= j < |workers| && workers[j] == Close(k);
      assert now[j] == Close(k);
    }
  }

  lemma CloseBase(s: State, i: nat, fault: Fault, boot: Boot)
    requires Base(s) && WorkEnabled(s, i, fault, boot) && s.workers[i].Close?
    ensures Base(WorkNext(s, i, fault, boot))
  {
    hide ChannelOk, Accounted;
    Q.DoneWf(s.queue, s.workers[i].key);
    CloseStaffed(s.queue, s.workers, i, s.workers[i].key);
  }

  lemma WorkBase(s: State, i: nat, fault: Fault, boot: Boot)
    requires Base(s) && WorkEnabled(s, i, fault, boot)
    ensures Base(WorkNext(s, i, fault, boot))
  {
    hide Base;
    var w := s.workers[i];
    if w.Idle? {
      GetBase(s, i, fault, boot);
    } else if w.Settle? {
      SettleBase(s, i, fault, boot);
    } else if w.Close? {
      CloseBase(s, i, fault, boot);
    } else if w.Remove? || w.Save? {
      WriteBase(s, i, fault, boot);
    } else {
      ReadBase(s, i, fault, boot);
    }
  }

  /** Every step, faults and defects included, keeps the base invariant. */
  lemma StepBase(s: State, step: Step)
    requires Base(s) && Enabled(s, step)
    ensures Base(Next(s, step))
  {
    hide Base;
    if External(step) {
      ExternalBase(s, step);
    } else if Delivery(step) {
      DeliveryBase(s, step);
    } else if Handling(step) {
      HandlingBase(s, step);
    } else if Resyncing(step) {
      ResyncingBase(s, step);
    } else if step.Fire? {
      FireBase(s, step.key);
    } else if step.Work? {
      WorkBase(s, step.i, step.fault, step.boot);
    } else {
      KillBase(s, step.boot);
    }
  }

  lemma {:induction false} RunBase(s: State, steps: seq<Step>)
    requires Base(s) && Legal(s, steps)
    ensures Base(Run(s, steps))
    decreases |steps|
  {
    if steps != [] {
      StepBase(s, steps[0]);
      RunBase(Next(s, steps[0]), steps[1..]);
    }
  }

  /** Key conservation over any run, with any sync errors and crashes: since the last start of the
      process, every key accepted into the queue was fetched or still waits; every key fetched was
      given back or is in exactly one worker's hands; and every key given back, or about to be, was
      either forgotten or scheduled for a retry. */
  lemma KeyConservation(s: State, steps: seq<Step>, k: string)
    requires Init(s) && Legal(s, steps)
    ensures var t := Run(s, steps);
            && t.queue.accepted[k] == t.queue.fetched[k] + (if k in t.queue.dirty then 1 else 0)
            && t.queue.fetched[k] == t.queue.finished[k] + (if HeldBySome(t.workers, k) then 1 else 0)
            && t.queue.forgotten[k] + t.queue.retried[k] == t.queue.finished[k] + (if Closing(t.workers, k) then 1 else 0)
            && (forall i, j :: 0 <= i < j < |t.workers| ==> !(Holds(t.workers[i], k) && Holds(t.workers[j], k)))
  {
    InitBase(s);
    RunBase(s, steps);
  }
}
