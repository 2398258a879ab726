/** No wakeup is lost.

    A key that needs work is in the queue, or is waiting out a delay, or some event or notification
    will enqueue it, or a worker holds it whose reads are all still true.  Every step keeps this for
    every key it is not Lossy for, and a restart or a resync establishes it from any base state.
  */
module ReconcileSafety {
  import opened Kube
  import opened Capability
  import opened Reconcile
  import opened ReconcileBase
  import Q = WorkQueue

  /** What a step leaves alone, it leaves covered. */
  lemma Keep(s: State, t: State, k: string)
    requires Covered(s, k)
    requires ViewAt(t, k) == ViewAt(s, k)
    requires Pending(s, k) ==> Pending(t, k)
    requires Heralded(s, k) ==> Heralded(t, k) || Pending(t, k)
    requires forall i :: 0 <= i < |s.workers| && Holds(s.workers[i], k) ==> i < |t.workers| && t.workers[i] == s.workers[i]
    ensures Covered(t, k)
  {
    hide ViewAt, Agree, Fresh, Heralded;
    if Attended(s, k) {
      var i :| 0 <= i < |s.workers| && Holds(s.workers[i], k) && Fresh(ViewAt(s, k), s.workers[i]);
      assert Holds(t.workers[i], k) && Fresh(ViewAt(t, k), t.workers[i]);
    }
  }

  // ---------------------------------------------------------------- the outside world

  lemma ExternalKeeps(s: State, step: Step, k: string)
    requires Base(s) && External(step) && Enabled(s, step) && Covered(s, k)
    ensures Covered(Next(s, step), k)
  {
    hide Base, Agree, Fresh, Covered;
    var t := Next(s, step);
    if step.PutCap? || step.DropCap? {
      CapChangeKeeps(s, step, k);
    } else {
      Keep(s, t, k);
    }
  }

  lemma CapChangeKeeps(s: State, step: Step, k: string)
    requires (step.PutCap? || step.DropCap?) && Enabled(s, step) && Covered(s, k)
    ensures Covered(Next(s, step), k)
  {
    hide Agree, Fresh, Covered;
    var t := Next(s, step);
    if step.PutCap? {
      PutLocal(s.cap.feed, Obj(step.name, s.clock, step.capVal), k);
    } else {
      DelLocal(s.cap.feed, step.name, s.clock, k);
    }
    if step.name == k {
      HeraldedIsCovered(t, k);
    } else {
      Keep(s, t, k);
    }
  }

  lemma HeraldedIsCovered(s: State, k: string)
    requires Heralded(s, k) || Pending(s, k) || Agree(ViewAt(s, k))
    ensures Covered(s, k)
  {
  }

  // ---------------------------------------------------------------- informers

  lemma DeliverScKeeps(s: State, tomb: bool, k: string)
    requires Base(s) && s.sc.feed.wire != [] && Covered(s, k) && !Strikes(s, DeliverSc(tomb), k)
    ensures Covered(Next(s, DeliverSc(tomb)), k)
  {
    hide Agree, Fresh, Covered, ChannelOk, Q.Wf, Staffed, Accounted, ReadsOk;
    var t, e := Next(s, DeliverSc(tomb)), s.sc.feed.wire[0];
    NoteNamesAppend(s.sc.notes, NoteOf(s.sc.cache, e, tomb), true);
    if Buried(s.sc, tomb, k) {
      NothingToDo(t, k);
      HeraldedIsCovered(t, k);
    } else if e.obj.name == k {
      DeliveryNames(s.sc, s.clock, tomb, true);
      HeraldedIsCovered(t, k);
    } else {
      Keep(s, t, k);
    }
  }

  lemma DeliverSnapKeeps(s: State, tomb: bool, k: string)
    requires Base(s) && s.snap.feed.wire != [] && Covered(s, k) && !Strikes(s, DeliverSnap(tomb), k)
    ensures Covered(Next(s, DeliverSnap(tomb)), k)
  {
    hide Agree, Fresh, Covered, ChannelOk, Q.Wf, Staffed, Accounted, ReadsOk;
    var t, e := Next(s, DeliverSnap(tomb)), s.snap.feed.wire[0];
    NoteNamesAppend(s.snap.notes, NoteOf(s.snap.cache, e, tomb), true);
    if Buried(s.snap, tomb, k) && k in s.sc.cache {
      NothingOwed(t, k);
      HeraldedIsCovered(t, k);
    } else if Buried(s.snap, tomb, k) {
      NoClassKeeps(s, t, k);
    } else if e.obj.name == k {
      DeliveryNames(s.snap, s.clock, tomb, true);
      HeraldedIsCovered(t, k);
    } else {
      Keep(s, t, k);
    }
  }

  /** The tombstone of a ProvisionerCapability loses nothing: its StorageClasses are owed nothing. */
  lemma DeliverPcapKeeps(s: State, tomb: bool, k: string)
    requires Base(s) && s.pcap.feed.wire != [] && Covered(s, k)
    ensures Covered(Next(s, DeliverPcap(tomb)), k)
  {
    hide Agree, Fresh, Covered, ChannelOk, Q.Wf, Staffed, Accounted, ReadsOk;
    var t, e := Next(s, DeliverPcap(tomb)), s.pcap.feed.wire[0];
    NoteNamesAppend(s.pcap.notes, NoteOf(s.pcap.cache, e, tomb), false);
    if k in s.sc.cache && s.sc.cache[k].val.provisioner == e.obj.name {
      if e.Del? {
        NothingOwed(t, k);
      }
      HeraldedIsCovered(t, k);
    } else {
      Keep(s, t, k);
    }
  }

  lemma DeliverCapKeeps(s: State, tomb: bool, k: string)
    requires Base(s) && s.cap.feed.wire != [] && Covered(s, k) && !Strikes(s, DeliverCap(tomb), k)
    ensures Covered(Next(s, DeliverCap(tomb)), k)
  {
    hide Agree, Fresh, Covered, ChannelOk, Q.Wf, Staffed, Accounted, ReadsOk;
    var t, e := Next(s, DeliverCap(tomb)), s.cap.feed.wire[0];
    NoteNamesAppend(s.cap.notes, NoteOf(s.cap.cache, e, tomb), false);
    if Buried(s.cap, tomb, k) {
      if k in s.cap.feed.store {
        DeliverOk(s.cap, s.clock, tomb);
        Returns(s.cap, s.clock, tomb, k);
      } else if k in s.sc.cache {
        NothingOwed(t, k);
      } else {
        NothingToDo(t, k);
      }
      HeraldedIsCovered(t, k);
    } else if e.obj.name == k {
      HeraldedIsCovered(t, k);
    } else {
      Keep(s, t, k);
    }
  }

  lemma NothingToDo(s: State, k: string)
    requires k !in s.sc.cache && k !in s.cap.feed.store
    ensures Agree(ViewAt(s, k))
  {
  }

  lemma NothingOwed(s: State, k: string)
    requires k in s.sc.cache && !Owed(s, k)
    ensures Agree(ViewAt(s, k))
  {
  }

  /** Without a StorageClass no snapshot class matters. */
  lemma NoClassKeeps(s: State, t: State, k: string)
    requires Covered(s, k) && k !in s.sc.cache
    requires t.sc == s.sc && t.pcap == s.pcap && t.cap == s.cap && t.workers == s.workers && t.queue == s.queue
    requires NoteNames(s.snap.notes, true) <= NoteNames(t.snap.notes, true)
    ensures Covered(t, k)
  {
    hide NoteNames, Wired;
    if Attended(s, k) {
      var i :| 0 <= i < |s.workers| && Holds(s.workers[i], k) && Fresh(ViewAt(s, k), s.workers[i]);
      assert Holds(t.workers[i], k) && Fresh(ViewAt(t, k), t.workers[i]);
    }
  }

  /** A deleted object that is stored has been created again, and the event of that is to come. */
  lemma Returns<T>(c: Channel<T>, clock: nat, tomb: bool, k: string)
    requires Buried(c, tomb, k) && ChannelOk(Deliver(c, tomb), clock) && k in c.feed.store
    ensures k in Wired(c.feed.wire[1..])
  {
    if k !in Wired(c.feed.wire[1..]) {
      QuietCache(Deliver(c, tomb), clock, k);
    }
  }

  // ---------------------------------------------------------------- handlers, resyncs, timers

  lemma HandlingKeeps(s: State, step: Step, k: string)
    requires Base(s) && Handling(step) && Enabled(s, step) && Covered(s, k)
    ensures Covered(Next(s, step), k)
  {
    hide Base, Agree, Fresh, Covered, Q.AddAll;
    Q.AddAllAdds(s.queue, Handled(s, step));
    Keep(s, Next(s, step), k);
  }

  /** More notifications herald no fewer keys. */
  lemma MoreNotesKeep(s: State, t: State, k: string)
    requires Covered(s, k)
    requires t == s.(sc := s.sc.(notes := t.sc.notes), snap := s.snap.(notes := t.snap.notes),
                     pcap := s.pcap.(notes := t.pcap.notes), cap := s.cap.(notes := t.cap.notes))
    requires NoteNames(s.sc.notes, true) <= NoteNames(t.sc.notes, true)
    requires NoteNames(s.snap.notes, true) <= NoteNames(t.snap.notes, true)
    requires NoteNames(s.pcap.notes, false) <= NoteNames(t.pcap.notes, false)
    requires NoteNames(s.cap.notes, false) <= NoteNames(t.cap.notes, false)
    ensures Covered(t, k)
  {
    hide Agree, Fresh, Covered, NoteNames, Wired;
    Keep(s, t, k);
  }

  lemma ResyncingKeeps(s: State, step: Step, k: string)
    requires Resyncing(step) && Enabled(s, step) && Covered(s, k)
    ensures Covered(Next(s, step), k)
  {
    hide Covered, ResyncNotes, NoteNames;
    match step {
      case ResyncSc(names) => NoteNamesConcat(s.sc.notes, ResyncNotes(s.sc.cache, names), true);
      case ResyncSnap(names) => NoteNamesConcat(s.snap.notes, ResyncNotes(s.snap.cache, names), true);
      case ResyncPcap(names) => NoteNamesConcat(s.pcap.notes, ResyncNotes(s.pcap.cache, names), false);
      case ResyncCap(names) => NoteNamesConcat(s.cap.notes, ResyncNotes(s.cap.cache, names), false);
      case _ =>
    }
    MoreNotesKeep(s, Next(s, step), k);
  }

  lemma FireKeeps(s: State, key: string, k: string)
    requires key in s.queue.delayed && Covered(s, k)
    ensures Covered(Next(s, Fire(key)), k)
  {
    hide Agree, Fresh, Covered;
    Keep(s, Next(s, Fire(key)), k);
  }

  // ---------------------------------------------------------------- restart

  /** A restart covers every key, from any state in which caches never lie: the initial lists
      announce every StorageClass and every capability. */
  lemma RestartCovers(s: State, boot: Boot, k: string)
    requires ChannelsOk(s) && BootOk(s, boot)
    ensures Covered(Restart(s, boot), k)
  {
    hide ViewAt, Fresh, Attended, Genuine, Newer, Replay;
    var t := Restart(s, boot);
    if k in s.sc.feed.store {
      AddedNames(s.sc.feed.store, boot.sc, true, k);
    } else if k in s.cap.feed.store {
      AddedNames(s.cap.feed.store, boot.cap, false, k);
    } else {
      NothingToDo(t, k);
    }
  }

  // ---------------------------------------------------------------- workers

  /** A step of a worker on one key does not disturb the coverage of another. */
  lemma OtherKey(s: State, t: State, i: nat, k: string)
    requires Covered(s, k) && i < |s.workers| && !Holds(s.workers[i], k)
    requires ViewAt(t, k) == ViewAt(s, k)
    requires Heralded(s, k) ==> Heralded(t, k)
    requires Pending(s, k) ==> Pending(t, k)
    requires |t.workers| == |s.workers|
    requires forall j :: 0 <= j < |s.workers| && j != i ==> t.workers[j] == s.workers[j]
    ensures Covered(t, k)
  {
    hide ViewAt, Agree, Fresh, Heralded, Covered, Pending;
    Keep(s, t, k);
  }

  /** Nobody else holds the key, so it is this worker that attends to it. */
  lemma OneAttendant(s: State, i: nat, k: string)
    requires Staffed(s.queue, s.workers) && i < |s.workers| && Holds(s.workers[i], k) && Covered(s, k)
    ensures Pending(s, k) || Heralded(s, k) || Agree(ViewAt(s, k)) || Fresh(ViewAt(s, k), s.workers[i])
  {
    hide ViewAt, Agree, Fresh, Heralded;
    if Attended(s, k) {
      var j :| 0 <= j < |s.workers| && Holds(s.workers[j], k) && Fresh(ViewAt(s, k), s.workers[j]);
      assert j == i;
    }
  }

  lemma Attends(t: State, i: nat, k: string)
    requires i < |t.workers| && Holds(t.workers[i], k) && Fresh(ViewAt(t, k), t.workers[i])
    ensures Covered(t, k)
  {
  }

  lemma GetKeeps(s: State, i: nat, fault: Fault, boot: Boot, k: string)
    requires Base(s) && WorkEnabled(s, i, fault, boot) && s.workers[i].Idle? && Covered(s, k)
    ensures Covered(WorkNext(s, i, fault, boot), k)
  {
    hide ViewAt, Agree, Covered, Base;
    var t := WorkNext(s, i, fault, boot);
    assert ViewAt(t, k) == ViewAt(s, k) by { SameView(s, t, k); }
    if k == s.queue.order[0] {
      Attends(t, i, k);
    } else {
      OtherKey(s, t, i, k);
    }
  }

  lemma SameView(s: State, t: State, k: string)
    requires t.sc.cache == s.sc.cache && t.pcap.cache == s.pcap.cache && t.snap.cache == s.snap.cache && t.cap.cache == s.cap.cache
    requires Look(t.cap.feed.store, k) == Look(s.cap.feed.store, k)
    ensures ViewAt(t, k) == ViewAt(s, k)
  {
  }

  lemma ReadKeeps(s: State, i: nat, fault: Fault, boot: Boot, k: string)
    requires Base(s) && WorkEnabled(s, i, fault, boot) && Covered(s, k)
    requires s.workers[i].ReadSc? || s.workers[i].ReadPcap? || s.workers[i].ReadSnap? || s.workers[i].ReadCap?
    ensures Covered(WorkNext(s, i, fault, boot), k)
  {
    hide Covered, ChannelOk, Q.Wf, Accounted;
    var t, w := WorkNext(s, i, fault, boot), s.workers[i];
    SameView(s, t, k);
    if w.key != k {
      OtherKey(s, t, i, k);
    } else {
      OneAttendant(s, i, k);
      if Fresh(ViewAt(s, k), w) && !Agree(ViewAt(s, k)) {
        assert ReadsOk(w, s.cap.feed.issued);
        ReadStaysFresh(s, w);
        Attends(t, i, k);
      } else {
        HeraldedIsCovered(t, k);
      }
    }
  }

  /** If what was read is still true, so is what is read next; or the key has nothing left to do. */
  lemma ReadStaysFresh(s: State, w: Worker)
    requires w.ReadSc? || w.ReadPcap? || w.ReadSnap? || w.ReadCap?
    requires Fresh(ViewAt(s, w.key), w) && ReadsOk(w, s.cap.feed.issued)
    ensures Fresh(ViewAt(s, w.key), AfterRead(s, w)) || Agree(ViewAt(s, w.key))
  {
  }

  /** The final call of a sync: if it was built from current reads and accepted, the key agrees; if
      it failed, a retry follows; if it changed ANYTHING, the change will be announced. */
  lemma WriteKeeps(s: State, i: nat, fault: Fault, boot: Boot, k: string)
    requires Base(s) && WorkEnabled(s, i, fault, boot) && Covered(s, k)
    requires s.workers[i].Remove? || s.workers[i].Save?
    requires !Strikes(s, Work(i, fault, boot), k)
    ensures Covered(WorkNext(s, i, fault, boot), k)
  {
    hide Covered, ChannelOk, Q.Wf, Accounted, Agree, Fresh, BootOk, ViewAt;
    var w := s.workers[i];
    if Panics(s, w, fault) {
      if w.Remove? {
        SentOk(s, w, fault);
      }
      RestartCovers(Wreck(s, w, fault), boot, k);
    } else {
      var t, r := WorkNext(s, i, fault, boot), Sent(s, w, fault);
      assert ReadsOk(w, s.cap.feed.issued);
      SentLocal(s, w, fault, k);
      if w.key != k {
        SameView(s, t, k);
        OtherKey(s, t, i, k);
      } else if r.feed != s.cap.feed {
        HeraldedIsCovered(t, k);
      } else {
        SameView(s, t, k);
        OneAttendant(s, i, k);
        if Pending(s, k) || Heralded(s, k) || Agree(ViewAt(s, k)) {
          HeraldedIsCovered(t, k);
        } else if w.Remove? || r.err.Okay? {
          AcceptedAgrees(s, w, fault);
          HeraldedIsCovered(t, k);
        } else {
          assert Fresh(ViewAt(t, k), t.workers[i]) by { FailedIsFresh(ViewAt(t, k), t.workers[i]); }
          Attends(t, i, k);
        }
      }
    }
  }

  lemma FailedIsFresh(v: View, w: Worker)
    requires w.Settle? && !w.ok
    ensures Fresh(v, w)
  {
  }

  lemma SentLocal(s: State, w: Worker, fault: Fault, k: string)
    requires w.Remove? || (w.Save? && BuiltBy(w).Made?)
    requires ReadsOk(w, s.cap.feed.issued)
    ensures var f := Sent(s, w, fault).feed;
            && Wired(s.cap.feed.wire) <= Wired(f.wire)
            && (k != w.key ==> Look(f.store, k) == Look(s.cap.feed.store, k))
            && (f == s.cap.feed || w.key in Wired(f.wire))
  {
    if w.key in s.cap.feed.store {
      DelLocal(s.cap.feed, w.key, s.clock, k);
    }
    if w.Save? {
      PutLocal(s.cap.feed, Obj(w.key, s.clock, BuiltBy(w).obj.val), k);
    }
  }

  /** A call built from reads that are still true, told that all is well, and without effect: then
      there was nothing to change. */
  lemma AcceptedAgrees(s: State, w: Worker, fault: Fault)
    requires w.Remove? || (w.Save? && BuiltBy(w).Made?)
    requires ReadsOk(w, s.cap.feed.issued) && Fresh(ViewAt(s, w.key), w)
    requires Sent(s, w, fault).feed == s.cap.feed
    requires w.Save? ==> Sent(s, w, fault).err.Okay?
    requires w.Remove? ==> !fault.Rejected? || w.key in s.sc.cache || w.key !in s.cap.feed.store
    ensures Agree(ViewAt(s, w.key))
  {
    if w.Remove? {
      if w.key in s.cap.feed.store {
        DelLocal(s.cap.feed, w.key, s.clock, w.key);
      }
    } else {
      PathIndependence(w.sc, w.snap, w.pcap, w.cap);
      PutLocal(s.cap.feed, Obj(w.key, s.clock, BuiltBy(w).obj.val), w.key);
    }
  }

  /** No worker ever has a nil object to send, and the one panic of a build is a nil AllowVolumeExpansion. */
  lemma NoNilObject(s: State, i: nat)
    requires Base(s) && i < |s.workers| && s.workers[i].Save?
    ensures !BuiltBy(s.workers[i]).Nil?
    ensures BuiltBy(s.workers[i]).Panic? <==> s.workers[i].sc.val.allowExpansion.None?
  {
    hide ChannelOk, Q.Wf, Staffed, Accounted;
    var w := s.workers[i];
    assert ReadsOk(w, s.cap.feed.issued);
    PathIndependence(w.sc, w.snap, w.pcap, w.cap);
  }

  /** Stale-cache safety.  A capability believed absent that exists, or believed to be a version that
      is no longer stored, is left as it is and the key is retried.  Only the exact object that was
      read is ever replaced, and only its spec changes, so no concurrent edit is overwritten. */
  lemma StaleCacheSafety(s: State, i: nat, fault: Fault, boot: Boot)
    requires Base(s) && WorkEnabled(s, i, fault, boot) && s.workers[i].Save? && BuiltBy(s.workers[i]).Made?
    ensures var w, t := s.workers[i], WorkNext(s, i, fault, boot);
            && (Look(s.cap.feed.store, w.key) != w.cap ==>
                  t.cap == s.cap && t.clock == s.clock && t.workers[i] == Settle(w.key, false))
            && (t.cap.feed != s.cap.feed ==>
                  && Look(s.cap.feed.store, w.key) == w.cap
                  && w.key in t.cap.feed.store
                  && t.cap.feed.store[w.key].rv == s.clock
                  && (w.cap.Some? ==> t.cap.feed.store[w.key].val.meta == w.cap.value.val.meta))
  {
    hide Q.Wf, Staffed, Accounted, Replay, Newer, NameKeyed, Wired, BootOk;
    var w := s.workers[i];
    assert ReadsOk(w, s.cap.feed.issued);
    PathIndependence(w.sc, w.snap, w.pcap, w.cap);
  }

  lemma SettleKeeps(s: State, i: nat, fault: Fault, boot: Boot, k: string)
    requires Base(s) && WorkEnabled(s, i, fault, boot) && Covered(s, k) && s.workers[i].Settle?
    ensures Covered(WorkNext(s, i, fault, boot), k)
  {
    hide Covered, ChannelOk, Q.Wf, Accounted, Agree, ViewAt;
    var t := WorkNext(s, i, fault, boot);
    SameView(s, t, k);
    if s.workers[i].key != k {
      OtherKey(s, t, i, k);
    } else {
      OneAttendant(s, i, k);
      HeraldedIsCovered(t, k);
    }
  }

  lemma CloseKeeps(s: State, i: nat, fault: Fault, boot: Boot, k: string)
    requires Base(s) && WorkEnabled(s, i, fault, boot) && Covered(s, k) && s.workers[i].Close?
    ensures Covered(WorkNext(s, i, fault, boot), k)
  {
    hide Covered, ChannelOk, Q.Wf, Accounted, Agree, ViewAt;
    var t := WorkNext(s, i, fault, boot);
    SameView(s, t, k);
    if s.workers[i].key != k {
      OtherKey(s, t, i, k);
    } else {
      OneAttendant(s, i, k);
      HeraldedIsCovered(t, k);
    }
  }

  /** The central step lemma: no step loses a wakeup, unless a defect strikes a key that nothing else
      announces. */
  lemma StepKeeps(s: State, step: Step, k: string)
    requires Base(s) && Enabled(s, step) && Covered(s, k) && !Lossy(s, step, k)
    ensures Covered(Next(s, step), k)
  {
    hide Base, Covered, Strikes, Announced, Enabled, Next;
    if Announced(Next(s, step), k) {
      AnnouncedIsCovered(Next(s, step), k);
    } else {
      HarmlessKeeps(s, step, k);
    }
  }

  lemma AnnouncedIsCovered(s: State, k: string)
    requires Announced(s, k)
    ensures Covered(s, k)
  {
    hide Heralded, Pending;
  }

  lemma HarmlessKeeps(s: State, step: Step, k: string)
    requires Base(s) && Enabled(s, step) && Covered(s, k) && !Strikes(s, step, k)
    ensures Covered(Next(s, step), k)
  {
    hide Base, Covered, Strikes, ChannelOk, BootOk;
    if External(step) {
      ExternalKeeps(s, step, k);
    } else if Handling(step) {
      HandlingKeeps(s, step, k);
    } else if Resyncing(step) {
      ResyncingKeeps(s, step, k);
    } else {
      match step {
        case DeliverSc(tomb) => DeliverScKeeps(s, tomb, k);
        case DeliverSnap(tomb) => DeliverSnapKeeps(s, tomb, k);
        case DeliverPcap(tomb) => DeliverPcapKeeps(s, tomb, k);
        case DeliverCap(tomb) => DeliverCapKeeps(s, tomb, k);
        case Fire(key) => FireKeeps(s, key, k);
        case Work(i, fault, boot) => WorkKeeps(s, i, fault, boot, k);
        case Kill(boot) => KillCovers(s, boot, k);
        case _ =>
      }
    }
  }

  lemma KillCovers(s: State, boot: Boot, k: string)
    requires Base(s) && BootOk(s, boot)
    ensures Covered(Next(s, Kill(boot)), k)
  {
    hide ChannelOk, Covered;
    RestartCovers(s, boot, k);
  }

  lemma WorkKeeps(s: State, i: nat, fault: Fault, boot: Boot, k: string)
    requires Base(s) && WorkEnabled(s, i, fault, boot) && Covered(s, k) && !Strikes(s, Work(i, fault, boot), k)
    ensures Covered(WorkNext(s, i, fault, boot), k)
  {
    hide Base, Covered, Strikes, WorkNext;
    var w := s.workers[i];
    if w.Idle? {
      GetKeeps(s, i, fault, boot, k);
    } else if w.Settle? {
      SettleKeeps(s, i, fault, boot, k);
    } else if w.Close? {
      CloseKeeps(s, i, fault, boot, k);
    } else if w.Remove? || w.Save? {
      WriteKeeps(s, i, fault, boot, k);
    } else {
      ReadKeeps(s, i, fault, boot, k);
    }
  }
}
