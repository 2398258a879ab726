/** The protocol settles.

    Leave the API server alone, stop the resyncs and let no call fail.  Although every sync of an
    existing capability issues an Update, and each capability event enqueues its own key again, every
    run then ends, provided capability events are eventually delivered; and where it ends, every key
    agrees.  Without delivery a stale read can make the same Create or Update fail forever, so this
    proviso cannot be dropped.  The proof is a lexicographic rank. */
module Drain {
  import opened Kube
  import opened Capability
  import opened Reconcile
  import opened ReconcileBase
  import opened ReconcileSafety
  import opened ReconcileRuns
  import Q = WorkQueue

  /** The controller's own steps, with a server that answers. */
  ghost predicate Draining(step: Step) {
    Delivery(step) || Handling(step) || step.Fire? || (step.Work? && step.fault.NoFault?)
  }

  /** No StorageClass at the server makes the build panic. */
  ghost predicate Buildable(s: State) {
    forall k :: k in s.sc.feed.store && k != "" && s.sc.feed.store[k].val.provisioner in s.pcap.feed.store
                ==> s.sc.feed.store[k].val.allowExpansion.Some?
  }

  // ---------------------------------------------------------------- counting workers

  ghost function Tally(ws: seq<Worker>, f: Worker -> nat): nat {
    if ws == [] then 0 else f(ws[0]) + Tally(ws[1..], f)
  }

  lemma {:induction false} TallyUpdate(ws: seq<Worker>, f: Worker -> nat, i: nat, w: Worker)
    requires i < |ws|
    ensures Tally(ws[i := w], f) + f(ws[i]) == Tally(ws, f) + f(w)
  {
    if i == 0 {
      assert ws[0 := w][1..] == ws[1..];
    } else {
      assert ws[i := w][1..] == ws[1..][i - 1 := w];
      TallyUpdate(ws[1..], f, i - 1, w);
    }
  }

  lemma {:induction false} TallySame(ws: seq<Worker>, f: Worker -> nat, g: Worker -> nat)
    requires forall i :: 0 <= i < |ws| ==> f(ws[i]) == g(ws[i])
    ensures Tally(ws, f) == Tally(ws, g)
  {
    if ws != [] {
      assert f(ws[0]) == g(ws[0]);
      forall i | 0 <= i < |ws[1..]|
        ensures f(ws[1..][i]) == g(ws[1..][i])
      {
        assert ws[1..][i] == ws[i + 1];
      }
      TallySame(ws[1..], f, g);
    }
  }

  lemma {:induction false} TallyIdlers(ws: seq<Worker>, f: Worker -> nat)
    requires f(Idle) == 0 && forall i :: 0 <= i < |ws| ==> ws[i].Idle?
    ensures Tally(ws, f) == 0
  {
    if ws != [] {
      assert ws[0].Idle?;
      TallyIdlers(ws[1..], f);
    }
  }

  lemma {:induction false} TallyMember(ws: seq<Worker>, f: Worker -> nat, i: nat)
    requires i < |ws|
    ensures Tally(ws, f) >= f(ws[i])
  {
    if i > 0 {
      TallyMember(ws[1..], f, i - 1);
    }
  }

  // ---------------------------------------------------------------- the rank

  /** What the worker has read of the build's inputs is still cached. */
  ghost predicate InputsTrue(v: View, w: Worker) {
    match w
    case Remove(_) => v.sc.None?
    case ReadPcap(_, sc) => v.sc == Some(sc)
    case ReadSnap(_, sc, pcap) => v.sc == Some(sc) && v.pcap == Some(pcap)
    case ReadCap(_, sc, pcap, snap) => v.sc == Some(sc) && v.pcap == Some(pcap) && v.snap == snap
    case Save(_, sc, pcap, snap, _) => v.sc == Some(sc) && v.pcap == Some(pcap) && v.snap == snap
    case _ => true
  }

  ghost function StaleInputs(s: State, w: Worker): nat {
    if w.Idle? || InputsTrue(ViewAt(s, w.key), w) then 0 else 1
  }

  ghost function StaleCap(s: State, w: Worker): nat {
    if w.Save? && w.cap != Look(s.cap.cache, w.key) then 1 else 0
  }

  /** How many more actions a worker takes at most before it is idle, a retry included. */
  function Weight(w: Worker): nat {
    match w
    case Idle => 0
    case Close(_) => 1
    case Settle(_, ok) => if ok then 2 else 11
    case Save(_, _, _, _, _) => 3
    case Remove(_) => 3
    case ReadCap(_, _, _, _) => 4
    case ReadSnap(_, _, _) => 5
    case ReadPcap(_, _) => 6
    case ReadSc(_) => 7
  }

  ghost function Disagreeing(s: State): set<string> {
    set k | k in s.sc.cache.Keys + s.cap.feed.store.Keys && !Agree(ViewAt(s, k))
  }

  ghost function InputEvents(s: State): nat { |s.sc.feed.wire| + |s.snap.feed.wire| + |s.pcap.feed.wire| }
  ghost function StaleWorkers(s: State): nat { Tally(s.workers, w => StaleInputs(s, w)) }
  ghost function StaleSaves(s: State): nat { Tally(s.workers, w => StaleCap(s, w)) }
  ghost function Notifications(s: State): nat { |s.sc.notes| + |s.snap.notes| + |s.pcap.notes| + |s.cap.notes| }
  ghost function Chores(s: State): nat {
    8 * |s.queue.dirty| + 9 * |s.queue.delayed| + Tally(s.workers, w => Weight(w))
  }

  /** inputs: undelivered events of the three input kinds.  stale: workers whose inputs are outdated.
      wrong: keys that disagree.  events: undelivered capability events.  saves: workers about to
      write on an outdated capability.  notes, chores: notifications, and queue and worker actions. */
  datatype Rank = Rank(inputs: nat, stale: nat, wrong: nat, events: nat, saves: nat, notes: nat, chores: nat)

  ghost function RankOf(s: State): Rank {
    Rank(InputEvents(s), StaleWorkers(s), |Disagreeing(s)|, |s.cap.feed.wire|, StaleSaves(s), Notifications(s), Chores(s))
  }

  /** Less in the first four components, lexicographically. */
  predicate Sinks(a: Rank, b: Rank) {
    || a.inputs < b.inputs
    || (a.inputs == b.inputs && a.stale < b.stale)
    || (a.inputs == b.inputs && a.stale == b.stale && a.wrong < b.wrong)
    || (a.inputs == b.inputs && a.stale == b.stale && a.wrong == b.wrong && a.events < b.events)
  }

  predicate Level(a: Rank, b: Rank) {
    a.inputs == b.inputs && a.stale == b.stale && a.wrong == b.wrong && a.events == b.events
  }

  /** Less lexicographically. */
  predicate Less(a: Rank, b: Rank) {
    || Sinks(a, b)
    || (Level(a, b) && a.saves < b.saves)
    || (Level(a, b) && a.saves == b.saves && a.notes < b.notes)
    || (Level(a, b) && a.saves == b.saves && a.notes == b.notes && a.chores < b.chores)
  }

  /** A write that fails because a capability event for its key has not been delivered yet. */
  predicate StaleRetry(s: State, step: Step) {
    step.Work? && step.i < |s.workers| && s.workers[step.i].Save? && s.workers[step.i].key in Wired(s.cap.feed.wire)
  }

  // ---------------------------------------------------------------- informers, handlers, timers

  lemma SameInputs(s: State, t: State)
    requires t.sc.cache == s.sc.cache && t.pcap.cache == s.pcap.cache && t.snap.cache == s.snap.cache
    requires t.workers == s.workers
    ensures StaleWorkers(t) == StaleWorkers(s)
  {
    hide InputsTrue;
    forall i | 0 <= i < |s.workers|
      ensures StaleInputs(t, s.workers[i]) == StaleInputs(s, s.workers[i])
    {
      SameInputsOne(s, t, s.workers[i]);
    }
    TallySame(s.workers, w => StaleInputs(t, w), w => StaleInputs(s, w));
  }

  lemma SameInputsOne(s: State, t: State, w: Worker)
    requires t.sc.cache == s.sc.cache && t.pcap.cache == s.pcap.cache && t.snap.cache == s.snap.cache
    ensures StaleInputs(t, w) == StaleInputs(s, w)
  {
  }

  lemma SameWrong(s: State, t: State)
    requires t.sc.cache == s.sc.cache && t.pcap.cache == s.pcap.cache && t.snap.cache == s.snap.cache
    requires t.cap.feed.store == s.cap.feed.store
    ensures Disagreeing(t) == Disagreeing(s)
  {
    hide Describes;
    forall k
      ensures Agree(ViewAt(t, k)) <==> Agree(ViewAt(s, k))
    {
    }
  }

  lemma SameSaves(s: State, t: State)
    requires t.cap.cache == s.cap.cache && t.workers == s.workers
    ensures StaleSaves(t) == StaleSaves(s)
  {
    TallySame(s.workers, w => StaleCap(t, w), w => StaleCap(s, w));
  }

  lemma DeliverySinks(s: State, step: Step)
    requires Delivery(step) && Enabled(s, step)
    ensures Sinks(RankOf(Next(s, step)), RankOf(s))
  {
    hide StaleWorkers, Disagreeing, StaleSaves, Chores;
    if step.DeliverCap? {
      SameInputs(s, Next(s, step));
      SameWrong(s, Next(s, step));
    }
  }

  lemma HandlingLess(s: State, step: Step)
    requires Handling(step) && Enabled(s, step)
    ensures Less(RankOf(Next(s, step)), RankOf(s))
  {
    hide StaleWorkers, Disagreeing, StaleSaves, Chores, Q.AddAll;
    var t := Next(s, step);
    SameInputs(s, t);
    SameWrong(s, t);
    SameSaves(s, t);
  }

  lemma FireLess(s: State, k: string)
    requires k in s.queue.delayed
    ensures Less(RankOf(Next(s, Fire(k))), RankOf(s))
  {
    hide StaleWorkers, Disagreeing, StaleSaves;
    var t := Next(s, Fire(k));
    SameInputs(s, t);
    SameWrong(s, t);
    SameSaves(s, t);
    assert |t.queue.delayed| == |s.queue.delayed| - 1;
    assert k !in s.queue.dirty ==> |t.queue.dirty| == |s.queue.dirty| + 1;
  }

  // ---------------------------------------------------------------- workers

  /** A worker's step that leaves the server and the caches alone. */
  lemma LocalLess(s: State, t: State, i: nat)
    requires i < |s.workers| && |t.workers| == |s.workers| && t.workers == s.workers[i := t.workers[i]]
    requires t.sc == s.sc && t.pcap == s.pcap && t.snap == s.snap && t.cap == s.cap
    requires StaleInputs(s, t.workers[i]) <= StaleInputs(s, s.workers[i])
    requires StaleCap(s, t.workers[i]) <= StaleCap(s, s.workers[i])
    requires 8 * |t.queue.dirty| + 9 * |t.queue.delayed| + Weight(t.workers[i])
               < 8 * |s.queue.dirty| + 9 * |s.queue.delayed| + Weight(s.workers[i])
    ensures Less(RankOf(t), RankOf(s))
  {
    hide StaleInputs, StaleCap, Disagreeing, Weight;
    var u := s.(workers := t.workers);
    SameInputs(u, t);
    SameWrong(s, t);
    SameSaves(u, t);
    StaleAfter(s, u, i);
    TallyUpdate(s.workers, w => Weight(w), i, t.workers[i]);
  }

  /** Only the caches matter to the two stale counts, so they change by one worker at most. */
  lemma StaleAfter(s: State, u: State, i: nat)
    requires i < |s.workers| == |u.workers| && u == s.(workers := s.workers[i := u.workers[i]])
    ensures StaleWorkers(u) + StaleInputs(s, s.workers[i]) == StaleWorkers(s) + StaleInputs(s, u.workers[i])
    ensures StaleSaves(u) + StaleCap(s, s.workers[i]) == StaleSaves(s) + StaleCap(s, u.workers[i])
  {
    hide InputsTrue;
    forall j | 0 <= j < |u.workers|
      ensures StaleInputs(u, u.workers[j]) == StaleInputs(s, u.workers[j])
    {
      SameInputsOne(s, u, u.workers[j]);
    }
    TallySame(u.workers, w => StaleInputs(u, w), w => StaleInputs(s, w));
    TallySame(u.workers, w => StaleCap(u, w), w => StaleCap(s, w));
    TallyUpdate(s.workers, w => StaleInputs(s, w), i, u.workers[i]);
    TallyUpdate(s.workers, w => StaleCap(s, w), i, u.workers[i]);
  }

  lemma GetLess(s: State, i: nat, boot: Boot)
    requires Base(s) && WorkEnabled(s, i, NoFault, boot) && s.workers[i].Idle?
    ensures Less(RankOf(WorkNext(s, i, NoFault, boot)), RankOf(s))
  {
    hide Less, RankOf, ChannelOk, Accounted, ReadsOk, Staffed;
    Q.GetWf(s.queue);
    LocalLess(s, WorkNext(s, i, NoFault, boot), i);
  }

  lemma GiveBackLess(s: State, i: nat, boot: Boot)
    requires WorkEnabled(s, i, NoFault, boot) && (s.workers[i].Settle? || s.workers[i].Close?)
    ensures Less(RankOf(WorkNext(s, i, NoFault, boot)), RankOf(s))
  {
    hide Less, RankOf;
    LocalLess(s, WorkNext(s, i, NoFault, boot), i);
  }

  lemma ReadLess(s: State, i: nat, fault: Fault, boot: Boot)
    requires Base(s) && WorkEnabled(s, i, fault, boot)
    requires s.workers[i].ReadSc? || s.workers[i].ReadPcap? || s.workers[i].ReadSnap? || s.workers[i].ReadCap?
    ensures Less(RankOf(WorkNext(s, i, fault, boot)), RankOf(s))
  {
    hide Less, RankOf, ChannelOk, Accounted, Staffed, Q.Wf;
    assert ReadsOk(s.workers[i], s.cap.feed.issued);
    LocalLess(s, WorkNext(s, i, fault, boot), i);
  }

  /** A final call that changes nothing at the server: accepted as a no-op, or refused. */
  lemma NoEffectLess(s: State, i: nat, boot: Boot)
    requires Base(s) && WorkEnabled(s, i, NoFault, boot) && !Panics(s, s.workers[i], NoFault)
    requires s.workers[i].Remove? || s.workers[i].Save?
    requires Sent(s, s.workers[i], NoFault).feed == s.cap.feed
    ensures var t := WorkNext(s, i, NoFault, boot);
            || Less(RankOf(t), RankOf(s))
            || (StaleRetry(s, Work(i, NoFault, boot)) && (Sinks(RankOf(t), RankOf(s)) || Level(RankOf(t), RankOf(s))))
  {
    hide ChannelOk, Accounted, Staffed, Q.Wf, InputsTrue, Weight, Disagreeing, ViewAt;
    var t, w := WorkNext(s, i, NoFault, boot), s.workers[i];
    assert t.cap == s.cap && t.workers[i].Settle?;
    assert InputsTrue(ViewAt(s, w.key), t.workers[i]) by { SettledInputs(ViewAt(s, w.key), t.workers[i]); }
    if t.workers[i].ok {
      assert Weight(t.workers[i]) < Weight(w) by { SettledWeight(w, t.workers[i]); }
      LocalLess(s, t, i);
    } else {
      var u := s.(workers := t.workers);
      SameInputs(u, t);
      SameWrong(s, t);
      SameSaves(u, t);
      StaleAfter(s, u, i);
      if w.key !in Wired(s.cap.feed.wire) {
        QuietCache(s.cap, s.clock, w.key);
        RefusedIsStale(s, w);
      }
    }
  }

  lemma SettledInputs(v: View, w: Worker)
    requires w.Settle?
    ensures InputsTrue(v, w)
  {
  }

  lemma SettledWeight(w: Worker, x: Worker)
    requires w.Remove? || w.Save?
    requires x.Settle? && x.ok
    ensures Weight(x) < Weight(w)
  {
  }

  /** With an up-to-date cache, a working server refuses only what was read before. */
  lemma RefusedIsStale(s: State, w: Worker)
    requires w.Save? && BuiltBy(w).Made? && ReadsOk(w, s.cap.feed.issued)
    requires Look(s.cap.cache, w.key) == Look(s.cap.feed.store, w.key)
    requires !Sent(s, w, NoFault).err.Okay?
    ensures StaleCap(s, w) == 1
  {
  }

  /** A final call that changes the server, from inputs that are still cached, settles its key. */
  lemma EffectSettles(s: State, w: Worker)
    requires ChannelOk(s.cap, s.clock) && ReadsOk(w, s.cap.feed.issued) && !w.Idle? && InputsTrue(ViewAt(s, w.key), w)
    requires w.Remove? || (w.Save? && BuiltBy(w).Made?)
    requires Sent(s, w, NoFault).feed != s.cap.feed
    ensures w.key in Disagreeing(s) && w.key !in Disagreeing(Replied(s, Sent(s, w, NoFault)))
  {
    hide Newer, Replay;
    if w.Save? {
      PathIndependence(w.sc, w.snap, w.pcap, w.cap);
      if w.cap.Some? && Agree(ViewAt(s, w.key)) {
        DescribesOne(s.cap.feed.store[w.key].val.spec, BuiltBy(w).obj.val.spec, w.sc, w.snap, w.pcap);
      }
    }
  }

  lemma OthersStay(s: State, w: Worker)
    requires w.Remove? || (w.Save? && BuiltBy(w).Made?)
    requires ReadsOk(w, s.cap.feed.issued)
    requires w.key in Disagreeing(s) && w.key !in Disagreeing(Replied(s, Sent(s, w, NoFault)))
    ensures |Disagreeing(Replied(s, Sent(s, w, NoFault)))| < |Disagreeing(s)|
  {
    hide Agree, Sent;
    var t := Replied(s, Sent(s, w, NoFault));
    forall k | k in Disagreeing(t)
      ensures k in Disagreeing(s) - {w.key}
    {
      SentLocal(s, w, NoFault, k);
      SameView(s, t, k);
      assert Look(t.cap.feed.store, k) == Look(s.cap.feed.store, k);
    }
    Smaller(Disagreeing(t), Disagreeing(s), w.key);
  }

  lemma Smaller(a: set<string>, b: set<string>, k: string)
    requires k in b && a <= b - {k}
    ensures |a| < |b|
  {
    if |a| >= |b| {
      assert |b - {k}| == |b| - 1;
      SubsetSize(a, b - {k});
    }
  }

  lemma SubsetSize(a: set<string>, b: set<string>)
    requires a <= b
    ensures |a| <= |b|
  {
    assert b == a + (b - a);
  }

  lemma EffectSinks(s: State, i: nat, boot: Boot)
    requires Base(s) && WorkEnabled(s, i, NoFault, boot) && !Panics(s, s.workers[i], NoFault)
    requires s.workers[i].Remove? || s.workers[i].Save?
    requires Sent(s, s.workers[i], NoFault).feed != s.cap.feed
    ensures Sinks(RankOf(WorkNext(s, i, NoFault, boot)), RankOf(s))
  {
    hide ChannelOk, Accounted, Staffed, Q.Wf, InputsTrue, Weight, Disagreeing, ViewAt, Agree, Sent;
    var t, w := WorkNext(s, i, NoFault, boot), s.workers[i];
    assert ReadsOk(w, s.cap.feed.issued);
    var u := s.(workers := t.workers);
    SameInputs(u, t);
    StaleAfter(s, u, i);
    assert InputsTrue(ViewAt(s, w.key), t.workers[i]) by { SettledInputs(ViewAt(s, w.key), t.workers[i]); }
    if StaleInputs(s, w) == 0 {
      EffectSettles(s, w);
      OthersStay(s, w);
      SameWrong(Replied(s, Sent(s, w, NoFault)), t);
    }
  }

  // ---------------------------------------------------------------- panics

  lemma RestartClears(s: State, boot: Boot)
    requires BootOk(s, boot)
    ensures InputEvents(Restart(s, boot)) == 0 && StaleWorkers(Restart(s, boot)) == 0
  {
    var t := Restart(s, boot);
    TallyIdlers(t.workers, w => StaleInputs(t, w));
  }

  /** With no input event in flight the caches hold the server's inputs, before and after. */
  lemma SettledCaches(s: State, boot: Boot)
    requires ChannelsOk(s) && BootOk(s, boot) && InputEvents(s) == 0
    ensures Disagreeing(Restart(s, boot)) == Disagreeing(s)
  {
    hide Agree, Genuine, Newer;
    assert s.sc.cache == s.sc.feed.store && s.snap.cache == s.snap.feed.store && s.pcap.cache == s.pcap.feed.store;
    SameWrong(s, Restart(s, boot));
  }

  /** A panic with outdated caches or reads renews them all; otherwise it was a deletion, which has
      removed a disagreement, for a buildable StorageClass never panics. */
  lemma PanicSinks(s: State, i: nat, boot: Boot)
    requires Base(s) && Buildable(s) && WorkEnabled(s, i, NoFault, boot) && Panics(s, s.workers[i], NoFault)
    ensures Sinks(RankOf(WorkNext(s, i, NoFault, boot)), RankOf(s))
  {
    hide ChannelOk, Accounted, Staffed, Q.Wf, InputsTrue, Weight, Disagreeing, ViewAt, Agree, Sent, StaleWorkers, InputEvents, BuiltBy;
    var w := s.workers[i];
    var wreck := Wreck(s, w, NoFault);
    RestartClears(wreck, boot);
    assert ReadsOk(w, s.cap.feed.issued);
    if InputEvents(s) == 0 && StaleWorkers(s) == 0 {
      assert StaleInputs(s, w) == 0 by { NoStale(s, i); }
      if w.Remove? {
        SentOk(s, w, NoFault);
        DeletionHasEffect(s, w);
        EffectSettles(s, w);
        OthersStay(s, w);
        assert InputEvents(wreck) == 0 by { SameEvents(s, wreck); }
        SettledCaches(wreck, boot);
      } else {
        NoBuildPanic(s, w);
      }
    }
  }

  lemma SameEvents(s: State, t: State)
    requires t.sc == s.sc && t.snap == s.snap && t.pcap == s.pcap
    ensures InputEvents(t) == InputEvents(s)
  {
  }

  lemma NoStale(s: State, i: nat)
    requires i < |s.workers| && StaleWorkers(s) == 0
    ensures StaleInputs(s, s.workers[i]) == 0
  {
    TallyMember(s.workers, w => StaleInputs(s, w), i);
  }

  lemma DeletionHasEffect(s: State, w: Worker)
    requires w.Remove? && Sent(s, w, NoFault).err.Okay?
    ensures Sent(s, w, NoFault).feed != s.cap.feed
  {
    DelLocal(s.cap.feed, w.key, s.clock, w.key);
  }

  lemma NoBuildPanic(s: State, w: Worker)
    requires ChannelsOk(s) && Buildable(s) && InputEvents(s) == 0
    requires w.Save? && ReadsOk(w, s.cap.feed.issued) && InputsTrue(ViewAt(s, w.key), w)
    ensures BuiltBy(w).Made?
  {
    hide Genuine, Newer, NameKeyed;
    assert s.sc.cache == s.sc.feed.store && s.pcap.cache == s.pcap.feed.store;
    PathIndependence(w.sc, w.snap, w.pcap, w.cap);
  }

  // ---------------------------------------------------------------- one step

  lemma WorkRank(s: State, i: nat, boot: Boot)
    requires Base(s) && Buildable(s) && WorkEnabled(s, i, NoFault, boot)
    ensures var t := WorkNext(s, i, NoFault, boot);
            || Less(RankOf(t), RankOf(s))
            || (StaleRetry(s, Work(i, NoFault, boot)) && (Sinks(RankOf(t), RankOf(s)) || Level(RankOf(t), RankOf(s))))
  {
    hide RankOf, Base, Buildable, WorkNext, Sent, BootOk, Wired;
    var w := s.workers[i];
    if w.Idle? {
      GetLess(s, i, boot);
    } else if w.Settle? || w.Close? {
      GiveBackLess(s, i, boot);
    } else if w.Remove? || w.Save? {
      if Panics(s, w, NoFault) {
        PanicSinks(s, i, boot);
      } else if Sent(s, w, NoFault).feed == s.cap.feed {
        NoEffectLess(s, i, boot);
      } else {
        EffectSinks(s, i, boot);
      }
    } else {
      ReadLess(s, i, NoFault, boot);
    }
  }

  /** Every step of a draining controller lowers the rank, except a write that is refused because the
      event it missed is still in flight; and no step raises the first four components. */
  lemma DrainRank(s: State, step: Step)
    requires Base(s) && Buildable(s) && Draining(step) && Enabled(s, step)
    ensures Sinks(RankOf(Next(s, step)), RankOf(s)) || Level(RankOf(Next(s, step)), RankOf(s))
    ensures Delivery(step) ==> Sinks(RankOf(Next(s, step)), RankOf(s))
    ensures Less(RankOf(Next(s, step)), RankOf(s)) || StaleRetry(s, step)
  {
    hide RankOf, Base, Buildable, WorkNext, StaleRetry;
    if Delivery(step) {
      DeliverySinks(s, step);
    } else if Handling(step) {
      HandlingLess(s, step);
    } else if step.Fire? {
      FireLess(s, step.key);
    } else {
      WorkRank(s, step.i, step.boot);
    }
  }

  /** The API server's inputs are not the controller's to change. */
  ghost predicate SameServer(s: State, t: State) {
    t.sc.feed.store == s.sc.feed.store && t.pcap.feed.store == s.pcap.feed.store && t.snap.feed.store == s.snap.feed.store
  }

  lemma WorkSameServer(s: State, i: nat, fault: Fault, boot: Boot)
    requires WorkEnabled(s, i, fault, boot)
    ensures SameServer(s, WorkNext(s, i, fault, boot))
  {
    hide Panics, Sent, BuiltBy, AfterRead, BootOk, AddedNotes;
  }

  lemma DrainSameServer(s: State, step: Step)
    requires Draining(step) && Enabled(s, step)
    ensures SameServer(s, Next(s, step))
  {
    hide Apply, NoteOf, Q.AddAll, Q.Fire, WorkNext, WorkEnabled, PcapKeys;
    if step.Work? {
      WorkSameServer(s, step.i, step.fault, step.boot);
    }
  }

  lemma DrainStaysBuildable(s: State, step: Step)
    requires Buildable(s) && Draining(step) && Enabled(s, step)
    ensures Buildable(Next(s, step))
  {
    hide Enabled, Next, Draining;
    DrainSameServer(s, step);
  }

  // ---------------------------------------------------------------- with all inputs delivered

  /** Every input event has been delivered and no worker has read an input that is outdated. */
  ghost predicate Informed(s: State) {
    InputEvents(s) == 0 && StaleWorkers(s) == 0
  }

  lemma WorkStaysInformed(s: State, i: nat, boot: Boot)
    requires Base(s) && Informed(s) && WorkEnabled(s, i, NoFault, boot)
    ensures Informed(WorkNext(s, i, NoFault, boot))
  {
    hide Base, WorkNext, Sent, BootOk, Wired, InputEvents, StaleWorkers, Disagreeing, StaleSaves, Notifications, Chores;
    var w := s.workers[i];
    if w.Idle? {
      GetLess(s, i, boot);
    } else if w.Settle? || w.Close? {
      GiveBackLess(s, i, boot);
    } else if w.Remove? || w.Save? {
      if Panics(s, w, NoFault) {
        RestartInforms(s, i, boot);
      } else if Sent(s, w, NoFault).feed == s.cap.feed {
        NoEffectLess(s, i, boot);
      } else {
        EffectSinks(s, i, boot);
      }
    } else {
      ReadLess(s, i, NoFault, boot);
    }
  }

  lemma RestartInforms(s: State, i: nat, boot: Boot)
    requires WorkEnabled(s, i, NoFault, boot) && Panics(s, s.workers[i], NoFault)
    requires s.workers[i].Remove? || s.workers[i].Save?
    ensures Informed(WorkNext(s, i, NoFault, boot))
  {
    hide BootOk, Sent, BuiltBy, Restart, StaleWorkers, InputEvents, Panics;
    RestartClears(Wreck(s, s.workers[i], NoFault), boot);
  }

  lemma DrainStaysInformed(s: State, step: Step)
    requires Base(s) && Informed(s) && Draining(step) && Enabled(s, step)
    ensures Informed(Next(s, step))
  {
    hide Base, WorkNext, WorkEnabled, StaleWorkers, InputEvents, Disagreeing, StaleSaves, Notifications, Chores;
    if Delivery(step) {
      DeliverySinks(s, step);
    } else if Handling(step) {
      HandlingLess(s, step);
    } else if step.Fire? {
      FireLess(s, step.key);
    } else {
      WorkStaysInformed(s, step.i, step.boot);
    }
  }
}
