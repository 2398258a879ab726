/** pkg/generated/informers/externalversions/factory.go: informers are made once per type and run once. */
module InformerFactory {
  class SharedIndexInformer {
    const resync: int
    /** How many goroutines have been started on Run. */
    var runs: nat

    constructor (resync: int)
      ensures this.resync == resync && runs == 0
    {
      this.resync := resync;
      runs := 0;
    }

    method Run()
      modifies this
      ensures runs == old(runs) + 1
    {
      runs := runs + 1;
    }
  }

  class SharedInformerFactory {
    const defaultResync: int
    const customResync: map<string, int>
    var informers: map<string, SharedIndexInformer>
    var startedInformers: map<string, bool>

    predicate Started(t: string)
      reads this
    {
      t in startedInformers && startedInformers[t]
    }

    /** Started types are registered, each informer has run once if its type is started and not at all
        otherwise, and no two types share an informer. */
    ghost predicate Valid()
      reads this, informers.Values
    {
      && (forall t :: Started(t) ==> t in informers)
      && (forall t :: t in informers ==> informers[t].runs == if Started(t) then 1 else 0)
      && (forall t, u :: t in informers && u in informers && t != u ==> informers[t] != informers[u])
    }

    constructor (defaultResync: int, customResync: map<string, int>)
      ensures Valid() && informers == map[] && startedInformers == map[]
      ensures this.defaultResync == defaultResync && this.customResync == customResync
    {
      this.defaultResync, this.customResync := defaultResync, customResync;
      informers, startedInformers := map[], map[];
    }

    method InformerFor(t: string) returns (informer: SharedIndexInformer)
      requires Valid()
      modifies this`informers
      ensures Valid() && t in informers && informers[t] == informer
      ensures t in old(informers) ==> informers == old(informers)
      ensures t !in old(informers) ==>
                && informers == old(informers)[t := informer] && fresh(informer)
                && informer.resync == if t in customResync then customResync[t] else defaultResync
    {
      if t in informers {
        return informers[t];
      }
      var resyncPeriod := defaultResync;
      if t in customResync {
        resyncPeriod := customResync[t];
      }
      informer := new SharedIndexInformer(resyncPeriod);
      informers := informers[t := informer];
    }

    /** Whatever the map order, exactly the registered informers that had not been started are run, once
        each. */
    method Start()
      requires Valid()
      modifies this`startedInformers, informers.Values
      ensures Valid()
      ensures forall t :: Started(t) <==> t in informers
      ensures forall t :: t in informers ==> informers[t].runs == old(informers[t].runs) + if old(Started(t)) then 0 else 1
    {
      var todo := informers.Keys;
      while todo != {}
        invariant todo <= informers.Keys
        invariant Valid()
        invariant forall t :: Started(t) <==> t in informers && (t !in todo || old(Started(t)))
      {
        var informerType :| informerType in todo;
        var informer := informers[informerType];
        if !(informerType in startedInformers && startedInformers[informerType]) {
          informer.Run();
          startedInformers := startedInformers[informerType := true];
        }
        todo := todo - {informerType};
      }
    }

    /** The informers waited on are exactly the started ones.  hasSynced stands for the outcome of the wait. */
    method WaitForCacheSync(hasSynced: SharedIndexInformer -> bool) returns (res: map<string, bool>)
      requires Valid()
      ensures forall t :: t in res <==> Started(t)
      ensures forall t :: t in res ==> res[t] == hasSynced(informers[t])
    {
      var waiting: map<string, SharedIndexInformer> := map[];
      var todo := informers.Keys;
      while todo != {}
        invariant todo <= informers.Keys
        invariant forall t :: t in waiting <==> Started(t) && t !in todo
        invariant forall t :: t in waiting ==> waiting[t] == informers[t]
      {
        var informerType :| informerType in todo;
        if informerType in startedInformers && startedInformers[informerType] {
          waiting := waiting[informerType := informers[informerType]];
        }
        todo := todo - {informerType};
      }
      res := map t | t in waiting :: hasSynced(waiting[t]);
    }
  }

  datatype Call = For(t: string) | StartAll | Wait

  /** Any client, making any calls in any order: a type keeps its informer forever, everybody who asks for
      a type gets that one, and no informer is ever run twice. */
  method AnyClient(factory: SharedInformerFactory, calls: seq<Call>, hasSynced: SharedIndexInformer -> bool)
    returns (got: map<int, SharedIndexInformer>)
    requires factory.Valid()
    modifies factory, factory.informers.Values
    ensures factory.Valid()
    ensures forall t :: t in old(factory.informers) ==> t in factory.informers && factory.informers[t] == old(factory.informers)[t]
    ensures forall i :: 0 <= i < |calls| && calls[i].For? ==>
              i in got && calls[i].t in factory.informers && got[i] == factory.informers[calls[i].t]
    ensures forall t :: t in factory.informers ==> factory.informers[t].runs <= 1
    ensures forall t :: old(factory.Started(t)) ==> factory.Started(t)
    ensures forall i, j :: 0 <= i < j < |calls| && calls[i].For? && calls[j].StartAll? ==> factory.Started(calls[i].t)
  {
    got := map[];
    for n := 0 to |calls|
      invariant factory.Valid()
      invariant forall t :: t in factory.informers ==> t in old(factory.informers) || fresh(factory.informers[t])
      invariant forall t :: t in old(factory.informers) ==> t in factory.informers && factory.informers[t] == old(factory.informers)[t]
      invariant forall i :: 0 <= i < n && calls[i].For? ==>
                  i in got && calls[i].t in factory.informers && got[i] == factory.informers[calls[i].t]
      invariant forall t :: old(factory.Started(t)) ==> factory.Started(t)
      invariant forall i, j :: 0 <= i < j < n && calls[i].For? && calls[j].StartAll? ==> factory.Started(calls[i].t)
    {
      match calls[n] {
        case For(t) =>
          var informer := factory.InformerFor(t);
          got := got[n := informer];
        case StartAll => factory.Start();
        case Wait => var _ := factory.WaitForCacheSync(hasSynced);
      }
    }
  }
}
