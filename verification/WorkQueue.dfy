/** The contract of client-go's rate-limiting work queue, as far as this repository uses it.

    A key is in the order only while it is dirty and not being processed; adding a dirty key again
    changes nothing, and a key added while it is processed waits for Done.  A rate-limited add
    becomes an ordinary Add some time later (Fire).  The five multisets are history variables. */
module WorkQueue {
  datatype Queue = Queue(
    order: seq<string>, dirty: set<string>, processing: set<string>, delayed: set<string>,
    accepted: multiset<string>, fetched: multiset<string>, finished: multiset<string>,
    forgotten: multiset<string>, retried: multiset<string>)

  const EMPTY: Queue :=
    Queue([], {}, {}, {}, multiset{}, multiset{}, multiset{}, multiset{}, multiset{})

  function Add(q: Queue, k: string): Queue {
    if k in q.dirty then q
    else q.(dirty := q.dirty + {k}, accepted := q.accepted + multiset{k},
            order := if k in q.processing then q.order else q.order + [k])
  }

  function AddAll(q: Queue, keys: seq<string>): Queue
    decreases |keys|
  {
    if keys == [] then q else AddAll(Add(q, keys[0]), keys[1..])
  }

  function Get(q: Queue): Queue
    requires q.order != []
  {
    var k := q.order[0];
    q.(order := q.order[1..], dirty := q.dirty - {k}, processing := q.processing + {k},
       fetched := q.fetched + multiset{k})
  }

  function Forget(q: Queue, k: string): Queue {
    q.(forgotten := q.forgotten + multiset{k})
  }

  function AddRateLimited(q: Queue, k: string): Queue {
    q.(delayed := q.delayed + {k}, retried := q.retried + multiset{k})
  }

  function Done(q: Queue, k: string): Queue {
    q.(processing := q.processing - {k}, finished := q.finished + multiset{k},
       order := if k in q.dirty then q.order + [k] else q.order)
  }

  function Fire(q: Queue, k: string): Queue {
    Add(q.(delayed := q.delayed - {k}), k)
  }

  ghost predicate Wf(q: Queue) {
    && (forall i, j :: 0 <= i < j < |q.order| ==> q.order[i] != q.order[j])
    && (forall k :: k in q.order <==> k in q.dirty && k !in q.processing)
    && (forall k :: q.accepted[k] == q.fetched[k] + if k in q.dirty then 1 else 0)
    && (forall k :: q.fetched[k] == q.finished[k] + if k in q.processing then 1 else 0)
  }

  lemma AddWf(q: Queue, k: string)
    requires Wf(q)
    ensures Wf(Add(q, k))
  {
  }

  lemma FireWf(q: Queue, k: string)
    requires Wf(q)
    ensures Wf(Fire(q, k))
  {
    AddWf(q.(delayed := q.delayed - {k}), k);
  }

  lemma {:induction false} AddAllWf(q: Queue, keys: seq<string>)
    requires Wf(q)
    ensures Wf(AddAll(q, keys))
    decreases |keys|
  {
    if keys != [] {
      AddWf(q, keys[0]);
      AddAllWf(Add(q, keys[0]), keys[1..]);
    }
  }

  /** Whatever the order of the additions, AddAll makes exactly the listed keys dirty and touches
      nothing that a worker or a timer holds. */
  lemma {:induction false} AddAllAdds(q: Queue, keys: seq<string>)
    ensures var r := AddAll(q, keys);
            && r.processing == q.processing && r.delayed == q.delayed
            && r.finished == q.finished && r.forgotten == q.forgotten && r.retried == q.retried
            && r.fetched == q.fetched
            && (forall k :: k in r.dirty <==> k in q.dirty || k in keys)
    decreases |keys|
  {
    if keys != [] {
      AddAllAdds(Add(q, keys[0]), keys[1..]);
    }
  }

  lemma {:induction false} AddAllAppend(q: Queue, keys: seq<string>, k: string)
    ensures AddAll(q, keys + [k]) == Add(AddAll(q, keys), k)
    decreases |keys|
  {
    if keys == [] {
      assert (keys + [k])[1..] == [];
    } else {
      assert (keys + [k])[1..] == keys[1..] + [k];
      AddAllAppend(Add(q, keys[0]), keys[1..], k);
    }
  }

  lemma GetWf(q: Queue)
    requires Wf(q) && q.order != []
    ensures Wf(Get(q)) && q.order[0] !in q.processing && q.order[0] in q.dirty
  {
    var g := Get(q);
    assert forall i :: 0 <= i < |g.order| ==> g.order[i] == q.order[i + 1];
    assert q.order[0] in q.order;
    forall k
      ensures k in g.order <==> k in g.dirty && k !in g.processing
    {
      if k in q.order && k != q.order[0] {
        var i :| 0 <= i < |q.order| && q.order[i] == k;
        assert g.order[i - 1] == k;
      }
    }
  }

  lemma DoneWf(q: Queue, k: string)
    requires Wf(q) && k in q.processing
    ensures Wf(Done(q, k))
  {
  }
}
