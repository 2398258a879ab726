/** What the API server and the client-go informers promise this repository's programs.

    Neither is part of the repository.  Three contracts are stated here once and used by every
    other module: writes carry a fresh resource version and are refused on a stale one, an
    identical Update is not a change, and an informer applies the watch events of one kind in
    order, updating its cache before its handlers are notified.
  */
module Kube {
  datatype Option<+T> = None | Some(value: T)

  function Look<T>(m: map<string, T>, name: string): Option<T> {
    if name in m then Some(m[name]) else None
  }

  /** A stored object: metadata name, metadata resourceVersion, and everything else. */
  datatype Obj<T> = Obj(name: string, rv: nat, val: T)

  /** A watch event.  A deletion carries the last state of the object. */
  datatype Event<T> = Put(obj: Obj<T>) | Del(obj: Obj<T>)

  /** What a handler is called with.  Tombstone is cache.DeletedFinalStateUnknown. */
  datatype Note<T> =
    | Added(obj: Obj<T>)
    | Updated(was: Obj<T>, obj: Obj<T>)
    | Deleted(obj: Obj<T>)
    | Tombstone(obj: Obj<T>)

  /** One kind of object at the API server: the objects, the events on their way to the
      informer, and (a history variable) every version ever issued. */
  datatype Feed<T> = Feed(store: map<string, Obj<T>>, wire: seq<Event<T>>, issued: map<nat, Obj<T>>)

  /** One kind end to end: the server's side, the informer's cache, and its pending notifications. */
  datatype Channel<T> = Channel(feed: Feed<T>, cache: map<string, Obj<T>>, notes: seq<Note<T>>)

  // ---------------------------------------------------------------- the API server

  /** Rejected: the call fails and nothing happens.  ReplyLost: the call takes effect but the
      caller is told it failed (a timeout, say). */
  datatype Fault = NoFault | Rejected | ReplyLost

  datatype Err = Okay | NotFound | AlreadyExists | Conflict | Unavailable

  datatype Reply<T> = Reply(feed: Feed<T>, clock: nat, err: Err)

  function FeedPut<T>(f: Feed<T>, o: Obj<T>): Feed<T> {
    Feed(f.store[o.name := o], f.wire + [Put(o)], f.issued[o.rv := o])
  }

  function FeedDel<T>(f: Feed<T>, name: string, rv: nat): Feed<T>
    requires name in f.store
  {
    f.(store := f.store - {name}, wire := f.wire + [Del(Obj(name, rv, f.store[name].val))])
  }

  function Said(err: Err, fault: Fault): Err {
    if fault.ReplyLost? then Unavailable else err
  }

  function Create<T>(f: Feed<T>, clock: nat, name: string, val: T, fault: Fault): Reply<T> {
    if fault.Rejected? || name == "" then Reply(f, clock, Unavailable)
    else if name in f.store then Reply(f, clock, AlreadyExists)
    else Reply(FeedPut(f, Obj(name, clock, val)), clock + 1, Said(Okay, fault))
  }

  /** Optimistic concurrency: only the version that is stored now can be replaced. */
  function Update<T(==)>(f: Feed<T>, clock: nat, o: Obj<T>, fault: Fault): Reply<T> {
    if fault.Rejected? || o.name == "" then Reply(f, clock, Unavailable)
    else if o.name !in f.store then Reply(f, clock, NotFound)
    else if f.store[o.name].rv != o.rv then Reply(f, clock, Conflict)
    else if f.store[o.name].val == o.val then Reply(f, clock, Said(Okay, fault))
    else Reply(FeedPut(f, Obj(o.name, clock, o.val)), clock + 1, Said(Okay, fault))
  }

  function Delete<T>(f: Feed<T>, clock: nat, name: string, fault: Fault): Reply<T> {
    if fault.Rejected? then Reply(f, clock, Unavailable)
    else if name !in f.store then Reply(f, clock, NotFound)
    else Reply(FeedDel(f, name, clock), clock + 1, Said(Okay, fault))
  }

  // ---------------------------------------------------------------- the informer

  function Apply<T>(m: map<string, Obj<T>>, e: Event<T>): map<string, Obj<T>> {
    match e
    case Put(o) => m[o.name := o]
    case Del(o) => m - {o.name}
  }

  function NoteOf<T>(cache: map<string, Obj<T>>, e: Event<T>, tomb: bool): Note<T> {
    match e
    case Put(o) => if o.name in cache then Updated(cache[o.name], o) else Added(o)
    case Del(o) => if tomb then Tombstone(o) else Deleted(o)
  }

  function Deliver<T>(c: Channel<T>, tomb: bool): Channel<T>
    requires c.feed.wire != []
  {
    var e := c.feed.wire[0];
    Channel(c.feed.(wire := c.feed.wire[1..]), Apply(c.cache, e), c.notes + [NoteOf(c.cache, e, tomb)])
  }

  function PopNote<T>(c: Channel<T>): Channel<T>
    requires c.notes != []
  {
    c.(notes := c.notes[1..])
  }

  /** names enumerates the keys of m, in whatever order. */
  ghost predicate Lists<T>(names: seq<string>, m: map<string, T>) {
    && (forall i :: 0 <= i < |names| ==> names[i] in m)
    && (forall n :: n in m ==> n in names)
  }

  function ResyncNotes<T>(cache: map<string, Obj<T>>, names: seq<string>): seq<Note<T>>
    requires forall i :: 0 <= i < |names| ==> names[i] in cache
  {
    if names == [] then []
    else [Updated(cache[names[0]], cache[names[0]])] + ResyncNotes(cache, names[1..])
  }

  /** The periodic resync: an update from each cached object to itself. */
  function Resync<T>(c: Channel<T>, names: seq<string>): Channel<T>
    requires forall i :: 0 <= i < |names| ==> names[i] in c.cache
  {
    c.(notes := c.notes + ResyncNotes(c.cache, names))
  }

  function AddedNotes<T>(store: map<string, Obj<T>>, names: seq<string>): seq<Note<T>>
    requires forall i :: 0 <= i < |names| ==> names[i] in store
  {
    if names == [] then []
    else [Added(store[names[0]])] + AddedNotes(store, names[1..])
  }

  /** A new process: the initial list fills the cache and announces every object. */
  function Relist<T>(c: Channel<T>, names: seq<string>): Channel<T>
    requires forall i :: 0 <= i < |names| ==> names[i] in c.feed.store
  {
    Channel(c.feed.(wire := []), c.feed.store, AddedNotes(c.feed.store, names))
  }

  // ---------------------------------------------------------------- names mentioned

  function Wired<T>(wire: seq<Event<T>>): set<string> {
    if wire == [] then {} else {wire[0].obj.name} + Wired(wire[1..])
  }

  /** The name a handler extracts: none from a tombstone, and none from an update between equal
      resource versions when the handler filters resyncs. */
  function NoteName<T>(n: Note<T>, filtered: bool): set<string> {
    if n.Tombstone? || (filtered && n.Updated? && n.was.rv == n.obj.rv) then {} else {n.obj.name}
  }

  function NoteNames<T>(notes: seq<Note<T>>, filtered: bool): set<string> {
    if notes == [] then {} else NoteName(notes[0], filtered) + NoteNames(notes[1..], filtered)
  }

  lemma WiredAppend<T>(wire: seq<Event<T>>, e: Event<T>)
    ensures Wired(wire + [e]) == Wired(wire) + {e.obj.name}
  {
    if wire == [] {
    } else {
      assert (wire + [e])[1..] == wire[1..] + [e];
      WiredAppend(wire[1..], e);
    }
  }

  lemma NoteNamesConcat<T>(a: seq<Note<T>>, b: seq<Note<T>>, filtered: bool)
    ensures NoteNames(a + b, filtered) == NoteNames(a, filtered) + NoteNames(b, filtered)
  {
    if a == [] {
      assert a + b == b;
    } else {
      assert (a + b)[1..] == a[1..] + b;
      NoteNamesConcat(a[1..], b, filtered);
    }
  }

  lemma NoteNamesAppend<T>(notes: seq<Note<T>>, n: Note<T>, filtered: bool)
    ensures NoteNames(notes + [n], filtered) == NoteNames(notes, filtered) + NoteName(n, filtered)
  {
    NoteNamesConcat(notes, [n], filtered);
    assert [n][1..] == [];
  }

  lemma ResyncNames<T>(cache: map<string, Obj<T>>, names: seq<string>, k: string)
    requires NameKeyed(cache)
    requires forall i :: 0 <= i < |names| ==> names[i] in cache
    requires k in names
    ensures k in NoteNames(ResyncNotes(cache, names), false)
  {
    if k != names[0] {
      ResyncNames(cache, names[1..], k);
    }
  }

  lemma AddedNames<T>(store: map<string, Obj<T>>, names: seq<string>, filtered: bool, k: string)
    requires NameKeyed(store)
    requires forall i :: 0 <= i < |names| ==> names[i] in store
    requires k in names
    ensures k in NoteNames(AddedNotes(store, names), filtered)
  {
    if k != names[0] {
      AddedNames(store, names[1..], filtered, k);
    }
  }

  // ---------------------------------------------------------------- the channel invariant

  ghost predicate NameKeyed<T>(m: map<string, Obj<T>>) {
    forall n :: n in m ==> m[n].name == n
  }

  function Replay<T>(m: map<string, Obj<T>>, wire: seq<Event<T>>): map<string, Obj<T>>
    decreases |wire|
  {
    if wire == [] then m else Replay(Apply(m, wire[0]), wire[1..])
  }

  lemma ReplayAppend<T>(m: map<string, Obj<T>>, wire: seq<Event<T>>, e: Event<T>)
    ensures Replay(m, wire + [e]) == Apply(Replay(m, wire), e)
    decreases |wire|
  {
    if wire == [] {
      assert (wire + [e])[1..] == [];
    } else {
      assert (wire + [e])[1..] == wire[1..] + [e];
      ReplayAppend(Apply(m, wire[0]), wire[1..], e);
    }
  }

  ghost predicate Issued<T>(issued: map<nat, Obj<T>>, o: Obj<T>) {
    o.rv in issued && issued[o.rv] == o
  }

  /** Every object in sight is a version the server issued, under its own name, and no version
      number was issued twice. */
  ghost predicate Genuine<T>(c: Channel<T>, clock: nat) {
    && (forall v :: v in c.feed.issued ==> v < clock)
    && (forall n :: n in c.feed.store ==> Issued(c.feed.issued, c.feed.store[n]))
    && (forall n :: n in c.cache ==> Issued(c.feed.issued, c.cache[n]))
    && (forall i :: 0 <= i < |c.feed.wire| && c.feed.wire[i].Put? ==> Issued(c.feed.issued, c.feed.wire[i].obj))
  }

  /** Versions on the wire are newer than those in the cache. */
  ghost predicate Newer<T>(c: Channel<T>, clock: nat) {
    && (forall i :: 0 <= i < |c.feed.wire| ==> c.feed.wire[i].obj.rv < clock)
    && (forall i, j :: 0 <= i < j < |c.feed.wire| ==> c.feed.wire[i].obj.rv < c.feed.wire[j].obj.rv)
    && (c.feed.wire != [] ==> forall n :: n in c.cache ==> c.cache[n].rv < c.feed.wire[0].obj.rv)
  }

  ghost predicate ChannelOk<T>(c: Channel<T>, clock: nat) {
    && NameKeyed(c.feed.store)
    && NameKeyed(c.cache)
    && Replay(c.cache, c.feed.wire) == c.feed.store
    && Genuine(c, clock)
    && Newer(c, clock)
  }

  function NewChannel<T>(): Channel<T> {
    Channel(Feed(map[], [], map[]), map[], [])
  }

  lemma ClockOk<T>(c: Channel<T>, clock: nat, later: nat)
    requires ChannelOk(c, clock) && clock <= later
    ensures ChannelOk(c, later)
  {
  }

  lemma PutOk<T>(c: Channel<T>, clock: nat, name: string, val: T)
    requires ChannelOk(c, clock)
    ensures ChannelOk(c.(feed := FeedPut(c.feed, Obj(name, clock, val))), clock + 1)
  {
    ReplayAppend(c.cache, c.feed.wire, Put(Obj(name, clock, val)));
  }

  lemma DelOk<T>(c: Channel<T>, clock: nat, name: string)
    requires ChannelOk(c, clock) && name in c.feed.store
    ensures ChannelOk(c.(feed := FeedDel(c.feed, name, clock)), clock + 1)
  {
    ReplayAppend(c.cache, c.feed.wire, Del(Obj(name, clock, c.feed.store[name].val)));
  }

  lemma DeliverOk<T>(c: Channel<T>, clock: nat, tomb: bool)
    requires ChannelOk(c, clock) && c.feed.wire != []
    ensures ChannelOk(Deliver(c, tomb), clock)
  {
    var d := Deliver(c, tomb);
    assert forall i :: 0 <= i < |d.feed.wire| ==> d.feed.wire[i] == c.feed.wire[i + 1];
  }

  lemma NotesOk<T>(c: Channel<T>, clock: nat, notes: seq<Note<T>>)
    requires ChannelOk(c, clock)
    ensures ChannelOk(c.(notes := notes), clock)
  {
  }

  lemma RelistOk<T>(c: Channel<T>, clock: nat, names: seq<string>)
    requires ChannelOk(c, clock) && Lists(names, c.feed.store)
    ensures ChannelOk(Relist(c, names), clock)
  {
  }

  /** Where no event is on its way, the cache is up to date. */
  lemma {:induction false} QuietReplay<T>(m: map<string, Obj<T>>, wire: seq<Event<T>>, k: string)
    requires k !in Wired(wire)
    ensures Look(Replay(m, wire), k) == Look(m, k)
    decreases |wire|
  {
    if wire != [] {
      QuietReplay(Apply(m, wire[0]), wire[1..], k);
    }
  }

  lemma QuietCache<T>(c: Channel<T>, clock: nat, k: string)
    requires ChannelOk(c, clock) && k !in Wired(c.feed.wire)
    ensures Look(c.cache, k) == Look(c.feed.store, k)
  {
    QuietReplay(c.cache, c.feed.wire, k);
  }

  /** A delivered change names its object, even to a handler that filters resyncs: two versions of
      one object never share a resource version. */
  lemma DeliveryNames<T>(c: Channel<T>, clock: nat, tomb: bool, filtered: bool)
    requires ChannelOk(c, clock) && c.feed.wire != []
    requires !(tomb && c.feed.wire[0].Del?)
    ensures NoteName(NoteOf(c.cache, c.feed.wire[0], tomb), filtered) == {c.feed.wire[0].obj.name}
  {
  }

  /** The server's invariant survives any call, whatever the fault. */
  lemma CreateOk<T>(c: Channel<T>, clock: nat, name: string, val: T, fault: Fault)
    requires ChannelOk(c, clock)
    ensures var r := Create(c.feed, clock, name, val, fault);
            clock <= r.clock && ChannelOk(c.(feed := r.feed), r.clock)
  {
    if Create(c.feed, clock, name, val, fault).clock == clock {
    } else {
      PutOk(c, clock, name, val);
    }
  }

  lemma UpdateOk<T>(c: Channel<T>, clock: nat, o: Obj<T>, fault: Fault)
    requires ChannelOk(c, clock)
    ensures var r := Update(c.feed, clock, o, fault);
            clock <= r.clock && ChannelOk(c.(feed := r.feed), r.clock)
  {
    if Update(c.feed, clock, o, fault).clock == clock {
    } else {
      PutOk(c, clock, o.name, o.val);
    }
  }

  lemma DeleteOk<T>(c: Channel<T>, clock: nat, name: string, fault: Fault)
    requires ChannelOk(c, clock)
    ensures var r := Delete(c.feed, clock, name, fault);
            clock <= r.clock && ChannelOk(c.(feed := r.feed), r.clock)
  {
    if Delete(c.feed, clock, name, fault).clock == clock {
    } else {
      DelOk(c, clock, name);
    }
  }

  /** A write to one name leaves every other name alone and says so on the wire. */
  lemma PutLocal<T>(f: Feed<T>, o: Obj<T>, k: string)
    ensures var g := FeedPut(f, o);
            && Wired(g.wire) == Wired(f.wire) + {o.name}
            && (k != o.name ==> Look(g.store, k) == Look(f.store, k))
            && g != f
  {
    WiredAppend(f.wire, Put(o));
    assert |FeedPut(f, o).wire| == |f.wire| + 1;
  }

  lemma DelLocal<T>(f: Feed<T>, name: string, rv: nat, k: string)
    requires name in f.store
    ensures var g := FeedDel(f, name, rv);
            && Wired(g.wire) == Wired(f.wire) + {name}
            && (k != name ==> Look(g.store, k) == Look(f.store, k))
            && g != f
  {
    WiredAppend(f.wire, Del(Obj(name, rv, f.store[name].val)));
    assert |FeedDel(f, name, rv).wire| == |f.wire| + 1;
  }

  /** Optimistic concurrency, end to end: if an Update changed the store or reported success, then
      what it replaced is the very object the caller had read, not merely one with the same number. */
  lemma UpdateReplacesWhatWasRead<T>(c: Channel<T>, clock: nat, read: Obj<T>, val: T, fault: Fault)
    requires ChannelOk(c, clock) && Issued(c.feed.issued, read)
    ensures var r := Update(c.feed, clock, read.(val := val), fault);
            r.err.Okay? || r.feed != c.feed ==> Look(c.feed.store, read.name) == Some(read)
  {
  }
}
