/** pkg/sidecar/controller.go: a periodic worker that copies the plugin's answer into the
    ProvisionerCapability of the plugin's name, and any number of such sidecars on one server. */
module Sidecar {
  import opened Kube
  import opened Capability
  import opened Plugin

  const NO_SPEC := PcapSpec(PluginInfo("", ""),
                            Features(false, Volume(false, false, false, false, false, EXPAND_UNSET), NO_SNAPSHOT))

  /** The client's Get never returns nil: on any error the object is the zero value. */
  const BLANK: PcapObj := Obj("", 0, NO_SPEC)

  function Fetched(f: Feed<PcapSpec>, name: string, getFails: bool): PcapObj {
    if getFails || name !in f.store then BLANK else f.store[name]
  }

  /** The write of createOrUpdateProvisionerCRD.  Its guard compares a struct with a pointer, which are
      never deeply equal, so an existing object is always updated. */
  function Saved(f: Feed<PcapSpec>, clock: nat, spec: PcapSpec, read: PcapObj, fault: Fault): Reply<PcapSpec> {
    if read.name == spec.info.name then Update(f, clock, read.(val := spec), fault)
    else Create(f, clock, spec.info.name, spec, fault)
  }

  // ---------------------------------------------------------------- the code

  class ProvisionerCapability {
    var name: string
    var rv: nat
    var spec: PcapSpec

    constructor (o: PcapObj)
      ensures Value() == o
    {
      name, rv, spec := o.name, o.rv, o.val;
    }

    function Value(): PcapObj
      reads this
    {
      Obj(name, rv, spec)
    }
  }

  class PcapServer {
    var pcaps: Feed<PcapSpec>
    var clock: nat

    method GetPcap(name: string, fails: bool) returns (o: ProvisionerCapability, err: bool)
      ensures fresh(o) && o.Value() == Fetched(pcaps, name, fails)
      ensures err <==> fails || name !in pcaps.store
    {
      err := fails || name !in pcaps.store;
      o := new ProvisionerCapability(Fetched(pcaps, name, fails));
    }

    method CreatePcap(o: ProvisionerCapability, fault: Fault) returns (err: Err)
      modifies this
      ensures Reply(pcaps, clock, err) == Create(old(pcaps), old(clock), o.Value().name, o.Value().val, fault)
    {
      var r := Create(pcaps, clock, o.Value().name, o.Value().val, fault);
      pcaps, clock, err := r.feed, r.clock, r.err;
    }

    method UpdatePcap(o: ProvisionerCapability, fault: Fault) returns (err: Err)
      modifies this
      ensures Reply(pcaps, clock, err) == Update(old(pcaps), old(clock), o.Value(), fault)
    {
      var r := Update(pcaps, clock, o.Value(), fault);
      pcaps, clock, err := r.feed, r.clock, r.err;
    }
  }

  class CsiSidecarController {
    const api: PcapServer

    constructor (api: PcapServer)
      ensures this.api == api
    {
      this.api := api;
    }

    method CreateOrUpdateProvisionerCRD(pcapSpec: Option<PcapSpec>, getFails: bool, fault: Fault) returns (err: Err)
      modifies api
      ensures pcapSpec.None? ==> err.Okay? && api.pcaps == old(api.pcaps) && api.clock == old(api.clock)
      ensures pcapSpec.Some? ==>
                var read := Fetched(old(api.pcaps), pcapSpec.value.info.name, getFails);
                Reply(api.pcaps, api.clock, err) == Saved(old(api.pcaps), old(api.clock), pcapSpec.value, read, fault)
    {
      if pcapSpec.None? {
        return Okay;
      }
      var spec := pcapSpec.value;
      // an error of Get is only logged
      var pcap, _ := api.GetPcap(spec.info.name, getFails);
      if pcap.name == spec.info.name {
        pcap.spec := spec;
        err := api.UpdatePcap(pcap, fault);
      } else {
        var created := new ProvisionerCapability(Obj(spec.info.name, 0, spec));
        err := api.CreatePcap(created, fault);
      }
    }

    /** One tick.  Unless every RPC was answered nothing is written; otherwise the spec that is written
        is the one that says exactly what the plugin advertised. */
    method ContentWorker(a: Answers, getFails: bool, fault: Fault) returns (ghost spec: Option<PcapSpec>, ghost err: Err)
      modifies api
      ensures spec.Some? <==> Answered(a)
      ensures spec.None? ==> api.pcaps == old(api.pcaps) && api.clock == old(api.clock)
      ensures spec.Some? ==>
                && Advertises(a, spec.value)
                && var read := Fetched(old(api.pcaps), spec.value.info.name, getFails);
                   Reply(api.pcaps, api.clock, err) == Saved(old(api.pcaps), old(api.clock), spec.value, read, fault)
    {
      var pcapSpec := GetFullCapability(a);
      spec, err := pcapSpec, Okay;
      if pcapSpec.None? {
        return;
      }
      var code := CreateOrUpdateProvisionerCRD(pcapSpec, getFails, fault);
      err := code;
    }
  }

  // ---------------------------------------------------------------- many sidecars, interleaved

  /** Between its Get and its write a sidecar holds the plugin's spec and the object it read. */
  datatype Phase = Resting | Writing(spec: PcapSpec, read: PcapObj)

  datatype Cluster = Cluster(pcaps: Feed<PcapSpec>, clock: nat, sidecars: seq<Phase>)

  /** Ask: the RPCs are answered with this spec and the Get is issued.  (A tick whose RPCs fail does
      nothing.)  Save: the write is issued.  Drop: somebody deletes an entry. */
  datatype Action = Ask(i: nat, spec: PcapSpec, getFails: bool) | Save(i: nat, fault: Fault) | Drop(name: string)

  predicate Possible(c: Cluster, act: Action) {
    match act
    case Ask(i, _, _) => i < |c.sidecars| && c.sidecars[i].Resting?
    case Save(i, _) => i < |c.sidecars| && c.sidecars[i].Writing?
    case Drop(name) => name in c.pcaps.store
  }

  function Act(c: Cluster, act: Action): Cluster
    requires Possible(c, act)
  {
    match act
    case Ask(i, spec, getFails) =>
      c.(sidecars := c.sidecars[i := Writing(spec, Fetched(c.pcaps, spec.info.name, getFails))])
    case Save(i, fault) =>
      var r := Saved(c.pcaps, c.clock, c.sidecars[i].spec, c.sidecars[i].read, fault);
      Cluster(r.feed, r.clock, c.sidecars[i := Resting])
    case Drop(name) => c.(pcaps := FeedDel(c.pcaps, name, c.clock), clock := c.clock + 1)
  }

  ghost predicate AllPossible(c: Cluster, acts: seq<Action>)
    decreases |acts|
  {
    acts == [] || (Possible(c, acts[0]) && AllPossible(Act(c, acts[0]), acts[1..]))
  }

  ghost function ActAll(c: Cluster, acts: seq<Action>): Cluster
    requires AllPossible(c, acts)
    decreases |acts|
  {
    if acts == [] then c else ActAll(Act(c, acts[0]), acts[1..])
  }

  /** Every entry is the answer of the plugin it is named after; versions are genuine; and whatever a
      sidecar holds is blank or a version the server issued. */
  ghost predicate ClusterOk(c: Cluster) {
    && NameKeyed(c.pcaps.store)
    && (forall n :: n in c.pcaps.store ==> c.pcaps.store[n].val.info.name == n)
    && (forall v :: v in c.pcaps.issued ==> v < c.clock)
    && (forall n :: n in c.pcaps.store ==> Issued(c.pcaps.issued, c.pcaps.store[n]))
    && (forall i :: 0 <= i < |c.sidecars| && c.sidecars[i].Writing? ==>
          c.sidecars[i].read == BLANK
          || (Issued(c.pcaps.issued, c.sidecars[i].read) && c.sidecars[i].read.name == c.sidecars[i].spec.info.name))
  }

  lemma ActOk(c: Cluster, act: Action)
    requires ClusterOk(c) && Possible(c, act)
    ensures ClusterOk(Act(c, act))
  {
  }

  /** Over any run of any number of sidecars, with failing RPCs, Gets and writes, and deletions by
      others, every entry keeps saying it belongs to the plugin it is named after. */
  lemma {:induction false} EntriesNameTheirPlugin(c: Cluster, acts: seq<Action>)
    requires ClusterOk(c) && AllPossible(c, acts)
    ensures ClusterOk(ActAll(c, acts))
    decreases |acts|
  {
    hide ClusterOk, Possible, Act;
    if acts != [] {
      ActOk(c, acts[0]);
      EntriesNameTheirPlugin(Act(c, acts[0]), acts[1..]);
    }
  }

  /** What one write can do.  It touches no entry but its own plugin's; if the Get had failed or found
      nothing, an entry that exists is left alone; an entry it does replace is exactly the object it
      read; and if it reports success the entry holds the plugin's answer. */
  lemma SaveIsSafe(c: Cluster, i: nat, fault: Fault)
    requires ClusterOk(c) && Possible(c, Save(i, fault))
    ensures var p, r := c.sidecars[i], Saved(c.pcaps, c.clock, c.sidecars[i].spec, c.sidecars[i].read, fault);
            var name := p.spec.info.name;
            && Act(c, Save(i, fault)).pcaps == r.feed
            && (forall n :: n != name ==> Look(r.feed.store, n) == Look(c.pcaps.store, n))
            && (p.read == BLANK && name in c.pcaps.store ==> r.feed == c.pcaps)
            && (r.feed != c.pcaps && name in c.pcaps.store ==> c.pcaps.store[name] == p.read)
            && (r.err.Okay? || r.feed != c.pcaps ==> name in r.feed.store && r.feed.store[name].val == p.spec)
  {
  }

  /** A tick with nothing failing and nobody in between succeeds for every nonempty plugin name, and
      only for those: the CSI specification's demand that the name not be empty is needed. */
  lemma QuietTickStores(f: Feed<PcapSpec>, clock: nat, spec: PcapSpec)
    requires NameKeyed(f.store) && forall n :: n in f.store ==> n != ""
    ensures var r := Saved(f, clock, spec, Fetched(f, spec.info.name, false), NoFault);
            (r.err.Okay? && spec.info.name in r.feed.store && r.feed.store[spec.info.name].val == spec)
              <==> spec.info.name != ""
  {
  }

  /** A failed Get never costs an existing entry anything, whatever becomes of the Create that follows. */
  lemma FailedGetIsSafe(f: Feed<PcapSpec>, clock: nat, spec: PcapSpec, fault: Fault)
    ensures spec.info.name in f.store ==>
              && Saved(f, clock, spec, Fetched(f, spec.info.name, true), fault).feed == f
              && !Saved(f, clock, spec, Fetched(f, spec.info.name, true), fault).err.Okay?
  {
  }

  /** A tick that finds its answer stored already changes nothing and announces nothing, although it
      issues an Update: one that the server rejects is reported. */
  lemma RepeatedTickIsSilent(f: Feed<PcapSpec>, clock: nat, spec: PcapSpec)
    requires NameKeyed(f.store) && Look(f.store, spec.info.name).Some? && f.store[spec.info.name].val == spec
    ensures spec.info.name != "" ==>
              && Saved(f, clock, spec, Fetched(f, spec.info.name, false), NoFault) == Reply(f, clock, Okay)
              && Saved(f, clock, spec, Fetched(f, spec.info.name, false), Rejected) == Reply(f, clock, Unavailable)
  {
  }
}
