/** pkg/apis/storagecapability/v1alpha1/zz_generated.deepcopy.go: objects on the heap, their copies,
    and what the copies must not share.

    A Go map and a Go slice are references, so copying a struct that holds them aliases them; the
    copy functions first assign the whole struct and then replace what would be shared. */
module DeepCopy {
  import opened Kube
  import opened Capability

  /** A Go map[string]string, shared by whoever holds the reference. */
  class StringMap {
    var entries: map<string, string>

    constructor (entries: map<string, string>)
      ensures this.entries == entries
    {
      this.entries := entries;
    }
  }

  method CopyStrings(source: array<string>) returns (copied: array<string>)
    ensures fresh(copied) && copied[..] == source[..]
  {
    copied := new string[source.Length](i requires 0 <= i < source.Length reads source => source[i]);
    assert copied[..] == source[..];
  }

  class StorageClassCapability {
    var name: string
    var rv: nat
    var labels: StringMap?
    var annotations: StringMap?
    var finalizers: array?<string>
    var spec: CapSpec

    /** new(StorageClassCapability): the zero value. */
    constructor Zero()
      ensures name == "" && rv == 0 && labels == null && annotations == null && finalizers == null
    {
      name, rv, labels, annotations, finalizers := "", 0, null, null, null;
      spec := CapSpec("", Features(false, Volume(false, false, false, false, false, EXPAND_UNSET), NO_SNAPSHOT));
    }

    /** The mutable things reachable from the object, besides itself. */
    function Parts(): set<object>
      reads this`labels, this`annotations, this`finalizers
    {
      (if labels == null then {} else {labels})
      + (if annotations == null then {} else {annotations})
      + (if finalizers == null then {} else {finalizers})
    }

    function MetaData(): Meta
      reads this`labels, this`annotations, this`finalizers, labels, annotations, finalizers
    {
      Meta(if labels == null then map[] else labels.entries,
           if annotations == null then map[] else annotations.entries,
           if finalizers == null then [] else finalizers[..])
    }

    /** The object as a value, the way the API server would see it. */
    function Value(): CapObj
      reads this, labels, annotations, finalizers
    {
      Obj(name, rv, Cap(MetaData(), spec))
    }

    /** Equal to other, down to which references are nil. */
    predicate Same(other: StorageClassCapability)
      reads this, labels, annotations, finalizers, other, other.labels, other.annotations, other.finalizers
    {
      && Value() == other.Value()
      && (labels == null <==> other.labels == null)
      && (annotations == null <==> other.annotations == null)
      && (finalizers == null <==> other.finalizers == null)
    }

    method DeepCopyInto(out: StorageClassCapability)
      requires out != this
      modifies out
      ensures Same(out) && Value() == old(Value())
      ensures fresh(out.Parts())
      ensures out.name == name && out.rv == rv && out.spec == spec
      ensures if labels == null then out.labels == null
              else out.labels != null && fresh(out.labels) && out.labels.entries == labels.entries
      ensures if annotations == null then out.annotations == null
              else out.annotations != null && fresh(out.annotations) && out.annotations.entries == annotations.entries
      ensures if finalizers == null then out.finalizers == null
              else out.finalizers != null && fresh(out.finalizers) && out.finalizers[..] == finalizers[..]
    {
      out.name, out.rv, out.labels, out.annotations := name, rv, labels, annotations;
      out.finalizers, out.spec := finalizers, spec;
      if labels != null {
        out.labels := new StringMap(labels.entries);
      }
      if annotations != null {
        out.annotations := new StringMap(annotations.entries);
      }
      if finalizers != null {
        out.finalizers := CopyStrings(finalizers);
      }
    }

    /** DeepCopy, with the nil receiver it allows. */
    static method Copy(source: StorageClassCapability?) returns (out: StorageClassCapability?)
      ensures source == null <==> out == null
      ensures out != null ==> fresh(out) && fresh(out.Parts()) && source.Same(out)
      ensures out != null ==> CopyOf(out, source) && out.spec == source.spec
    {
      if source == null {
        return null;
      }
      out := new StorageClassCapability.Zero();
      source.DeepCopyInto(out);
    }
  }

  /** Field by field, everything but the spec is as in the source, and no map or slice is shared. */
  ghost predicate CopyOf(out: StorageClassCapability, source: StorageClassCapability)
    reads out, out.labels, out.annotations, out.finalizers, source, source.labels, source.annotations, source.finalizers
  {
    && out != source && out.name == source.name && out.rv == source.rv
    && (if source.labels == null then out.labels == null
        else out.labels != null && out.labels != source.labels && out.labels.entries == source.labels.entries)
    && (if source.annotations == null then out.annotations == null
        else out.annotations != null && out.annotations != source.annotations
             && out.annotations.entries == source.annotations.entries)
    && (if source.finalizers == null then out.finalizers == null
        else out.finalizers != null && out.finalizers != source.finalizers
             && out.finalizers[..] == source.finalizers[..])
  }

  /** What equality of two objects and the parts of one mean, field by field. */
  lemma SameFieldByField(a: StorageClassCapability, b: StorageClassCapability)
    ensures a.Same(b) <==>
              && a.name == b.name && a.rv == b.rv && a.spec == b.spec
              && (if a.labels == null then b.labels == null
                  else b.labels != null && a.labels.entries == b.labels.entries)
              && (if a.annotations == null then b.annotations == null
                  else b.annotations != null && a.annotations.entries == b.annotations.entries)
              && (if a.finalizers == null then b.finalizers == null
                  else b.finalizers != null && a.finalizers[..] == b.finalizers[..])
    ensures forall p :: p in a.Parts() <==> p == a.labels || p == a.annotations || p == a.finalizers
  {
  }

  /** No two entries are the same object, nor do they share a part. */
  ghost predicate Separate(items: seq<StorageClassCapability>)
    reads items
  {
    forall i, j :: 0 <= i < j < |items| ==> items[i] != items[j] && items[i].Parts() !! items[j].Parts()
  }

  /** The plain values of a list's metadata; its remaining item count is a pointer. */
  datatype ListMeta = ListMeta(selfLink: string, resourceVersion: string, continuation: string)

  class Int64 {
    var value: int

    constructor (value: int)
      ensures this.value == value
    {
      this.value := value;
    }
  }

  class StorageClassCapabilityList {
    var meta: ListMeta
    var remaining: Int64?
    var items: array?<StorageClassCapability>

    constructor Zero()
      ensures meta == ListMeta("", "", "") && remaining == null && items == null
    {
      meta, remaining, items := ListMeta("", "", ""), null, null;
    }

    /** The copy loop: every element is copied into a slot of a new slice. */
    method DeepCopyInto(out: StorageClassCapabilityList)
      requires out != this
      modifies out
      ensures out.meta == meta && (items == null <==> out.items == null)
      ensures if remaining == null then out.remaining == null
              else fresh(out.remaining) && out.remaining.value == remaining.value
      ensures items != null ==>
                && fresh(out.items) && out.items.Length == items.Length
                && (forall i :: 0 <= i < items.Length ==> fresh(out.items[i]) && fresh(out.items[i].Parts()))
                && (forall i :: 0 <= i < items.Length ==> items[i].Same(out.items[i]))
                && Separate(out.items[..])
    {
      hide StorageClassCapability.Same, StorageClassCapability.Value, StorageClassCapability.MetaData;
      hide StorageClassCapability.Parts, Separate;
      out.meta, out.remaining, out.items := meta, remaining, items;
      if remaining != null {
        out.remaining := new Int64(remaining.value);
      }
      if items != null {
        var copies := CopyItems(items);
        out.items := copies;
      }
    }
  }

  method CopyItems(source: array<StorageClassCapability>) returns (copies: array<StorageClassCapability>)
    ensures fresh(copies) && copies.Length == source.Length
    ensures forall i :: 0 <= i < source.Length ==> fresh(copies[i]) && fresh(copies[i].Parts())
    ensures forall i :: 0 <= i < source.Length ==> source[i].Same(copies[i])
    ensures Separate(copies[..])
  {
    hide StorageClassCapability.Same, StorageClassCapability.Value, StorageClassCapability.MetaData, StorageClassCapability.Parts;
    hide CopyOf;
    var blank := new StorageClassCapability.Zero();
    copies := new StorageClassCapability[source.Length](_ => blank);
    ghost var parts: seq<set<object>> := [];
    ghost var used: set<object> := {copies};
    for i := 0 to source.Length
      invariant |parts| == i && fresh(used) && copies in used
      invariant forall j :: 0 <= j < i ==> copies[j] in used && parts[j] <= used && copies[j].Parts() == parts[j]
      invariant forall j :: 0 <= j < i ==> source[j].Same(copies[j])
      invariant forall j, k :: 0 <= j < k < i ==> copies[j] != copies[k] && parts[j] !! parts[k]
    {
      var slot := StorageClassCapability.Copy(source[i]);
      copies[i] := slot;
      parts := parts + [slot.Parts()];
      used := used + {slot} + slot.Parts();
    }
  }
}
