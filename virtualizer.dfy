/** What the escape-analysis virtualizer offers a node's virtualize rule: virtual
    objects with a fixed number of entries, alias resolution, and the two ways a
    rule can end (the node is deleted, or a deoptimization replaces it). */
module Virtualizer {
  import opened JavaKinds
  import opened ValueNodes

  datatype Option<T> = None | Some(value: T)

  /** One entry of a virtual object: the kind it was written with and the value node. */
  datatype Entry = Entry(kind: Kind, value: Value)

  /** How a virtualize rule ends: Subsumed is tool.delete() (the node's effect now
      lives in the virtual state), Deopt is insertDeoptimization(tool). */
  datatype Effect = Subsumed | Deopt

  /** A virtual object (VirtualObjectNode with its ObjectState): a fixed number of
      entries of one element kind, updated in place. */
  class VirtualStore {
    const elementKind: Kind
    const entries: array<Entry>

    constructor (elementKind: Kind, initial: seq<Entry>)
      ensures this.elementKind == elementKind
      ensures entries[..] == initial
      ensures fresh(entries)
    {
      this.elementKind := elementKind;
      entries := new Entry[|initial|](i requires 0 <= i < |initial| => initial[i]);
    }

    /** VirtualObjectNode.entryCount(): fixed when the object is created. */
    function EntryCount(): nat {
      entries.Length
    }

    /** Whether setVirtualEntry takes a write with this access kind: only one that
        matches the element kind. */
    predicate Accepts(accessKind: Kind) {
      accessKind == elementKind
    }

    /** setVirtualEntry(virtual, index, value): the write uses the entry's own kind,
        so it is always taken. */
    method SetVirtualEntry(index: nat, value: Value)
      requires index < entries.Length
      modifies entries
      ensures entries[..] == old(entries[..])[index := Entry(elementKind, value)]
    {
      entries[index] := Entry(elementKind, value);
    }

    /** setVirtualEntry(virtual, index, value, accessKind, -1): refuses (false, and
        nothing changes) a write whose access kind the entry cannot hold. */
    method SetVirtualEntryAs(index: nat, value: Value, accessKind: Kind) returns (ok: bool)
      requires index < entries.Length
      modifies entries
      ensures ok == Accepts(accessKind)
      ensures entries[..] == if ok then old(entries[..])[index := Entry(accessKind, value)]
                             else old(entries[..])
    {
      ok := Accepts(accessKind);
      if ok {
        entries[index] := Entry(accessKind, value);
      }
    }
  }

  /** What tool.getAlias returns for a node: a virtual object, or anything else
      (the node was materialized, or was never virtual). */
  datatype Alias = Virtual(store: VirtualStore) | Materialized

  /** The alias is virtual and has an entry at slot. */
  predicate HasSlot(a: Alias, slot: nat) {
    a.Virtual? && slot < a.store.EntryCount()
  }
}
