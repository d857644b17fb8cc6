/** The per-stage handle table the managers call (`setNullData`, `add`, `erase`,
    `operator[]`, `destroy`). Its implementation lies outside the two modelled files,
    so it is modelled as a value with the contract the managers rely on, which is
    assumed: `add` hands out a key that is neither live nor the null key, and `erase`
    of the null handle does nothing. A counter gives `Add` a body; nothing
    outside this module depends on how the key is chosen. */
module HandleTables {
  import opened ShaderCommon

  datatype Table = Table(entries: map<Handle, ShaderObj>, nextID: nat)

  /** A table before `setNullData`. */
  const EmptyTable: Table := Table(map[], NullHandle + 1)

  /** Every key handed out lies below the counter, which is past the null key. */
  ghost predicate WellFormed(t: Table) {
    NullHandle < t.nextID && forall h :: h in t.entries ==> h < t.nextID
  }

  /** The null placeholder is installed. */
  ghost predicate HasNull(t: Table) {
    NullHandle in t.entries
  }

  /** Every live entry passed its isInitialized() check. */
  ghost predicate Usable(t: Table) {
    forall h :: h in t.entries ==> t.entries[h].initialized
  }

  /** setNullData: installs the null placeholder and touches no other key. */
  function SetNullData(t: Table, obj: ShaderObj): (r: Table)
    requires WellFormed(t)
    ensures WellFormed(r)
    ensures NullHandle in r.entries && r.entries[NullHandle] == obj
    ensures r.entries.Keys == t.entries.Keys + {NullHandle}
    ensures forall h :: h in t.entries && h != NullHandle ==> r.entries[h] == t.entries[h]
  {
    t.(entries := t.entries[NullHandle := obj])
  }

  /** add: stores the object under a key that was not live and is not the null key. */
  function Add(t: Table, obj: ShaderObj): (r: (Table, Handle))
    requires WellFormed(t)
    ensures WellFormed(r.0)
    ensures r.1 != NullHandle && r.1 !in t.entries
    ensures r.0.entries == t.entries[r.1 := obj]
  {
    (Table(t.entries[t.nextID := obj], t.nextID + 1), t.nextID)
  }

  /** erase: removes one non-null key; erasing the null handle is assumed to do
      nothing. */
  function Erase(t: Table, h: Handle): (r: Table)
    requires WellFormed(t)
    ensures WellFormed(r)
    ensures h == NullHandle ==> r == t
    ensures h != NullHandle ==> r.entries.Keys == t.entries.Keys - {h}
    ensures forall k :: k in r.entries ==> k in t.entries && r.entries[k] == t.entries[k]
  {
    if h == NullHandle then t else t.(entries := t.entries - {h})
  }

  /** destroy: releases every entry, the null one included. */
  function DestroyTable(t: Table): (r: Table)
    requires WellFormed(t)
    ensures WellFormed(r)
    ensures |r.entries| == 0 && !HasNull(r)
  {
    t.(entries := map[])
  }
}
