/** The table bookkeeping that both shader managers perform identically:
    create-from-source, create-from-file and release, as functions of one stage's
    table. The backend classes implement these step by step and are proved equal
    to them; the lemmas here are about any sequence of such operations. */
module ShaderRegistry {
  import opened ShaderCommon
  import opened HandleTables

  /** create*FromSource: a shader whose object is not initialized is discarded and
      the null handle returned; otherwise it is added under a new handle. */
  function CreateFromSource(t: Table, obj: ShaderObj): (r: (Table, Handle))
    requires WellFormed(t)
    ensures WellFormed(r.0)
    ensures r.1 == NullHandle <==> !obj.initialized
    ensures !obj.initialized ==> r.0 == t
    ensures obj.initialized ==> r.1 !in t.entries && r.0.entries == t.entries[r.1 := obj]
    ensures |r.0.entries| == |t.entries| + (if obj.initialized then 1 else 0)
  {
    if !obj.initialized then (t, NullHandle) else Add(t, obj)
  }

  /** create*FromFile: a file that cannot be read yields the null handle before any
      compilation; otherwise the whole text is handed to create*FromSource. */
  function CreateFromFile(t: Table, file: Option<string>, bindings: seq<ConstantBufferBinding>, compile: Compiler): (r: (Table, Handle))
    requires WellFormed(t)
    ensures WellFormed(r.0)
    ensures file.None? ==> r == (t, NullHandle)
    ensures file.Some? ==> r == CreateFromSource(t, compile(file.value, bindings))
  {
    match file
    case None => (t, NullHandle)
    case Some(text) => CreateFromSource(t, compile(text, bindings))
  }

  /** One table-changing call on a stage: a creation whose compiler produced `obj`,
      or a release. */
  datatype StageOp = Create(obj: ShaderObj) | Release(h: Handle)

  function Step(t: Table, op: StageOp): (r: Table)
    requires WellFormed(t)
    ensures WellFormed(r)
  {
    match op
    case Create(obj) => CreateFromSource(t, obj).0
    case Release(h) => Erase(t, h)
  }

  /** The table after performing `ops` in order. */
  function Run(t: Table, ops: seq<StageOp>): (r: Table)
    requires WellFormed(t)
    ensures WellFormed(r)
    decreases |ops|
  {
    if ops == [] then t else Run(Step(t, ops[0]), ops[1..])
  }

  /** Releasing the handle a creation returned gives back the table's entries,
      whether the creation succeeded or returned the null handle. */
  lemma ReleaseUndoesCreate(t: Table, obj: ShaderObj)
    requires WellFormed(t)
    ensures Erase(CreateFromSource(t, obj).0, CreateFromSource(t, obj).1).entries == t.entries
  {
  }

  /** Once init has installed an initialized null placeholder, no sequence of
      creations and releases removes or replaces it, and no live handle ever
      refers to an object that failed isInitialized(). The Release(NullHandle)
      case rests on the assumption that erasing the null handle is a no-op. */
  lemma {:induction false} NullEntrySurvives(t: Table, ops: seq<StageOp>)
    requires WellFormed(t) && HasNull(t) && Usable(t)
    ensures HasNull(Run(t, ops)) && Run(t, ops).entries[NullHandle] == t.entries[NullHandle]
    ensures Usable(Run(t, ops))
    decreases |ops|
  {
    if ops != [] {
      // One step keeps the null entry and adds only initialized objects.
      var t1 := Step(t, ops[0]);
      NullEntrySurvives(t1, ops[1..]);
    }
  }

  /** A live handle keeps resolving to the same object until it is released. */
  lemma {:induction false} LiveHandleStable(t: Table, ops: seq<StageOp>, h: Handle)
    requires WellFormed(t) && h in t.entries
    requires forall i :: 0 <= i < |ops| ==> ops[i] != Release(h)
    ensures h in Run(t, ops).entries && Run(t, ops).entries[h] == t.entries[h]
    decreases |ops|
  {
    if ops != [] {
      // One step that does not release h leaves its entry in place.
      var t1 := Step(t, ops[0]);
      LiveHandleStable(t1, ops[1..], h);
    }
  }
}
