/** What a critical section's commit and abort do to its resources: a context's handles and a map's elements. */
module CriticalSection {
  import opened LocalShared

  type Index = string

  /** A map of resources made on demand, which commits and aborts only the elements a section has indexed. */
  class IncMap {
    const fillFunction: Index -> Value
    var realizedMap: map<Index, LocalArchetypeResource>
    var dirtyElems: map<Index, LocalArchetypeResource>

    /** Distinct indices have distinct elements, and an element no section is using has nothing to undo. */
    ghost predicate Valid()
      reads this, realizedMap.Values
    {
      && (forall i :: i in dirtyElems ==> i in realizedMap && dirtyElems[i] == realizedMap[i])
      && (forall i, j :: i in realizedMap && j in realizedMap && i != j ==> realizedMap[i] != realizedMap[j])
      && (forall i :: i in realizedMap && i !in dirtyElems ==> !realizedMap[i].hasOldValue)
    }

    /** What the map holds at an index, realized or not: now, and if the section were aborted. */
    ghost function Current(i: Index): Value
      reads this, realizedMap.Values
    {
      if i in realizedMap then realizedMap[i].value else fillFunction(i)
    }

    ghost function LastCommitted(i: Index): Value
      reads this, realizedMap.Values
    {
      if i in realizedMap then Committed(realizedMap[i].Contents()) else fillFunction(i)
    }

    constructor (fill: Index -> Value)
      ensures Valid() && fillFunction == fill
      ensures forall i :: Current(i) == LastCommitted(i) == fill(i)
    {
      fillFunction := fill;
      realizedMap, dirtyElems := map[], map[];
    }

    method Element(index: Index) returns (elem: LocalArchetypeResource)
      requires Valid()
      modifies this
      ensures Valid() && index in dirtyElems && elem == realizedMap[index]
      ensures realizedMap.Values <= old(realizedMap.Values) + {elem} && (elem in old(realizedMap.Values) || fresh(elem))
      ensures forall i :: Current(i) == old(Current(i)) && LastCommitted(i) == old(LastCommitted(i))
    {
      if index in realizedMap {
        elem := realizedMap[index];
      } else {
        elem := new LocalArchetypeResource(fillFunction(index));
        realizedMap := realizedMap[index := elem];
      }
      dirtyElems := dirtyElems[index := elem];
    }

    method Read(index: Index) returns (v: Value)
      requires Valid()
      modifies this
      ensures Valid() && v == old(Current(index))
      ensures forall i :: Current(i) == old(Current(i)) && LastCommitted(i) == old(LastCommitted(i))
    {
      var elem := Element(index);
      v := elem.ReadValue();
    }

    method Write(index: Index, v: Value)
      requires Valid()
      modifies this, realizedMap.Values
      ensures Valid()
      ensures forall i :: Current(i) == if i == index then v else old(Current(i))
      ensures forall i :: LastCommitted(i) == old(LastCommitted(i))
    {
      var elem := Element(index);
      elem.WriteValue(v);
    }

    /** Everything written since the last commit or abort becomes permanent, whichever indices that was. */
    method Commit()
      requires Valid()
      modifies this, realizedMap.Values
      ensures Valid() && dirtyElems == map[]
      ensures forall i :: Current(i) == LastCommitted(i) == old(Current(i))
    {
      var rest := dirtyElems.Keys;
      while rest != {}
        invariant rest <= dirtyElems.Keys
        invariant realizedMap == old(realizedMap) && dirtyElems == old(dirtyElems)
        invariant forall i :: i in realizedMap ==> realizedMap[i].value == old(realizedMap[i].value)
        invariant forall i :: i in realizedMap && i !in rest ==> !realizedMap[i].hasOldValue
      {
        var idx :| idx in rest;
        dirtyElems[idx].Commit();
        rest := rest - {idx};
      }
      dirtyElems := map[];
    }

    /** The whole map is what it was at the last commit. */
    method Abort()
      requires Valid()
      modifies this, realizedMap.Values
      ensures Valid() && dirtyElems == map[]
      ensures forall i :: Current(i) == LastCommitted(i) == old(LastCommitted(i))
    {
      var rest := dirtyElems.Keys;
      while rest != {}
        invariant rest <= dirtyElems.Keys
        invariant realizedMap == old(realizedMap) && dirtyElems == old(dirtyElems)
        invariant forall i :: i in realizedMap ==>
                    Committed(realizedMap[i].Contents()) == old(Committed(realizedMap[i].Contents()))
        invariant forall i :: i in realizedMap && i !in rest ==> !realizedMap[i].hasOldValue
      {
        var idx :| idx in rest;
        dirtyElems[idx].Abort();
        rest := rest - {idx};
      }
      dirtyElems := map[];
    }
  }

  /** An archetype's context: its handles to shared values, and those the running section has used. */
  class MPCalContext {
    const resources: map<string, LocalSharedResource>
    var dirtyResourceHandles: set<string>

    /** Handles lead to different shared values. */
    ghost predicate Distinct() {
      forall h, k {:trigger resources[h], resources[k]} :: h in resources && k in resources && h != k ==>
        && resources[h] != resources[k]
        && resources[h].sharedRes != resources[k].sharedRes
        && resources[h].sharedRes.res != resources[k].sharedRes.res
    }

    /** A handle's shared value and how much of its semaphore the section holds. */
    ghost function At(h: string): (Shared, nat)
      requires h in resources
      reads resources[h], resources[h].sharedRes, resources[h].sharedRes.res
    {
      (resources[h].sharedRes.Contents(), resources[h].acquired)
    }

    /** A section holds only what it has marked as dirty. */
    ghost predicate Valid()
      reads this, resources.Values, Managers(), Cells()
    {
      && Distinct()
      && dirtyResourceHandles <= resources.Keys
      && (forall h {:trigger At(h)} :: h in resources && h !in dirtyResourceHandles ==> At(h).1 == 0)
    }

    ghost function Managers(): set<LocalSharedManager> {
      set h | h in resources :: resources[h].sharedRes
    }

    ghost function Cells(): set<LocalArchetypeResource> {
      set h | h in resources :: resources[h].sharedRes.res
    }

    constructor (res: map<string, LocalSharedResource>)
      requires forall h, k {:trigger res[h], res[k]} :: h in res && k in res && h != k ==>
                 && res[h] != res[k]
                 && res[h].sharedRes != res[k].sharedRes
                 && res[h].sharedRes.res != res[k].sharedRes.res
      requires forall h {:trigger res[h]} :: h in res ==> res[h].acquired == 0
      ensures Valid() && resources == res && dirtyResourceHandles == {}
    {
      resources, dirtyResourceHandles := res, {};
    }

    method Read(handle: string, inTime: bool) returns (ok: bool, v: Value)
      requires Valid() && handle in resources
      modifies this, resources.Values, Managers()
      ensures Valid() && dirtyResourceHandles == old(dirtyResourceHandles) + {handle}
      ensures ok == (old(At(handle)).1 > 0 || (inTime && old(At(handle)).0.free >= 1))
      ensures At(handle) == if ok then AfterRead(old(At(handle)).0, old(At(handle)).1) else old(At(handle))
      ensures ok ==> v == At(handle).0.cell.value
      ensures forall h {:trigger At(h)} :: h in resources && h != handle ==> At(h) == old(At(h))
    {
      dirtyResourceHandles := dirtyResourceHandles + {handle};
      ok, v := resources[handle].ReadValue(inTime);
    }

    method Write(handle: string, v: Value, inTime: bool) returns (ok: bool)
      requires Valid() && handle in resources
      modifies this, resources.Values, Managers(), Cells()
      ensures Valid() && dirtyResourceHandles == old(dirtyResourceHandles) + {handle}
      ensures ok == (old(At(handle)).1 >= MAX_SEM_SIZE || (inTime && old(At(handle)).0.free >= MAX_SEM_SIZE - old(At(handle)).1))
      ensures At(handle) == if ok then AfterWrite(old(At(handle)).0, old(At(handle)).1, v) else old(At(handle))
      ensures forall h {:trigger At(h)} :: h in resources && h != handle ==> At(h) == old(At(h))
    {
      dirtyResourceHandles := dirtyResourceHandles + {handle};
      ok := resources[handle].WriteValue(v, inTime);
    }

    /** The first phase asks every resource the section used; `failing` are those that answer with an error. */
    method PreCommit(failing: set<string>) returns (ok: bool)
      ensures ok <==> dirtyResourceHandles !! failing
    {
      ok := true;
      var rest := dirtyResourceHandles;
      while rest != {}
        invariant rest <= dirtyResourceHandles
        invariant ok <==> (dirtyResourceHandles - rest) !! failing
      {
        var handle :| handle in rest;
        if handle in failing {
          ok := false;
        }
        rest := rest - {handle};
      }
    }

    /**
     Every value the section used is committed and given back; the others are not touched. If a resource refuses in the
     first phase nothing happens, and the section is there to be aborted.
     */
    method Commit(failing: set<string>) returns (ok: bool)
      requires Valid()
      modifies this, resources.Values, Managers(), Cells()
      ensures Valid() && (ok <==> old(dirtyResourceHandles) !! failing)
      ensures dirtyResourceHandles == if ok then {} else old(dirtyResourceHandles)
      ensures forall h {:trigger At(h)} :: h in resources ==>
                At(h) == if ok then (AfterCommit(old(At(h)).0, old(At(h)).1), 0) else old(At(h))
    {
      ok := PreCommit(failing);
      if ok {
        CommitAll();
      }
    }

    method CommitAll()
      requires Valid()
      modifies this, resources.Values, Managers(), Cells()
      ensures Valid() && dirtyResourceHandles == {}
      ensures forall h {:trigger At(h)} :: h in resources ==> At(h) == (AfterCommit(old(At(h)).0, old(At(h)).1), 0)
    {
      hide AfterCommit;
      NothingHeld();
      var rest := dirtyResourceHandles;
      while rest != {}
        invariant rest <= dirtyResourceHandles == old(dirtyResourceHandles)
        invariant forall h {:trigger At(h)} :: h in resources ==>
                    At(h) == if h in rest then old(At(h)) else (AfterCommit(old(At(h)).0, old(At(h)).1), 0)
      {
        var handle :| handle in rest;
        CommitHandle(handle);
        rest := rest - {handle};
      }
      dirtyResourceHandles := {};
    }

    method CommitHandle(handle: string)
      requires Distinct() && handle in resources
      modifies resources[handle], resources[handle].sharedRes, resources[handle].sharedRes.res
      ensures At(handle) == (AfterCommit(old(At(handle)).0, old(At(handle)).1), 0)
      ensures forall h {:trigger At(h)} :: h in resources && h != handle ==> At(h) == old(At(h))
    {
      resources[handle].Commit();
      forall h | h in resources && h != handle ensures At(h) == old(At(h)) {
        assert resources[h] != resources[handle];
      }
    }

    /** Every value the section used is back at its last committed state; the others are not touched. */
    method Abort()
      requires Valid()
      modifies this, resources.Values, Managers(), Cells()
      ensures Valid() && dirtyResourceHandles == {}
      ensures forall h {:trigger At(h)} :: h in resources ==> At(h) == (AfterAbort(old(At(h)).0, old(At(h)).1), 0)
    {
      hide AfterAbort;
      NothingHeld();
      var rest := dirtyResourceHandles;
      while rest != {}
        invariant rest <= dirtyResourceHandles == old(dirtyResourceHandles)
        invariant forall h {:trigger At(h)} :: h in resources ==>
                    At(h) == if h in rest then old(At(h)) else (AfterAbort(old(At(h)).0, old(At(h)).1), 0)
      {
        var handle :| handle in rest;
        AbortHandle(handle);
        rest := rest - {handle};
      }
      dirtyResourceHandles := {};
    }

    method AbortHandle(handle: string)
      requires Distinct() && handle in resources
      modifies resources[handle], resources[handle].sharedRes, resources[handle].sharedRes.res
      ensures At(handle) == (AfterAbort(old(At(handle)).0, old(At(handle)).1), 0)
      ensures forall h {:trigger At(h)} :: h in resources && h != handle ==> At(h) == old(At(h))
    {
      resources[handle].Abort();
      forall h | h in resources && h != handle ensures At(h) == old(At(h)) {
        assert resources[h] != resources[handle];
      }
    }
  }

  /** A section that holds nothing of a shared value changes nothing about it. */
  lemma NothingHeld()
    ensures forall sh: Shared {:trigger AfterCommit(sh, 0)} :: AfterCommit(sh, 0) == sh
    ensures forall sh: Shared {:trigger AfterAbort(sh, 0)} :: AfterAbort(sh, 0) == sh
  {
  }
}
