/** A value shared by archetypes: a cell that can undo its writes, behind a semaphore used as an upgradable lock. */
module LocalShared {

  type Value = int

  const MAX_SEM_SIZE: nat := 10000

  // ----- LocalArchetypeResource

  datatype Cell = Cell(value: Value, oldValue: Value, hasOldValue: bool)

  function CellWrite(c: Cell, v: Value): Cell {
    if c.hasOldValue then c.(value := v) else Cell(v, c.value, true)
  }

  function CellCommit(c: Cell): Cell {
    Cell(c.value, 0, false)
  }

  function CellAbort(c: Cell): Cell {
    if c.hasOldValue then Cell(c.oldValue, 0, false) else c
  }

  /** The value the cell goes back to when its writer aborts. */
  function Committed(c: Cell): Value {
    if c.hasOldValue then c.oldValue else c.value
  }

  class LocalArchetypeResource {
    var value: Value
    var oldValue: Value
    var hasOldValue: bool

    ghost function Contents(): Cell
      reads this
    {
      Cell(value, oldValue, hasOldValue)
    }

    constructor (v: Value)
      ensures Contents() == Cell(v, 0, false)
    {
      value, oldValue, hasOldValue := v, 0, false;
    }

    method ReadValue() returns (v: Value)
      ensures v == value
    {
      v := value;
    }

    method WriteValue(v: Value)
      modifies this
      ensures Contents() == CellWrite(old(Contents()), v)
      ensures value == v && Committed(Contents()) == Committed(old(Contents()))
    {
      if !hasOldValue {
        oldValue := value;
        hasOldValue := true;
      }
      value := v;
    }

    method Commit()
      modifies this
      ensures Contents() == CellCommit(old(Contents()))
      ensures value == old(value) == Committed(Contents())
    {
      hasOldValue := false;
      oldValue := 0;
    }

    method Abort()
      modifies this
      ensures Contents() == CellAbort(old(Contents()))
      ensures value == Committed(old(Contents())) == Committed(Contents())
    {
      if hasOldValue {
        value := oldValue;
        hasOldValue := false;
        oldValue := 0;
      }
    }
  }

  // ----- LocalSharedManager and localShared

  /** The shared cell and the semaphore's free units. */
  datatype Shared = Shared(cell: Cell, free: nat)

  /** A read needs one unit of the semaphore, unless some are held already; a write needs them all. */
  function ReadNeeds(acquired: nat): nat {
    if acquired == 0 then 1 else 0
  }

  function WriteNeeds(acquired: nat): nat {
    if acquired < MAX_SEM_SIZE then MAX_SEM_SIZE - acquired else 0
  }

  function AfterRead(sh: Shared, acquired: nat): (Shared, nat)
    requires ReadNeeds(acquired) <= sh.free
  {
    (sh.(free := sh.free - ReadNeeds(acquired)), acquired + ReadNeeds(acquired))
  }

  function AfterWrite(sh: Shared, acquired: nat, v: Value): (Shared, nat)
    requires WriteNeeds(acquired) <= sh.free
  {
    (Shared(CellWrite(sh.cell, v), sh.free - WriteNeeds(acquired)), acquired + WriteNeeds(acquired))
  }

  function AfterCommit(sh: Shared, acquired: nat): Shared {
    Shared(if acquired == MAX_SEM_SIZE then CellCommit(sh.cell) else sh.cell, sh.free + acquired)
  }

  function AfterAbort(sh: Shared, acquired: nat): Shared {
    Shared(if acquired == MAX_SEM_SIZE then CellAbort(sh.cell) else sh.cell, sh.free + acquired)
  }

  class LocalSharedManager {
    const res: LocalArchetypeResource
    var free: nat

    ghost function Contents(): Shared
      reads this, res
    {
      Shared(res.Contents(), free)
    }

    constructor (v: Value)
      ensures fresh(res) && Contents() == Shared(Cell(v, 0, false), MAX_SEM_SIZE)
    {
      res := new LocalArchetypeResource(v);
      free := MAX_SEM_SIZE;
    }

    /** `inTime` is whether enough units come free before the timeout. */
    method AcquireWithTimeout(n: nat, inTime: bool) returns (ok: bool)
      modifies `free
      ensures ok == (inTime && n <= old(free))
      ensures free == if ok then old(free) - n else old(free)
    {
      ok := inTime && n <= free;
      if ok {
        free := free - n;
      }
    }

    method Release(n: nat)
      modifies `free
      ensures free == old(free) + n
    {
      free := free + n;
    }
  }

  /** One archetype's access to a shared value. A failed acquisition aborts its critical section. */
  class LocalSharedResource {
    const sharedRes: LocalSharedManager
    var acquired: nat

    constructor (manager: LocalSharedManager)
      ensures sharedRes == manager && acquired == 0
    {
      sharedRes := manager;
      acquired := 0;
    }

    method ReadValue(inTime: bool) returns (ok: bool, v: Value)
      modifies `acquired, sharedRes`free
      ensures ok == (old(acquired) > 0 || (inTime && old(sharedRes.free) >= 1))
      ensures ok ==> (sharedRes.Contents(), acquired) == AfterRead(old(sharedRes.Contents()), old(acquired))
      ensures ok ==> v == sharedRes.res.value
      ensures !ok ==> sharedRes.Contents() == old(sharedRes.Contents()) && acquired == old(acquired)
    {
      ok, v := true, 0;
      if acquired == 0 {
        ok := sharedRes.AcquireWithTimeout(1, inTime);
        if !ok {
          return;
        }
        acquired := 1;
      }
      v := sharedRes.res.ReadValue();
    }

    method WriteValue(v: Value, inTime: bool) returns (ok: bool)
      modifies `acquired, sharedRes`free, sharedRes.res
      ensures ok == (old(acquired) >= MAX_SEM_SIZE || (inTime && old(sharedRes.free) >= MAX_SEM_SIZE - old(acquired)))
      ensures ok ==> (sharedRes.Contents(), acquired) == AfterWrite(old(sharedRes.Contents()), old(acquired), v)
      ensures !ok ==> sharedRes.Contents() == old(sharedRes.Contents()) && acquired == old(acquired)
    {
      ok := true;
      if acquired < MAX_SEM_SIZE {
        ok := sharedRes.AcquireWithTimeout(MAX_SEM_SIZE - acquired, inTime);
        if !ok {
          return;
        }
        acquired := MAX_SEM_SIZE;
      }
      sharedRes.res.WriteValue(v);
    }

    method Commit()
      modifies `acquired, sharedRes`free, sharedRes.res
      ensures sharedRes.Contents() == AfterCommit(old(sharedRes.Contents()), old(acquired)) && acquired == 0
    {
      if acquired == MAX_SEM_SIZE {
        sharedRes.res.Commit();
      }
      if acquired > 0 {
        sharedRes.Release(acquired);
        acquired := 0;
      }
    }

    method Abort()
      modifies `acquired, sharedRes`free, sharedRes.res
      ensures sharedRes.Contents() == AfterAbort(old(sharedRes.Contents()), old(acquired)) && acquired == 0
    {
      if acquired == MAX_SEM_SIZE {
        sharedRes.res.Abort();
      }
      if acquired > 0 {
        sharedRes.Release(acquired);
        acquired := 0;
      }
    }
  }
}
