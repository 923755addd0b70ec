/** Raft's persistent log: a list changed in memory, and the operations that bring the stored copy up to it. */
module PersistentLog {

  datatype LogOp<T> = Push(entry: T, index: int) | Pop(index: int)

  /** The database: the entries stored under the keys 0, 1, 2 ... */
  function Stored<T>(list: seq<T>): (m: map<int, T>)
    ensures forall i :: i in m <==> 0 <= i < |list|
  {
    map i | 0 <= i < |list| :: list[i]
  }

  function ApplyOp<T>(db: map<int, T>, op: LogOp<T>): map<int, T> {
    match op
    case Push(entry, index) => db[index := entry]
    case Pop(index) => db - {index}
  }

  function ApplyOps<T>(db: map<int, T>, ops: seq<LogOp<T>>): map<int, T> {
    if ops == [] then db else ApplyOp(ApplyOps(db, ops[..|ops| - 1]), ops[|ops| - 1])
  }

  lemma ApplyOneMore<T>(db: map<int, T>, ops: seq<LogOp<T>>, op: LogOp<T>)
    ensures ApplyOps(db, ops + [op]) == ApplyOp(ApplyOps(db, ops), op)
  {
    assert (ops + [op])[..|ops|] == ops;
  }

  lemma StoredPush<T>(list: seq<T>, entry: T)
    ensures ApplyOp(Stored(list), Push(entry, |list|)) == Stored(list + [entry])
  {
  }

  lemma StoredPop<T>(list: seq<T>)
    requires list != []
    ensures ApplyOp(Stored(list), Pop(|list| - 1)) == Stored(list[..|list| - 1])
  {
  }

  // ----- what a section's commands do to the log

  datatype Cmd<T> = Concat(entries: seq<T>) | PopLast(cnt: nat)

  /** The list after the commands, and the operations they record; None if a pop asks for more than there is. */
  datatype Outcome<T> = Panic | Outcome(list: seq<T>, ops: seq<LogOp<T>>)

  function Pushes<T>(entries: seq<T>, from: nat): seq<LogOp<T>> {
    seq(|entries|, k requires 0 <= k < |entries| => Push(entries[k], from + k))
  }

  function Pops<T>(len: int, cnt: nat): seq<LogOp<T>> {
    seq(cnt, k => Pop(len - k - 1))
  }

  function RunOne<T>(o: Outcome<T>, cmd: Cmd<T>): Outcome<T> {
    match o
    case Panic => Panic
    case Outcome(list, ops) =>
      match cmd
      case Concat(entries) => Outcome(list + entries, ops + Pushes(entries, |list|))
      case PopLast(cnt) =>
        if cnt > |list| then Panic else Outcome(list[..|list| - cnt], ops + Pops(|list|, cnt))
  }

  function RunAll<T>(list: seq<T>, cmds: seq<Cmd<T>>): Outcome<T> {
    if cmds == [] then Outcome(list, []) else RunOne(RunAll(list, cmds[..|cmds| - 1]), cmds[|cmds| - 1])
  }

  /** Whatever the commands of a section, replaying its operations on the stored list gives its list. */
  lemma {:induction false} OpsReplayToList<T>(list: seq<T>, cmds: seq<Cmd<T>>)
    ensures var o := RunAll(list, cmds); o.Outcome? ==> ApplyOps(Stored(list), o.ops) == Stored(o.list)
  {
    if cmds != [] {
      var o := RunAll(list, cmds[..|cmds| - 1]);
      OpsReplayToList(list, cmds[..|cmds| - 1]);
      if o.Outcome? {
        match cmds[|cmds| - 1]
        case Concat(entries) => PushesReplay(Stored(list), o.ops, o.list, entries);
        case PopLast(cnt) => if cnt <= |o.list| { PopsReplay(Stored(list), o.ops, o.list, cnt); }
      }
    }
  }

  lemma {:induction false} PushesReplay<T>(db: map<int, T>, ops: seq<LogOp<T>>, list: seq<T>, entries: seq<T>)
    requires ApplyOps(db, ops) == Stored(list)
    ensures ApplyOps(db, ops + Pushes(entries, |list|)) == Stored(list + entries)
    decreases |entries|
  {
    if entries == [] {
      assert ops + Pushes(entries, |list|) == ops && list + entries == list;
    } else {
      var n := |entries| - 1;
      PushesReplay(db, ops, list, entries[..n]);
      var before := ops + Pushes(entries[..n], |list|);
      assert ops + Pushes(entries, |list|) == before + [Push(entries[n], |list| + n)];
      ApplyOneMore(db, before, Push(entries[n], |list| + n));
      StoredPush(list + entries[..n], entries[n]);
      assert list + entries[..n] + [entries[n]] == list + entries;
    }
  }

  lemma OneMorePop<T>(db: map<int, T>, ops: seq<LogOp<T>>, list: seq<T>, cnt: nat)
    ensures ApplyOps(db, ops + Pops(|list|, cnt + 1)) == ApplyOp(ApplyOps(db, ops + Pops(|list|, cnt)), Pop(|list| - cnt - 1))
  {
    assert ops + Pops(|list|, cnt + 1) == (ops + Pops(|list|, cnt)) + [Pop(|list| - cnt - 1)];
    ApplyOneMore(db, ops + Pops(|list|, cnt), Pop(|list| - cnt - 1));
  }

  lemma NoPops<T>(len: int)
    ensures Pops<T>(len, 0) == []
  {
  }

  lemma PopsMore<T>(len: int, cnt: nat)
    ensures Pops<T>(len, cnt + 1) == Pops<T>(len, cnt) + [Pop(len - cnt - 1)]
  {
  }

  lemma LastPopped<T>(list: seq<T>, cnt: nat)
    requires cnt < |list|
    ensures var rest := list[..|list| - cnt]; |rest| == |list| - cnt && rest[..|rest| - 1] == list[..|list| - (cnt + 1)]
  {
  }

  lemma {:induction false} PopsReplay<T>(db: map<int, T>, ops: seq<LogOp<T>>, list: seq<T>, cnt: nat)
    requires ApplyOps(db, ops) == Stored(list) && cnt <= |list|
    ensures ApplyOps(db, ops + Pops(|list|, cnt)) == Stored(list[..|list| - cnt])
  {
    hide ApplyOps, ApplyOp, Pops, Stored;
    if cnt == 0 {
      NoPops<T>(|list|);
      assert ops + Pops(|list|, 0) == ops && list[..|list|] == list;
    } else {
      PopsReplay(db, ops, list, cnt - 1);
      OneMorePop(db, ops, list, cnt - 1);
      LastPopped(list, cnt - 1);
      StoredPop(list[..|list| - (cnt - 1)]);
    }
  }

  class PersistentLog<T(0)> {
    var list: seq<T>
    var oldList: seq<T>
    var hasOldList: bool
    var ops: seq<LogOp<T>>
    var db: map<int, T>

    /** The list as of the last commit. */
    ghost function Committed(): seq<T>
      reads this
    {
      if hasOldList then oldList else list
    }

    /** The database holds the committed list, and the recorded operations lead from it to the list in memory. */
    ghost predicate Valid()
      reads this
    {
      && db == Stored(Committed())
      && ApplyOps(db, ops) == Stored(list)
      && (!hasOldList ==> ops == [])
    }

    constructor ()
      ensures Valid() && list == [] && Committed() == []
    {
      list, oldList, hasOldList, ops, db := [], [], false, [], map[];
    }

    method ReadValue() returns (entries: seq<T>)
      ensures entries == list
    {
      entries := list;
    }

    method Begin()
      requires Valid()
      modifies this
      ensures Valid() && hasOldList && list == old(list) && ops == old(ops)
      ensures Committed() == old(Committed()) && db == old(db)
    {
      if !hasOldList {
        oldList := list;
        hasOldList := true;
      }
    }

    /** The log-concat command. */
    method WriteConcat(entries: seq<T>)
      requires Valid()
      modifies this
      ensures Valid() && Outcome(list, ops) == RunOne(Outcome(old(list), old(ops)), Concat(entries))
      ensures Committed() == old(Committed()) && db == old(db)
    {
      Begin();
      ghost var list0, ops0 := list, ops;
      for k := 0 to |entries|
        invariant hasOldList && oldList == old(Committed()) && db == old(db)
        invariant list == list0 + entries[..k] && ops == ops0 + Pushes(entries[..k], |list0|)
      {
        list := list + [entries[k]];
        ops := ops + [Push(entries[k], |list| - 1)];
        assert entries[..k + 1] == entries[..k] + [entries[k]];
        assert Pushes(entries[..k + 1], |list0|) == Pushes(entries[..k], |list0|) + [Push(entries[k], |list0| + k)];
      }
      assert entries[..|entries|] == entries;
      PushesReplay(db, ops0, list0, entries);
    }

    /** The log-pop command: the pops are recorded from the end, then the list is cut. */
    method WritePop(cnt: nat)
      requires Valid() && cnt <= |list|
      modifies this
      ensures Valid() && Outcome(list, ops) == RunOne(Outcome(old(list), old(ops)), PopLast(cnt))
      ensures Committed() == old(Committed()) && db == old(db)
    {
      hide ApplyOps, Stored, Pops;
      Begin();
      ghost var ops0 := ops;
      NoPops<T>(|list|);
      for i := 0 to cnt
        invariant hasOldList && oldList == old(Committed()) && db == old(db) && list == old(list)
        invariant ops == ops0 + Pops(|list|, i)
      {
        ops := ops + [Pop(|list| - i - 1)];
        PopsMore<T>(|list|, i);
      }
      PopsReplay(db, ops0, list, cnt);
      list := list[..|list| - cnt];
    }

    /** Writes the recorded operations, in order, to the database: it then holds exactly the list. */
    method Commit()
      requires Valid()
      modifies this
      ensures Valid() && list == old(list) && Committed() == old(list) && db == Stored(list)
    {
      if hasOldList {
        hasOldList := false;
        oldList := [];
        for k := 0 to |ops|
          invariant list == old(list) && ops == old(ops) && !hasOldList
          invariant db == ApplyOps(old(db), ops[..k])
        {
          match ops[k] {
            case Push(entry, index) => db := db[index := entry];
            case Pop(index) => db := db - {index};
          }
          assert ops[..k + 1][..k] == ops[..k];
        }
        assert ops[..|ops|] == ops;
        ops := [];
      }
    }

    /** Nothing of the section remains. */
    method Abort()
      requires Valid()
      modifies this
      ensures Valid() && list == old(Committed()) == Committed() && db == old(db)
    {
      if hasOldList {
        list := oldList;
        hasOldList := false;
        oldList := [];
        ops := [];
      }
    }
  }
}
