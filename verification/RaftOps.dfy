/** The pure operators of the Raft key-value store. */
module RaftOps {

  /** Servers are numbered 1..NumServers; 0 is the source's Nil. */
  type Id = nat

  const NIL: nat := 0

  datatype Option<+T> = None | Some(value: T)

  datatype Kind = Put | Get

  datatype Command = Command(idx: int, kind: Kind, key: string, value: string)

  datatype Entry = Entry(term: nat, cmd: Command, client: int)

  type Log = seq<Entry>

  function ServerSet(n: nat): (r: set<Id>)
    ensures forall i :: i in r <==> 1 <= i <= n
  {
    if n == 0 then {} else ServerSet(n - 1) + {n}
  }

  predicate IsQuorum(n: nat, q: set<Id>) {
    |q| * 2 > n
  }

  function LastTerm(xlog: Log): nat {
    if |xlog| == 0 then 0 else xlog[|xlog| - 1].term
  }

  function Max(a: int, b: int): int {
    if a > b then a else b
  }

  /** The servers a leader counts as holding everything up to `index`: itself and those that acknowledged it. */
  function Agree(n: nat, i: Id, matchIndex: map<Id, nat>, index: nat): set<Id> {
    set k: Id | k in ServerSet(n) && (k == i || (k in matchIndex && matchIndex[k] >= index))
  }

  function FindMaxAgreeIndexRec(n: nat, i: Id, matchIndex: map<Id, nat>, index: nat): nat {
    if index == 0 then NIL
    else if Agreed(n, i, matchIndex, index) then index
    else FindMaxAgreeIndexRec(n, i, matchIndex, index - 1)
  }

  function FindMaxAgreeIndex(n: nat, log: Log, i: Id, matchIndex: map<Id, nat>): nat {
    FindMaxAgreeIndexRec(n, i, matchIndex, |log|)
  }

  predicate Agreed(n: nat, i: Id, matchIndex: map<Id, nat>, index: nat) {
    IsQuorum(n, Agree(n, i, matchIndex, index))
  }

  /** It is the largest index, up to the one given, on which a quorum agrees; 0 when there is none. */
  lemma {:induction false} FindMaxAgreeIndexIsGreatest(n: nat, i: Id, matchIndex: map<Id, nat>, index: nat)
    ensures var r := FindMaxAgreeIndexRec(n, i, matchIndex, index);
            && r <= index
            && (r != NIL ==> Agreed(n, i, matchIndex, r))
            && forall k: nat :: r < k <= index ==> !Agreed(n, i, matchIndex, k)
  {
    if index == 0 {
    } else if Agreed(n, i, matchIndex, index) {
    } else {
      var r := FindMaxAgreeIndexRec(n, i, matchIndex, index - 1);
      FindMaxAgreeIndexIsGreatest(n, i, matchIndex, index - 1);
      assert FindMaxAgreeIndexRec(n, i, matchIndex, index) == r;
      forall k: nat | r < k <= index ensures !Agreed(n, i, matchIndex, k) {
        if k < index {
          assert k <= index - 1;
        }
      }
    }
  }

  type Store = map<string, string>

  function ApplyCommand(cmd: Command, sm: Store, smDomain: set<string>): (Store, set<string>) {
    if cmd.kind.Put? then (sm[cmd.key := cmd.value], smDomain + {cmd.key}) else (sm, smDomain)
  }

  /** Applies entries `start..end` (1-based, inclusive) of the log, as the follower's handler does. */
  function ApplyLog(xlog: Log, start: nat, end: nat, sm: Store, smDomain: set<string>): (Store, set<string>)
    requires 1 <= start && end <= |xlog|
    decreases end + 1 - start
  {
    if start > end then (sm, smDomain)
    else
      var r := ApplyCommand(xlog[start - 1].cmd, sm, smDomain);
      ApplyLog(xlog, start + 1, end, r.0, r.1)
  }

  /** What running a list of commands on the empty store gives: the meaning of a log prefix. */
  function Replay(cmds: seq<Command>): (Store, set<string>) {
    if cmds == [] then (map[], {})
    else
      var r := Replay(cmds[..|cmds| - 1]);
      ApplyCommand(cmds[|cmds| - 1], r.0, r.1)
  }

  function Commands(xlog: Log): (r: seq<Command>)
    ensures |r| == |xlog| && forall k :: 0 <= k < |xlog| ==> r[k] == xlog[k].cmd
  {
    seq(|xlog|, k requires 0 <= k < |xlog| => xlog[k].cmd)
  }

  lemma CommandsPrefix(xlog: Log, k: nat)
    requires k <= |xlog|
    ensures Commands(xlog[..k]) == Commands(xlog)[..k]
  {
  }

  lemma ReplayStep(xlog: Log, k: nat)
    requires k < |xlog|
    ensures var r := Replay(Commands(xlog[..k]));
            Replay(Commands(xlog[..k + 1])) == ApplyCommand(xlog[k].cmd, r.0, r.1)
  {
    assert Commands(xlog[..k + 1])[..k] == Commands(xlog[..k]);
  }

  /** The recursive application used by followers continues the replay: prefix `start-1` becomes prefix `end`. */
  lemma {:induction false} ApplyLogContinuesReplay(xlog: Log, start: nat, end: nat)
    requires 1 <= start && end <= |xlog| && start <= end + 1
    ensures var r := Replay(Commands(xlog[..start - 1]));
            ApplyLog(xlog, start, end, r.0, r.1) == Replay(Commands(xlog[..end]))
    decreases end + 1 - start
  {
    if start <= end {
      ReplayStep(xlog, start - 1);
      ApplyLogContinuesReplay(xlog, start + 1, end);
    }
  }

  // ----- what the commands mean

  predicate PutsTo(cmd: Command, key: string) {
    cmd.kind == Put && cmd.key == key
  }

  /** Command `k` is the last that puts a value to the key. */
  predicate LastPutAt(cmds: seq<Command>, key: string, k: nat) {
    k < |cmds| && PutsTo(cmds[k], key) && forall j :: k < j < |cmds| ==> !PutsTo(cmds[j], key)
  }

  /** What a reader of the key is told after the commands: the value `k` put last, or that there is none. */
  ghost predicate ReadsAs(cmds: seq<Command>, key: string, value: Option<string>) {
    match value
    case None => forall j {:trigger cmds[j]} :: 0 <= j < |cmds| ==> !PutsTo(cmds[j], key)
    case Some(v) => exists k: nat {:trigger LastPutAt(cmds, key, k)} :: LastPutAt(cmds, key, k) && cmds[k].value == v
  }

  function Lookup(sm: Store, key: string): Option<string> {
    if key in sm then Some(sm[key]) else None
  }

  /** Commands leave in the store, for every key, the value of the last put to it; the domain is the keys put to. */
  lemma {:induction false} ReplayReadsLastPut(cmds: seq<Command>, key: string)
    ensures ReadsAs(cmds, key, Lookup(Replay(cmds).0, key))
    ensures key in Replay(cmds).1 <==> key in Replay(cmds).0
  {
    if cmds != [] {
      var n := |cmds| - 1;
      ReplayReadsLastPut(cmds[..n], key);
      if PutsTo(cmds[n], key) {
        assert LastPutAt(cmds, key, n);
      } else if key in Replay(cmds[..n]).0 {
        var k: nat :| LastPutAt(cmds[..n], key, k) && cmds[..n][k].value == Replay(cmds[..n]).0[key];
        assert LastPutAt(cmds, key, k);
      } else {
        forall j | 0 <= j < |cmds| ensures !PutsTo(cmds[j], key) {
          assert j < n ==> cmds[j] == cmds[..n][j];
        }
      }
    }
  }

  /** There is only one thing a reader can be told. */
  lemma ReadsAsOne(cmds: seq<Command>, key: string, a: Option<string>, b: Option<string>)
    requires ReadsAs(cmds, key, a) && ReadsAs(cmds, key, b)
    ensures a == b
  {
  }

  // ----- quorums

  /** Of a set of servers and the rest one is a quorum, unless the cluster splits evenly: the bound is the least that works. */
  lemma OneSideIsQuorum(n: nat, q: set<Id>)
    requires q <= ServerSet(n)
    ensures |ServerSet(n) - q| == n - |q|
    ensures IsQuorum(n, q) || IsQuorum(n, ServerSet(n) - q) || 2 * |q| == n
  {
    ServerCount(n);
  }

  /** Two quorums of the same cluster share a server. */
  lemma QuorumsIntersect(n: nat, a: set<Id>, b: set<Id>) returns (k: Id)
    requires a <= ServerSet(n) && b <= ServerSet(n)
    requires IsQuorum(n, a) && IsQuorum(n, b)
    ensures k in a && k in b
  {
    ServerCount(n);
    if a * b == {} {
      assert |a + b| == |a| + |b|;
      SubsetSize(a + b, ServerSet(n));
      assert false;
    }
    k :| k in a * b;
  }

  lemma {:induction false} ServerCount(n: nat)
    ensures |ServerSet(n)| == n
  {
    if n > 0 {
      ServerCount(n - 1);
    }
  }

  lemma SubsetSize<T>(a: set<T>, b: set<T>)
    requires a <= b
    ensures |a| <= |b|
  {
    assert b == a + (b - a);
    assert |b| == |a| + |b - a|;
  }
}
