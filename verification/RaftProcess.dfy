/**
 A server of the Raft key-value store as its sections run: shared variables that each critical section reads and
 writes one by one. Every section leaves them as the functions of RaftServer say, which is what the safety proofs
 are about.
 */
module RaftProcess {
  import opened RaftOps
  import opened RaftServer

  class AServer {
    const i: Id
    const n: nat
    var role: Role
    var currentTerm: nat
    var votedFor: Id
    var leader: Id
    var log: Log
    var plog: Log
    var commitIndex: nat
    var nextIndex: map<Id, int>
    var matchIndex: map<Id, nat>
    var votesResponded: set<Id>
    var votesGranted: set<Id>
    var sm: Store
    var smDomain: set<string>
    var replies: seq<Reply>
    var becomeLeaderCh: nat
    var rvIdx: nat
    var aeIdx: nat
    var applying: bool
    var newCommitIndex: nat
    var failed: bool

    ghost function State(): Server
      reads this
    {
      Server(role, currentTerm, votedFor, leader, log, plog, commitIndex, nextIndex, matchIndex, votesResponded, votesGranted,
             sm, smDomain, replies, becomeLeaderCh, None, rvIdx, aeIdx, applying, newCommitIndex, [], [], false, 0,
             0, map[], {}, failed)
    }

    function Cluster(): Config {
      Config(n, false)
    }

    constructor (self: Id, numServers: nat)
      ensures i == self && n == numServers && State() == InitServer(Config(n, false))
    {
      i, n := self, numServers;
      role, currentTerm, votedFor, leader := Follower, 1, NIL, NIL;
      log, plog, commitIndex := [], [], 0;
      nextIndex := map j | j in ServerSet(numServers) :: 1;
      matchIndex := map j | j in ServerSet(numServers) :: 0;
      votesResponded, votesGranted := {}, {};
      sm, smDomain, replies := map[], {}, [];
      becomeLeaderCh := if numServers == 1 then 1 else 0;
      rvIdx, aeIdx, applying, newCommitIndex, failed := 0, 0, false, 0, false;
    }

    method UpdateTermTo(mterm: nat)
      modifies `currentTerm, `role, `votedFor, `leader
      ensures State() == UpdateTerm(old(State()), mterm)
    {
      if mterm > currentTerm {
        currentTerm := mterm;
        role := Follower;
        votedFor := NIL;
        leader := NIL;
      }
    }

    method HandleRequestVoteRequest(msg: Message, send: bool) returns (out: Option<Message>)
      requires msg.RequestVote?
      modifies `currentTerm, `role, `votedFor, `leader
      ensures Effect(State(), out) == HandleRequestVote(i, old(State()), msg, send)
    {
      UpdateTermTo(msg.mterm);
      var j := msg.msource;
      var logOK := msg.mlastLogTerm > LastTerm(log) || (msg.mlastLogTerm == LastTerm(log) && msg.mlastLogIndex >= |log|);
      var grant := msg.mterm == currentTerm && logOK && votedFor in {NIL, j};
      if grant {
        votedFor := j;
      }
      out := if send then Some(VoteReply(currentTerm, grant, i, j)) else None;
    }

    method HandleRequestVoteResponse(msg: Message)
      requires msg.VoteReply?
      modifies `currentTerm, `role, `votedFor, `leader, `votesResponded, `votesGranted, `becomeLeaderCh
      ensures var x := HandleVoteReply(Cluster(), old(State()), msg);
              && currentTerm == x.currentTerm && role == x.role && votedFor == x.votedFor && leader == x.leader
              && votesResponded == x.votesResponded && votesGranted == x.votesGranted && becomeLeaderCh == x.becomeLeaderCh
    {
      UpdateTermTo(msg.mterm);
      if msg.mterm < currentTerm {
        return;
      }
      votesResponded := votesResponded + {msg.msource};
      if msg.mvoteGranted {
        votesGranted := votesGranted + {msg.msource};
        if role == Candidate && IsQuorum(n, votesGranted) {
          becomeLeaderCh := becomeLeaderCh + 1;
        }
      }
    }

    /** The persistent log's pop and concat writes; a pop of more than it has panics. */
    method RewritePlog(cnt: nat, entries: Log) returns (ok: bool)
      modifies `plog
      ensures var o := PopAndConcat(old(plog), cnt, entries); ok == o.Outcome? && (ok ==> plog == o.list)
    {
      PopAndConcatOutcome(plog, cnt, entries);
      ok := cnt <= |plog|;
      if ok {
        plog := plog[..|plog| - cnt];
        plog := plog + entries;
      }
    }

    /** The sender leads the term of its message. */
    method StepDownTo(msg: Message)
      requires msg.AppendEntries?
      modifies `currentTerm, `role, `votedFor, `leader
      ensures State() == StepDown(old(State()), msg)
    {
      UpdateTermTo(msg.mterm);
      if msg.mterm == currentTerm {
        leader := msg.msource;
      }
      if msg.mterm == currentTerm && role == Candidate {
        role := Follower;
      }
    }

    method HandleAppendEntriesRequest(msg: Message, send: bool) returns (out: Option<Message>)
      requires msg.AppendEntries? && !failed
      modifies `currentTerm, `role, `votedFor, `leader, `log, `plog, `sm, `smDomain, `commitIndex, `failed
      ensures var e := HandleAppendEntries(Cluster(), i, old(State()), msg, send);
              if e.sv.failed then failed && out == None
              else
                && out == e.out && !failed
                && currentTerm == e.sv.currentTerm && role == e.sv.role && votedFor == e.sv.votedFor && leader == e.sv.leader
                && log == e.sv.log && plog == e.sv.plog && sm == e.sv.sm && smDomain == e.sv.smDomain
                && commitIndex == e.sv.commitIndex
    {
      out := None;
      StepDownTo(msg);
      var logOK := LogOK(log, msg);
      if msg.mterm < currentTerm || (msg.mterm == currentTerm && role == Follower && !logOK) {
        out := if send then Some(AppendReply(currentTerm, false, 0, i, msg.msource)) else None;
        return;
      }
      if !(msg.mterm == currentTerm && role == Follower && logOK) {
        failed := true;
        return;
      }
      out := AcceptEntriesOf(msg, send);
    }

    method AcceptEntriesOf(msg: Message, send: bool) returns (out: Option<Message>)
      requires msg.AppendEntries? && LogOK(log, msg) && !failed
      modifies `log, `plog, `sm, `smDomain, `commitIndex, `failed
      ensures var e := AcceptEntries(Cluster(), i, old(State()), msg, send);
              if e.sv.failed then failed && out == None
              else
                && out == e.out && !failed
                && log == e.sv.log && plog == e.sv.plog && sm == e.sv.sm && smDomain == e.sv.smDomain
                && commitIndex == e.sv.commitIndex
    {
      hide ApplyLog, PopAndConcat;
      out := None;
      var ok := RewritePlog(|log| - msg.mprevLogIndex, msg.mentries);
      if !ok {
        failed := true;
        return;
      }
      log := log[..msg.mprevLogIndex];
      log := log + msg.mentries;
      if msg.mcommitIndex > |log| {
        failed := true;
        return;
      }
      var r := ApplyLog(log, commitIndex + 1, msg.mcommitIndex, sm, smDomain);
      sm := r.0;
      smDomain := r.1;
      commitIndex := Max(commitIndex, msg.mcommitIndex);
      out := if send then Some(AppendReply(currentTerm, true, msg.mprevLogIndex + |msg.mentries|, i, msg.msource)) else None;
    }

    method HandleAppendEntriesResponse(msg: Message)
      requires msg.AppendReply?
      modifies `currentTerm, `role, `votedFor, `leader, `nextIndex, `matchIndex
      ensures State() == HandleAppendReply(old(State()), msg)
    {
      UpdateTermTo(msg.mterm);
      var j := msg.msource;
      if msg.mterm < currentTerm {
        return;
      }
      if msg.msuccess {
        nextIndex := nextIndex[j := msg.mmatchIndex + 1];
        matchIndex := matchIndex[j := msg.mmatchIndex];
      } else if j in nextIndex {
        nextIndex := nextIndex[j := Max(nextIndex[j] - 1, 1)];
      }
    }

    method HandleClientRequestMessage(cmd: Command, client: int)
      modifies `log, `plog
      ensures State() == HandleClientRequest(Cluster(), old(State()), cmd, client)
    {
      if role == Leader {
        var entry := Entry(currentTerm, cmd, client);
        log := log + [entry];
        plog := plog + [entry];
      }
    }

    /** serverRequestVoteLoop after the leader has timed out. */
    method ServerRequestVoteLoop()
      requires rvIdx == 0 && role in {Follower, Candidate}
      modifies `role, `currentTerm, `votedFor, `votesResponded, `votesGranted, `leader, `rvIdx
      ensures var x := Timeout(i, old(State()));
              && role == x.role && currentTerm == x.currentTerm && votedFor == x.votedFor && leader == x.leader
              && votesResponded == x.votesResponded && votesGranted == x.votesGranted && rvIdx == x.rvIdx
    {
      role := Candidate;
      currentTerm := currentTerm + 1;
      votedFor := i;
      votesResponded := {i};
      votesGranted := {i};
      leader := NIL;
      rvIdx := 1;
    }

    method RequestVoteLoop(send: bool) returns (out: Option<Message>)
      modifies `rvIdx
      ensures Effect(State(), out) == RequestVoteStep(Cluster(), i, old(State()), send)
    {
      out := None;
      if rvIdx <= n {
        if rvIdx != i && send {
          out := Some(RequestVote(currentTerm, LastTerm(log), |log|, i, rvIdx));
        }
        rvIdx := rvIdx + 1;
      } else {
        rvIdx := 0;
      }
    }

    method AppendEntriesLoop(send: bool) returns (out: Option<Message>)
      modifies `aeIdx, `failed
      ensures Effect(State(), out) == AppendEntriesStep(Cluster(), i, old(State()), send)
    {
      out := None;
      if !(role == Leader && aeIdx <= n) {
        aeIdx := 0;
        return;
      }
      if aeIdx != i {
        if !(aeIdx in nextIndex && 1 <= nextIndex[aeIdx] <= |log| + 1) {
          failed := true;
          return;
        }
        if send {
          var prevLogIndex := nextIndex[aeIdx] - 1;
          var prevLogTerm := if prevLogIndex > 0 then log[prevLogIndex - 1].term else 0;
          out := Some(AppendEntries(currentTerm, prevLogIndex, prevLogTerm, log[prevLogIndex..], commitIndex, i, aeIdx));
        }
      }
      aeIdx := aeIdx + 1;
    }

    method AdvanceCommitIndexLoop()
      requires !applying && role == Leader
      modifies `newCommitIndex, `applying, `failed
      ensures Effect(State(), None) == AdvanceCommit(Cluster(), i, old(State()))
    {
      var maxAgreeIndex := FindMaxAgreeIndex(n, log, i, matchIndex);
      var k := commitIndex;
      if maxAgreeIndex != NIL && maxAgreeIndex <= |log| && log[maxAgreeIndex - 1].term == currentTerm {
        k := maxAgreeIndex;
      }
      if k < commitIndex {
        failed := true;
        return;
      }
      newCommitIndex := k;
      applying := true;
    }

    method ApplyLoop()
      modifies `commitIndex, `sm, `smDomain, `replies, `applying, `failed
      ensures var x := ApplyStep(Cluster(), old(State())).sv;
              && commitIndex == x.commitIndex && sm == x.sm && smDomain == x.smDomain && replies == x.replies
              && applying == x.applying && failed == x.failed
    {
      if commitIndex < newCommitIndex {
        ApplyEntry();
      } else {
        applying := false;
      }
    }

    method ApplyEntry()
      modifies `commitIndex, `sm, `smDomain, `replies, `failed
      ensures var x := ApplyNext(Cluster(), old(State())).sv;
              && commitIndex == x.commitIndex && sm == x.sm && smDomain == x.smDomain && replies == x.replies
              && failed == x.failed
    {
      if commitIndex >= |log| {
        failed := true;
        return;
      }
      var entry := log[commitIndex];
      var r := ApplyCommand(entry.cmd, sm, smDomain);
      if entry.cmd.key in r.1 && entry.cmd.key !in r.0 {
        failed := true;
        return;
      }
      commitIndex := commitIndex + 1;
      sm := r.0;
      smDomain := r.1;
      replies := replies + [MakeReply(commitIndex, entry, sm, smDomain)];
    }

    method BecomeLeaderLoop()
      requires becomeLeaderCh > 0 && role == Candidate && IsQuorum(n, votesGranted)
      modifies `role, `nextIndex, `matchIndex, `leader, `becomeLeaderCh
      ensures var x := BecomeLeader(Cluster(), i, old(State()));
              && role == x.role && nextIndex == x.nextIndex && matchIndex == x.matchIndex && leader == x.leader
              && becomeLeaderCh == x.becomeLeaderCh
    {
      becomeLeaderCh := becomeLeaderCh - 1;
      role := Leader;
      nextIndex := map j | j in ServerSet(n) :: |log| + 1;
      matchIndex := map j | j in ServerSet(n) :: 0;
      leader := i;
    }
  }
}
