/** The critical sections that change the log, the role, the term or the votes. */
module RaftSections {
  import opened RaftOps
  import opened RaftServer
  import opened RaftSystem
  import opened RaftHistory
  import opened RaftHistorySteps
  import opened RaftInvariant
  import opened RaftFrame
  import opened RaftActions

  ghost predicate Good(c: Config, h: History, i: Id, sv: Server) {
    HistoryOk(c.n, h) && ServerInv(c, h, i, sv) && SupportInv(h, i, sv) && i in ServerSet(c.n)
  }

  lemma Reflexive(h: History, i: Id)
    ensures OnlyActor(h, h, i)
  {
    forall t: nat | t in h.elections ensures ElectionGrows(h, h, t) {}
  }

  // ----- a later term

  lemma UpdateTermOk(c: Config, h: History, i: Id, sv: Server, t: nat)
    requires Good(c, h, i, sv)
    ensures var sv' := UpdateTerm(sv, t);
            && Good(c, h, i, sv') && Advances(sv, sv')
            && t <= sv'.currentTerm
            && (sv'.role == Leader ==> sv' == sv)
  {
    var sv' := UpdateTerm(sv, t);
    assert forall x: nat :: Target(sv', x) ==> Target(sv, x);
  }

  // ----- serverRequestVoteLoop

  lemma OwnBallotOk(n: nat, h: History, i: Id, sv: Server, t: nat, cand: Id)
    requires i in ServerSet(n) && i in h.sync && LogInv(h, i, sv) && sv.currentTerm <= t
    ensures BallotOk(n, h, t, i, Ballot(cand, sv.log, h.sync[i]))
  {
  }

  lemma AddBallotIsOwn(h: History, t: nat, i: Id, b: Ballot)
    requires (t, i) in h.ballots ==> h.ballots[(t, i)].cand == b.cand
    requires Grows(h, AddBallot(h, t, i, b))
    ensures OnlyActor(h, AddBallot(h, t, i, b), i)
  {
  }

  lemma TimeoutOk(c: Config, h: History, i: Id, sv: Server)
    requires Good(c, h, i, sv) && CanTimeout(sv)
    ensures var h' := Record(c, h, i, sv, TimeoutAct); ActionOk(c, h, h', i, sv, Timeout(i, sv), None)
  {
    var t := sv.currentTerm + 1;
    var b := Ballot(i, sv.log, h.sync[i]);
    var h' := AddBallot(h, t, i, b);
    var sv' := Timeout(i, sv);
    OwnBallotOk(c.n, h, i, sv, t, i);
    AddBallotOk(c.n, h, t, i, b);
    AddBallotIsOwn(h, t, i, b);
    TimeoutServer(c, h, i, sv, h', sv');
    TimeoutSupport(h, h', i, sv, sv');
  }

  lemma TimeoutSupport(h: History, h': History, i: Id, sv: Server, sv': Server)
    requires i in h.sync && SupportInv(h, i, sv) && sv' == Timeout(i, sv)
    requires h' == AddBallot(h, sv.currentTerm + 1, i, Ballot(i, sv.log, h.sync[i]))
    ensures SupportInv(h', i, sv')
  {
    forall u: nat, v: Id | GrantedBy(h', u, v, i) ensures Supported(sv', u, h'.ballots[(u, v)].log) {
      if (u, v) != (sv.currentTerm + 1, i) {
        assert GrantedBy(h, u, v, i);
      }
    }
  }

  lemma TimeoutServer(c: Config, h: History, i: Id, sv: Server, h': History, sv': Server)
    requires i in ServerSet(c.n) && ServerInv(c, h, i, sv) && sv' == Timeout(i, sv)
    requires h' == AddBallot(h, sv.currentTerm + 1, i, Ballot(i, sv.log, h.sync[i])) && Grows(h, h')
    ensures ServerInv(c, h', i, sv')
  {
    WrittenGrows(h, h', h.sync[i], sv.log);
    assert GrantedBy(h', sv'.currentTerm, i, i);
    TargetsGrow(c.n, h, h', i, sv, sv');
  }

  /** With the log as it was and no leadership gained, targets stay safe. */
  lemma TargetsGrow(n: nat, h: History, h': History, i: Id, sv: Server, sv': Server)
    requires i in h.sync && RoleInv(n, h, i, sv) && CommitInv(n, h, i, sv)
    requires Grows(h, h') && i in h'.sync && h.sync[i] <= h'.sync[i]
    requires sv'.log == sv.log && sv'.role != Leader
    requires forall x: nat :: Target(sv', x) ==> Target(sv, x)
    ensures CommitInv(n, h', i, sv')
  {
    forall x: nat | Target(sv', x) ensures SafeIndex(n, h', h'.sync[i], sv'.log, x) {
      assert Target(sv, x);
      CommittedLogGrows(n, h, h', h.sync[i], sv.log[..x]);
    }
  }

  // ----- handleMsg: a vote request

  /** Nothing accepted and no leader's count changed: what is on its way stays good. */
  lemma ReceiverSame(n: nat, h: History, h': History, i: Id, sv: Server, sv': Server, head: Option<Message>)
    requires h'.accepted == h.accepted
    requires sv'.role == Leader ==>
               sv.role == Leader && sv.currentTerm == sv'.currentTerm && sv.matchIndex == sv'.matchIndex
    ensures ReceiverOk(n, h, h', i, sv, sv', head)
  {
    forall m: Message | m.AppendReply? && NotCounted(sv, m) ensures NotCounted(sv', m) {}
  }

  lemma RequestVoteOk(c: Config, h: History, i: Id, sv: Server, m: Message, send: bool)
    requires Good(c, h, i, sv)
    requires m.RequestVote? && m.msource in ServerSet(c.n) && m.msource != i
    ensures var e := HandleRequestVote(i, sv, m, send);
            var h' := RecordHandled(c, h, i, sv, m);
            ActionOk(c, h, h', i, sv, e.sv, Some(m)) && SendsOk(c.n, h', i, e)
  {
    hide ElectionsOk, VoteInv, LogInv, ServerInv, AppendOk, UpdateTerm, HandleAppendEntries;
    if HandleRequestVote(i, sv, m, true).out.value.mvoteGranted {
      GrantMeans(i, sv, m);
      GrantedRequestOk(c, h, i, sv, m);
    } else {
      UpdateTermOk(c, h, i, sv, m.mterm);
      Reflexive(h, i);
      ReceiverSame(c.n, h, h, i, sv, UpdateTerm(sv, m.mterm), Some(m));
    }
  }

  lemma GrantedRequestOk(c: Config, h: History, i: Id, sv: Server, m: Message)
    requires Good(c, h, i, sv)
    requires m.RequestVote? && m.msource in ServerSet(c.n) && m.msource != i
    requires Answers(m, m.mterm, m.msource, sv.log)
    requires var sv1 := UpdateTerm(sv, m.mterm);
             sv1.currentTerm == m.mterm && sv1.votedFor in {NIL, m.msource} && sv1.log == sv.log
    ensures var h' := AddBallot(h, m.mterm, i, Ballot(m.msource, sv.log, h.sync[i]));
            && ActionOk(c, h, h', i, sv, UpdateTerm(sv, m.mterm).(votedFor := m.msource), Some(m))
            && GrantedBy(h', m.mterm, i, m.msource)
  {
    var sv1 := UpdateTerm(sv, m.mterm);
    var h' := AddBallot(h, m.mterm, i, Ballot(m.msource, sv.log, h.sync[i]));
    UpdateTermOk(c, h, i, sv, m.mterm);
    GrantOk(c, h, i, sv1, m);
    ReceiverSame(c.n, h, h', i, sv, sv1.(votedFor := m.msource), Some(m));
    AnsweredVote(h, i, m, sv.log, h.sync[i]);
  }

  lemma GrantMeans(i: Id, sv: Server, m: Message)
    requires m.RequestVote? && HandleRequestVote(i, sv, m, true).out.value.mvoteGranted
    ensures Answers(m, m.mterm, m.msource, sv.log)
    ensures var sv1 := UpdateTerm(sv, m.mterm);
            sv1.currentTerm == m.mterm && sv1.votedFor in {NIL, m.msource} && sv1.log == sv.log
  {
  }

  lemma AnsweredVote(h: History, i: Id, m: Message, log: Log, sync: nat)
    requires m.RequestVote? && Answers(m, m.mterm, m.msource, log)
    ensures NewVotes(h, AddBallot(h, m.mterm, i, Ballot(m.msource, log, sync)), i, Some(m))
  {
    var h' := AddBallot(h, m.mterm, i, Ballot(m.msource, log, sync));
    forall t: nat, j: Id | GrantedBy(h', t, i, j) && j != i && t != m.mterm
      ensures GrantedBy(h, t, i, j) && h'.ballots[(t, i)] == h.ballots[(t, i)]
    {}
  }

  lemma GrantOk(c: Config, h: History, i: Id, sv: Server, m: Message)
    requires Good(c, h, i, sv)
    requires m.RequestVote? && m.msource in ServerSet(c.n) && m.msource != i
    requires m.mterm == sv.currentTerm && sv.votedFor in {NIL, m.msource}
    ensures var h' := AddBallot(h, m.mterm, i, Ballot(m.msource, sv.log, h.sync[i]));
            var sv' := sv.(votedFor := m.msource);
            && HistoryOk(c.n, h') && OnlyActor(h, h', i)
            && ServerInv(c, h', i, sv') && SupportInv(h', i, sv')
            && GrantedBy(h', m.mterm, i, m.msource)
  {
    var b := Ballot(m.msource, sv.log, h.sync[i]);
    var h' := AddBallot(h, m.mterm, i, b);
    var sv' := sv.(votedFor := m.msource);
    OwnBallotOk(c.n, h, i, sv, m.mterm, m.msource);
    AddBallotOk(c.n, h, m.mterm, i, b);
    AddBallotIsOwn(h, m.mterm, i, b);
    WrittenGrows(h, h', h.sync[i], sv.log);
    SameLogGrows(c, h, h', i, sv, sv');
    forall u: nat, v: Id | GrantedBy(h', u, v, i) ensures Supported(sv', u, h'.ballots[(u, v)].log) {
      assert GrantedBy(h, u, v, i);
    }
  }

  /** Index and commit facts carry over when log, role, term and indices are as before and accepted is too. */
  lemma SameLogGrows(c: Config, h: History, h': History, i: Id, sv: Server, sv': Server)
    requires ServerInv(c, h, i, sv) && Grows(h, h') && i in h'.sync && h'.sync == h.sync
    requires h'.elections == h.elections
    requires sv'.log == sv.log && sv'.role == sv.role && sv'.currentTerm == sv.currentTerm
    requires sv'.nextIndex == sv.nextIndex && sv'.matchIndex == sv.matchIndex
    requires forall x: nat :: Target(sv', x) ==> Target(sv, x)
    ensures IndexInv(c.n, h', sv') && CommitInv(c.n, h', i, sv')
  {
    if sv.role == Leader {
      forall j | j in ServerSet(c.n) ensures MatchInv(h', sv', j) {
        assert MatchInv(h, sv, j);
        if sv.matchIndex[j] != 0 {
          assert AcceptanceGrows(h, h', sv.currentTerm, j);
        }
      }
    }
    forall x: nat | Target(sv', x)
      ensures SafeIndex(c.n, h', h'.sync[i], sv'.log, x) && (sv'.role == Leader ==> LeaderIndex(c.n, h', i, sv', x))
    {
      assert Target(sv, x);
      CommittedLogGrows(c.n, h, h', h.sync[i], sv.log[..x]);
      if sv.role == Leader {
        assert LeaderIndex(c.n, h, i, sv, x);
      }
    }
  }

  // ----- handleMsg: a vote

  lemma VoteReplyOk(c: Config, h: History, i: Id, sv: Server, m: Message)
    requires Good(c, h, i, sv)
    requires m.VoteReply? && m.msource in ServerSet(c.n)
    requires m.mvoteGranted ==> GrantedBy(h, m.mterm, m.msource, i)
    ensures ActionOk(c, h, h, i, sv, HandleVoteReply(c, sv, m), Some(m))
  {
    var sv1 := UpdateTerm(sv, m.mterm);
    UpdateTermOk(c, h, i, sv, m.mterm);
    CountVote(c, h, i, sv1, HandleVoteReply(c, sv1, m), m);
    VotesOnlyAction(c, h, i, sv, sv1, HandleVoteReply(c, sv1, m), m);
    assert HandleVoteReply(c, sv1, m) == HandleVoteReply(c, sv, m);
  }

  lemma VotesOnlyAction(c: Config, h: History, i: Id, sv: Server, sv1: Server, sv': Server, m: Message)
    requires HistoryOk(c.n, h) && Advances(sv, sv1) && (sv1.role == Leader ==> sv1 == sv)
    requires VotesOnly(sv1, sv') && ServerInv(c, h, i, sv') && SupportInv(h, i, sv')
    ensures ActionOk(c, h, h, i, sv, sv', Some(m))
  {
    Reflexive(h, i);
    ReceiverSame(c.n, h, h, i, sv, sv', Some(m));
  }

  /** Counting a vote touches the vote sets and the signal only. */
  predicate VotesOnly(sv: Server, sv': Server) {
    sv' == sv.(votesResponded := sv'.votesResponded, votesGranted := sv'.votesGranted, becomeLeaderCh := sv'.becomeLeaderCh)
  }

  lemma CountVote(c: Config, h: History, i: Id, sv: Server, sv': Server, m: Message)
    requires Good(c, h, i, sv)
    requires m.VoteReply? && m.msource in ServerSet(c.n)
    requires m.mvoteGranted ==> GrantedBy(h, m.mterm, m.msource, i)
    requires m.mterm <= sv.currentTerm && sv' == HandleVoteReply(c, sv, m)
    ensures ServerInv(c, h, i, sv') && SupportInv(h, i, sv') && VotesOnly(sv, sv')
  {
    assert VotesOnly(sv, sv');
    assert sv'.votesGranted <= sv.votesGranted + {m.msource};
    assert sv'.votesGranted == sv.votesGranted || GrantedBy(h, sv.currentTerm, m.msource, i);
    MoreVotes(c, h, i, sv, sv', m.msource);
  }

  lemma MoreVotes(c: Config, h: History, i: Id, sv: Server, sv': Server, j: Id)
    requires Good(c, h, i, sv) && j in ServerSet(c.n)
    requires VotesOnly(sv, sv') && sv'.votesGranted <= sv.votesGranted + {j}
    requires sv'.votesGranted == sv.votesGranted || GrantedBy(h, sv.currentTerm, j, i)
    ensures ServerInv(c, h, i, sv') && SupportInv(h, i, sv')
  {
    Reflexive(h, i);
    SameLogGrows(c, h, h, i, sv, sv');
    assert RoleInv(c.n, h, i, sv');
  }

  // ----- AServerBecomeLeader

  /** Election safety: whoever has a quorum of the votes of a term is the only leader it can have. */
  lemma QuorumIsLeader(n: nat, h: History, t: nat, i: Id, votes: set<Id>)
    requires ElectionsOk(n, h) && votes <= ServerSet(n) && IsQuorum(n, votes)
    requires forall v {:trigger GrantedBy(h, t, v, i)} :: v in votes ==> GrantedBy(h, t, v, i)
    ensures t in h.elections ==> h.elections[t].leader == i
  {
    if t in h.elections {
      assert ElectionOk(n, h, t);
      var e := h.elections[t];
      forall v | v in e.votes.Keys ensures v in ServerSet(n) {
        assert VoteOk(n, h, t, v, e);
      }
      var v := QuorumsIntersect(n, e.votes.Keys, votes);
      assert VoteOk(n, h, t, v, e) && GrantedBy(h, t, v, i);
    }
  }

  lemma AcceptedHasLeader(n: nat, h: History, t: nat, i: Id)
    requires AcceptedOk(n, h)
    ensures (t, i) in h.accepted ==> t in h.elections
  {
    if (t, i) in h.accepted {
      assert AcceptanceOk(n, h, t, i);
    }
  }

  lemma CandidateCanElect(c: Config, h: History, i: Id, sv: Server, e: Election)
    requires Good(c, h, i, sv) && CanBecomeLeader(c, sv)
    requires e.leader == i && e.start == sv.log && e.log == sv.log
    requires e.votes == map v | v in sv.votesGranted && (sv.currentTerm, v) in h.ballots :: h.ballots[(sv.currentTerm, v)]
    ensures CanElect(c.n, h, sv.currentTerm, e)
  {
    var t := sv.currentTerm;
    QuorumIsLeader(c.n, h, t, i, sv.votesGranted);
    WrittenLogOk(c.n, h, h.sync[i], sv.log);
    forall v | v in sv.votesGranted ensures (t, v) in h.ballots {
      assert GrantedBy(h, t, v, i);
    }
    assert e.votes.Keys == sv.votesGranted;
    forall v | v in e.votes ensures VoteOk(c.n, h, t, v, e) {
      assert GrantedBy(h, t, v, i);
      assert BallotOk(c.n, h, t, v, h.ballots[(t, v)]);
    }
  }

  lemma ElectionRecorded(c: Config, h: History, i: Id, sv: Server)
    requires Good(c, h, i, sv) && CanBecomeLeader(c, sv)
    ensures var h' := RecordElection(h, i, sv);
            && HistoryOk(c.n, h') && OnlyActor(h, h', i)
            && sv.currentTerm !in h.elections && sv.currentTerm in h'.elections
            && h'.elections[sv.currentTerm].leader == i
            && h'.elections[sv.currentTerm].start == sv.log && h'.elections[sv.currentTerm].log == sv.log
            && h'.ballots == h.ballots
            && h'.sync == h.sync[i := sv.currentTerm]
            && h'.accepted == h.accepted[(sv.currentTerm, i) := |sv.log|]
            && (forall u: nat :: u != sv.currentTerm ==>
                  (u in h'.elections <==> u in h.elections) && (u in h.elections ==> h'.elections[u] == h.elections[u]))
  {
    var t := sv.currentTerm;
    var votes := map v | v in sv.votesGranted && (t, v) in h.ballots :: h.ballots[(t, v)];
    var e := Election(i, sv.log, sv.log, votes);
    CandidateCanElect(c, h, i, sv, e);
    ElectOk(c.n, h, t, e);
    var h1 := Elect(h, t, e);
    AcceptedHasLeader(c.n, h, t, i);
    AcceptOk(c.n, h1, t, i, |sv.log|);
    var h' := Accept(h1, t, i, |sv.log|);
    assert OnlyActor(h, h1, i);
    assert OnlyActor(h1, h', i);
    OnlyActorTransitive(h, h1, h', i);
  }

  lemma BecomeLeaderOk(c: Config, h: History, i: Id, sv: Server)
    requires Good(c, h, i, sv) && CanBecomeLeader(c, sv)
    ensures var h' := Record(c, h, i, sv, BecomeLeaderAct); ActionOk(c, h, h', i, sv, BecomeLeader(c, i, sv), None)
  {
    hide HistoryOk, OnlyActor, IndexInv, CommittedLog, RecordHandled, Replay, Commands;
    var h' := RecordElection(h, i, sv);
    var sv' := BecomeLeader(c, i, sv);
    ElectionRecorded(c, h, i, sv);
    NewLeaderServer(c, h, h', i, sv);
    forall u: nat, v: Id | GrantedBy(h', u, v, i) ensures Supported(sv', u, h'.ballots[(u, v)].log) {
      assert GrantedBy(h, u, v, i);
    }
  }

  lemma NewLeaderServer(c: Config, h: History, h': History, i: Id, sv: Server)
    requires Good(c, h, i, sv) && CanBecomeLeader(c, sv)
    requires OnlyActor(h, h', i) && HistoryOk(c.n, h')
    requires sv.currentTerm in h'.elections && h'.elections[sv.currentTerm].leader == i
    requires h'.elections[sv.currentTerm].start == sv.log && h'.elections[sv.currentTerm].log == sv.log
    requires h'.ballots == h.ballots
    requires h'.sync == h.sync[i := sv.currentTerm]
    requires h'.accepted == h.accepted[(sv.currentTerm, i) := |sv.log|]
    requires forall u: nat :: u != sv.currentTerm ==>
                  (u in h'.elections <==> u in h.elections) && (u in h.elections ==> h'.elections[u] == h.elections[u])
    ensures ServerInv(c, h', i, BecomeLeader(c, i, sv))
  {
    var sv' := BecomeLeader(c, i, sv);
    assert LogInv(h', i, sv') && VoteInv(h', i, sv') && RoleInv(c.n, h', i, sv');
    forall j | j in ServerSet(c.n) ensures MatchInv(h', sv', j) {}
    forall x: nat | Target(sv', x)
      ensures SafeIndex(c.n, h', h'.sync[i], sv'.log, x) && LeaderIndex(c.n, h', i, sv', x)
    {
      assert Target(sv, x);
      CommittedLogGrows(c.n, h, h', h.sync[i], sv.log[..x]);
    }
  }
}
