/** What a step of one server leaves alone: the other servers, and the streams it does not read. */
module RaftFrame {
  import opened RaftOps
  import opened RaftServer
  import opened RaftSystem
  import opened RaftHistory
  import opened RaftHistorySteps
  import opened RaftInvariant

  /** Only what server `i` voted, accepted, copied or leads has changed. */
  ghost predicate OnlyActor(h: History, h': History, i: Id) {
    && Grows(h, h')
    && h'.sync.Keys == h.sync.Keys
    && (forall j :: j in h.sync && j != i ==> h'.sync[j] == h.sync[j])
    && (forall t: nat, j: Id {:trigger (t, j) in h'.accepted} :: j != i ==>
          ((t, j) in h'.accepted <==> (t, j) in h.accepted) &&
          ((t, j) in h.accepted ==> h'.accepted[(t, j)] == h.accepted[(t, j)]))
    && (forall t: nat, j: Id {:trigger (t, j) in h'.ballots} :: j != i ==>
          ((t, j) in h'.ballots <==> (t, j) in h.ballots) &&
          ((t, j) in h.ballots ==> h'.ballots[(t, j)] == h.ballots[(t, j)]))
    && VotesKept(h, h')
    && (forall t: nat {:trigger t in h'.elections} :: t in h'.elections && h'.elections[t].leader != i ==>
          t in h.elections && h'.elections[t] == h.elections[t])
  }

  ghost predicate VotesKept(h: History, h': History) {
    forall t: nat, v: Id, k: Id {:trigger GrantedBy(h', t, v, k)} :: GrantedBy(h, t, v, k) ==> GrantedBy(h', t, v, k)
  }

  lemma OnlyActorTransitive(h: History, h': History, h'': History, i: Id)
    requires OnlyActor(h, h', i) && OnlyActor(h', h'', i)
    ensures OnlyActor(h, h'', i)
  {
    GrowsTransitive(h, h', h'');
    forall t: nat, v: Id, k: Id | GrantedBy(h, t, v, k) ensures GrantedBy(h'', t, v, k) {
      assert GrantedBy(h', t, v, k);
    }
    forall t: nat | t in h''.elections && h''.elections[t].leader != i
      ensures t in h.elections && h''.elections[t] == h.elections[t]
    {
      assert t in h'.elections && h''.elections[t] == h'.elections[t];
    }
    forall t: nat, j: Id | j != i
      ensures ((t, j) in h''.accepted <==> (t, j) in h.accepted) && ((t, j) in h.accepted ==> h''.accepted[(t, j)] == h.accepted[(t, j)])
    {
      assert (t, j) in h'.accepted <==> (t, j) in h.accepted;
    }
    forall t: nat, j: Id | j != i
      ensures ((t, j) in h''.ballots <==> (t, j) in h.ballots) && ((t, j) in h.ballots ==> h''.ballots[(t, j)] == h.ballots[(t, j)])
    {
      assert (t, j) in h'.ballots <==> (t, j) in h.ballots;
    }
  }

  // ----- the other servers

  lemma OtherLogAndVote(h: History, h': History, i: Id, j: Id, sv: Server)
    requires OnlyActor(h, h', i) && j != i && j in h.sync
    requires LogInv(h, j, sv) && VoteInv(h, j, sv)
    ensures LogInv(h', j, sv) && VoteInv(h', j, sv)
  {
    WrittenGrows(h, h', h.sync[j], sv.log);
  }

  lemma OtherRole(n: nat, h: History, h': History, i: Id, j: Id, sv: Server)
    requires OnlyActor(h, h', i) && j != i && j in h.sync
    requires RoleInv(n, h, j, sv)
    ensures RoleInv(n, h', j, sv)
  {
    if sv.role == Leader {
      assert ElectionGrows(h, h', sv.currentTerm);
      assert sv.currentTerm in h'.elections;
    }
    if sv.role == Candidate {
      forall v | v in sv.votesGranted ensures GrantedBy(h', sv.currentTerm, v, j) {
        assert GrantedBy(h, sv.currentTerm, v, j);
      }
    }
  }

  lemma OtherIndex(n: nat, h: History, h': History, i: Id, j: Id, sv: Server)
    requires OnlyActor(h, h', i) && IndexInv(n, h, sv)
    ensures IndexInv(n, h', sv)
  {
    if sv.role == Leader {
      forall k | k in ServerSet(n) ensures MatchInv(h', sv, k) {
        assert MatchInv(h, sv, k);
        if sv.matchIndex[k] != 0 {
          assert AcceptanceGrows(h, h', sv.currentTerm, k);
        }
      }
    }
  }

  lemma OtherCommit(n: nat, h: History, h': History, i: Id, j: Id, sv: Server)
    requires OnlyActor(h, h', i) && j != i && j in h.sync
    requires RoleInv(n, h, j, sv) && CommitInv(n, h, j, sv)
    ensures RoleInv(n, h', j, sv) && CommitInv(n, h', j, sv)
  {
    OtherRole(n, h, h', i, j, sv);
    forall x: nat | Target(sv, x) ensures SafeIndex(n, h', h'.sync[j], sv.log, x) {
      assert SafeIndex(n, h, h.sync[j], sv.log, x);
      CommittedLogGrows(n, h, h', h.sync[j], sv.log[..x]);
    }
    if sv.role == Leader {
      assert ElectionGrows(h, h', sv.currentTerm);
      forall x: nat | Target(sv, x) ensures LeaderIndex(n, h', j, sv, x) {
        assert LeaderIndex(n, h, j, sv, x);
      }
    }
  }

  lemma OtherServer(c: Config, h: History, h': History, i: Id, j: Id, sv: Server)
    requires OnlyActor(h, h', i) && j != i
    requires ServerInv(c, h, j, sv)
    ensures ServerInv(c, h', j, sv)
  {
    OtherLogAndVote(h, h', i, j, sv);
    OtherIndex(c.n, h, h', i, j, sv);
    OtherCommit(c.n, h, h', i, j, sv);
  }

  /** A new vote of the actor for `j` must come from a log no newer than `j`'s. */
  ghost predicate NewVoteOk(h': History, i: Id, j: Id, sv: Server) {
    forall t: nat {:trigger GrantedBy(h', t, i, j)} :: GrantedBy(h', t, i, j) ==>
      Supported(sv, t, h'.ballots[(t, i)].log)
  }

  lemma OtherSupport(h: History, h': History, i: Id, j: Id, sv: Server)
    requires OnlyActor(h, h', i) && SupportInv(h, j, sv) && NewVoteOk(h', i, j, sv)
    ensures SupportInv(h', j, sv)
  {
    forall t: nat, v: Id | GrantedBy(h', t, v, j) ensures Supported(sv, t, h'.ballots[(t, v)].log) {
      if v != i {
        assert GrantedBy(h, t, v, j);
      }
    }
  }

  // ----- streams

  /** A server's term and commit index never fall, and a candidate's log stays as it was when it became one. */
  ghost predicate Advances(sv: Server, sv': Server) {
    && sv.currentTerm <= sv'.currentTerm && sv.commitIndex <= sv'.commitIndex
    && (sv'.currentTerm == sv.currentTerm && sv'.role == Candidate ==> sv.role == Candidate && sv'.log == sv.log)
  }

  lemma MessageFrame(n: nat, h: History, h': History, src: Server, src': Server, dst: Server, dst': Server, m: Message)
    requires MessageOk(n, h, src, dst, m)
    requires Grows(h, h') && VotesKept(h, h')
    requires Advances(src, src')
    requires m.AppendEntries? ==> NotShrinking(h', m)
    requires m.AppendReply? ==> NotCounted(dst', m)
    ensures MessageOk(n, h', src', dst', m)
  {
    match m
    case RequestVote(_, _, _, _, _) =>
    case VoteReply(t, granted, v, k) =>
      if granted {
        assert GrantedBy(h, t, v, k);
        assert GrantedBy(h', t, v, k);
      }
    case AppendEntries(_, _, _, _, _, _, _) => AppendGrows(n, h, h', m);
    case AppendReply(_, _, _, _, _) =>
      if m.msuccess {
        assert ElectionGrows(h, h', m.mterm) && AcceptanceGrows(h, h', m.mterm, m.msource);
      }
  }

  lemma AppendGrows(n: nat, h: History, h': History, m: Message)
    requires m.AppendEntries? && AppendOk(n, h, m) && Grows(h, h')
    ensures AppendOk(n, h', m)
  {
    assert ElectionGrows(h, h', m.mterm);
    var log, log' := h.elections[m.mterm].log, h'.elections[m.mterm].log;
    assert log'[m.mprevLogIndex..Extent(m)] == log[m.mprevLogIndex..Extent(m)];
    assert log'[..m.mcommitIndex] == log[..m.mcommitIndex];
    CommittedLogGrows(n, h, h', m.mterm, log[..m.mcommitIndex]);
  }

  /** The two conditions on messages that a receiver's own step can affect. */
  ghost predicate ReceiverKeeps(h': History, dst': Server, st: seq<Message>) {
    forall k {:trigger st[k]} :: 0 <= k < |st| ==>
      (st[k].AppendEntries? ==> NotShrinking(h', st[k])) && (st[k].AppendReply? ==> NotCounted(dst', st[k]))
  }

  lemma StreamFrame(n: nat, h: History, h': History, src: Server, src': Server, dst: Server, dst': Server,
                    ch: Chan, st: seq<Message>)
    requires StreamOk(n, h, src, dst, ch, st)
    requires Grows(h, h') && VotesKept(h, h')
    requires Advances(src, src')
    requires ReceiverKeeps(h', dst', st)
    ensures StreamOk(n, h', src', dst', ch, st)
  {
    forall k | 0 <= k < |st| ensures MessageOk(n, h', src', dst', st[k]) {
      MessageFrame(n, h, h', src, src', dst, dst', st[k]);
    }
  }

  /** Dropping a message keeps a stream in order. */
  lemma StreamWithout(n: nat, h: History, src: Server, dst: Server, ch: Chan, st: seq<Message>, k: nat)
    requires StreamOk(n, h, src, dst, ch, st) && k < |st|
    ensures StreamOk(n, h, src, dst, ch, st[..k] + st[k + 1..])
  {
    var st' := st[..k] + st[k + 1..];
    forall a | 0 <= a < |st'| ensures ChanOf(st'[a]) == Some(ch) && MessageOk(n, h, src, dst, st'[a]) {
      var a' := if a < k then a else a + 1;
      assert st'[a] == st[a'];
    }
    forall a, b | 0 <= a < b < |st'| ensures InOrder(st'[a], st'[b]) {
      var a' := if a < k then a else a + 1;
      var b' := if b < k then b else b + 1;
      assert InOrder(st[a'], st[b']);
      assert st'[a] == st[a'] && st'[b] == st[b'];
    }
  }

  lemma StreamPush(n: nat, h: History, src: Server, dst: Server, ch: Chan, st: seq<Message>, m: Message)
    requires StreamOk(n, h, src, dst, ch, st)
    requires ChanOf(m) == Some(ch) && MessageOk(n, h, src, dst, m)
    requires forall k {:trigger st[k]} :: 0 <= k < |st| ==> InOrder(st[k], m)
    ensures StreamOk(n, h, src, dst, ch, st + [m])
  {
    var st' := st + [m];
    forall a, b | 0 <= a < b < |st'| ensures InOrder(st'[a], st'[b]) {
      if b < |st| {
        assert InOrder(st[a], st[b]);
      } else {
        assert st'[a] == st[a] && st'[b] == m;
      }
    }
  }
}
