/** What every reachable state satisfies, server by server and stream by stream. */
module RaftInvariant {
  import opened RaftOps
  import opened RaftServer
  import opened RaftSystem
  import opened RaftHistory
  import opened RaftHistorySteps

  // ----- one server

  /** Its log was copied whole from the leader of term `sync`, or is that leader's, and this is recorded. */
  ghost predicate LogInv(h: History, i: Id, sv: Server)
    requires i in h.sync
  {
    var sync := h.sync[i];
    && 1 <= sv.currentTerm && sync <= sv.currentTerm
    && Written(h, sync, sv.log)
    && (sync != 0 ==> (sync, i) in h.accepted)
    && (forall t: nat :: (t, i) in h.accepted ==> t <= sync && (t == sync ==> h.accepted[(t, i)] == |sv.log|))
  }

  ghost predicate VoteInv(h: History, i: Id, sv: Server) {
    && (sv.votedFor != NIL ==> (sv.currentTerm, i) in h.ballots)
    && ((sv.currentTerm, i) in h.ballots ==>
          sv.votedFor != NIL && h.ballots[(sv.currentTerm, i)].cand == sv.votedFor)
    && (forall t: nat :: (t, i) in h.ballots ==> t <= sv.currentTerm)
  }

  ghost predicate LeaderInv(h: History, i: Id, sv: Server)
    requires i in h.sync
  {
    && sv.currentTerm in h.elections
    && h.elections[sv.currentTerm].leader == i
    && h.elections[sv.currentTerm].log == sv.log
    && h.sync[i] == sv.currentTerm
  }

  ghost predicate GrantedBy(h: History, t: nat, v: Id, i: Id) {
    (t, v) in h.ballots && h.ballots[(t, v)].cand == i
  }

  ghost predicate CandidateInv(h: History, i: Id, sv: Server)
    requires i in h.sync
  {
    && h.sync[i] < sv.currentTerm
    && sv.votedFor == i
    && (forall v {:trigger GrantedBy(h, sv.currentTerm, v, i)} :: v in sv.votesGranted ==>
          GrantedBy(h, sv.currentTerm, v, i))
  }

  ghost predicate RoleInv(n: nat, h: History, i: Id, sv: Server)
    requires i in h.sync
  {
    && sv.votesGranted <= ServerSet(n)
    && (sv.role == Leader ==> LeaderInv(h, i, sv))
    && (sv.role == Candidate ==> CandidateInv(h, i, sv))
    && (forall t: nat :: t in h.elections && h.elections[t].leader == i ==>
          t <= sv.currentTerm && (t == sv.currentTerm ==> sv.role == Leader))
  }

  /** What the leader takes `j` to hold, `j` has held in this term. */
  ghost predicate MatchInv(h: History, sv: Server, j: Id)
    requires j in sv.nextIndex && j in sv.matchIndex
  {
    && sv.nextIndex[j] <= |sv.log| + 1
    && (sv.matchIndex[j] == 0 ||
        ((sv.currentTerm, j) in h.accepted && sv.matchIndex[j] <= h.accepted[(sv.currentTerm, j)]))
  }

  ghost predicate IndexInv(n: nat, h: History, sv: Server) {
    && sv.nextIndex.Keys == ServerSet(n)
    && sv.matchIndex.Keys == ServerSet(n)
    && (forall j :: j in sv.nextIndex ==> sv.nextIndex[j] >= 1)
    && (sv.role == Leader ==> forall j {:trigger MatchInv(h, sv, j)} :: j in ServerSet(n) ==> MatchInv(h, sv, j))
  }

  /** The index is within the log, and what lies below it is committed. */
  ghost predicate SafeIndex(n: nat, h: History, sync: nat, log: Log, x: nat) {
    x <= |log| && CommittedLog(n, h, sync, log[..x])
  }

  /** A leader has it from before its election, or sees a quorum for it now. */
  ghost predicate LeaderIndex(n: nat, h: History, i: Id, sv: Server, x: nat)
    requires sv.currentTerm in h.elections
  {
    x <= |h.elections[sv.currentTerm].start| || Agreed(n, i, sv.matchIndex, x)
  }

  /** Every index the server may advance its commit index to. */
  predicate Target(sv: Server, x: nat) {
    x == sv.commitIndex || x == sv.newCommitIndex || x == sv.fTarget || x in sv.fAdvCommitIdxCh
  }

  ghost predicate CommitInv(n: nat, h: History, i: Id, sv: Server)
    requires i in h.sync
    requires sv.role == Leader ==> sv.currentTerm in h.elections
  {
    && (forall x: nat {:trigger Target(sv, x)} :: Target(sv, x) ==> SafeIndex(n, h, h.sync[i], sv.log, x))
    && (sv.role == Leader ==> forall x: nat {:trigger Target(sv, x)} :: Target(sv, x) ==> LeaderIndex(n, h, i, sv, x))
  }

  /** The response the command at position `k` of a log gets: what the commands up to it leave in the store. */
  function ReplyFor(log: Log, k: nat): Reply
    requires 1 <= k <= |log|
  {
    var r := Replay(Commands(log[..k]));
    MakeReply(k, log[k - 1], r.0, r.1)
  }

  ghost predicate RepliesInv(sv: Server) {
    forall r {:trigger r in sv.replies} :: r in sv.replies ==>
      1 <= r.index <= sv.commitIndex <= |sv.log| && r == ReplyFor(sv.log, r.index)
  }

  /** The applied state is the replay of the committed prefix of the log. */
  ghost predicate StoreInv(c: Config, sv: Server) {
    && !sv.failed
    && sv.commitIndex <= |sv.log|
    && (!c.modular ==> sv.plog == sv.log && (sv.sm, sv.smDomain) == Replay(Commands(sv.log[..sv.commitIndex])))
    && (c.modular ==> sv.acct == Commands(sv.log[..sv.commitIndex]))
    && sv.consumed <= |sv.acct|
    && (sv.kvSm, sv.kvDomain) == Replay(sv.acct[..sv.consumed])
    && RepliesInv(sv)
  }

  ghost predicate ServerInv(c: Config, h: History, i: Id, sv: Server) {
    && i in h.sync
    && LogInv(h, i, sv)
    && VoteInv(h, i, sv)
    && RoleInv(c.n, h, i, sv)
    && IndexInv(c.n, h, sv)
    && CommitInv(c.n, h, i, sv)
    && StoreInv(c, sv)
  }

  /** Votes for a server are of terms it has reached, and whoever votes for a candidate has a log no newer than its. */
  ghost predicate SupportInv(h: History, i: Id, sv: Server) {
    forall t: nat, v: Id {:trigger GrantedBy(h, t, v, i)} :: GrantedBy(h, t, v, i) ==>
      Supported(sv, t, h.ballots[(t, v)].log)
  }

  predicate Supported(sv: Server, t: nat, voter: Log) {
    && t <= sv.currentTerm
    && (t == sv.currentTerm && sv.role == Candidate ==> UpToDate(sv.log, voter))
  }

  // ----- one stream

  /** How much of the leader's log a message stands for: what it carries, or what it acknowledges. */
  function Extent(m: Message): nat {
    match m
    case AppendEntries(_, prev, _, entries, _, _, _) => prev + |entries|
    case AppendReply(_, _, k, _, _) => k
    case RequestVote(_, _, _, _, _) => 0
    case VoteReply(_, _, _, _) => 0
    case ClientRequest(_, _) => 0
  }

  /** The message is a cut of its sender's log as leader, and no shorter than what the receiver accepted from it. */
  ghost predicate AppendOk(n: nat, h: History, m: Message)
    requires m.AppendEntries?
  {
    && m.mterm in h.elections
    && h.elections[m.mterm].leader == m.msource
    && |h.elections[m.mterm].start| <= Extent(m) <= |h.elections[m.mterm].log|
    && m.mentries == h.elections[m.mterm].log[m.mprevLogIndex..Extent(m)]
    && (m.mprevLogIndex > 0 ==> m.mprevLogTerm == h.elections[m.mterm].log[m.mprevLogIndex - 1].term)
    && m.mcommitIndex <= Extent(m)
    && CommittedLog(n, h, m.mterm, h.elections[m.mterm].log[..m.mcommitIndex])
  }

  ghost predicate NotShrinking(h: History, m: Message)
    requires m.AppendEntries?
  {
    (m.mterm, m.mdest) in h.accepted ==> h.accepted[(m.mterm, m.mdest)] <= Extent(m)
  }

  ghost predicate ReplyOk(h: History, m: Message)
    requires m.AppendReply?
  {
    m.msuccess ==>
      && m.mterm in h.elections && h.elections[m.mterm].leader == m.mdest
      && (m.mterm, m.msource) in h.accepted && m.mmatchIndex <= h.accepted[(m.mterm, m.msource)]
  }

  /** A success reply still on its way is no older than the ones the leader has counted. */
  ghost predicate NotCounted(dst: Server, m: Message)
    requires m.AppendReply?
  {
    m.msuccess && dst.role == Leader && dst.currentTerm == m.mterm ==>
      m.msource in dst.matchIndex && dst.matchIndex[m.msource] <= m.mmatchIndex
  }

  ghost predicate RequestOk(src: Server, m: Message)
    requires m.RequestVote?
  {
    && m.mterm <= src.currentTerm
    && (m.mterm == src.currentTerm && src.role == Candidate ==>
          m.mlastLogTerm == LastTerm(src.log) && m.mlastLogIndex == |src.log|)
  }

  ghost predicate MessageOk(n: nat, h: History, src: Server, dst: Server, m: Message) {
    match m
    case RequestVote(_, _, _, _, _) => RequestOk(src, m)
    case VoteReply(t, granted, v, i) => granted ==> GrantedBy(h, t, v, i)
    case AppendEntries(_, _, _, _, _, _, _) => AppendOk(n, h, m) && NotShrinking(h, m)
    case AppendReply(_, _, _, _, _) => ReplyOk(h, m) && NotCounted(dst, m)
    case ClientRequest(_, _) => false
  }

  /** Two messages of one stream about the same term do not go back. */
  predicate InOrder(a: Message, b: Message) {
    && (a.AppendEntries? && b.AppendEntries? && a.mterm == b.mterm ==> Extent(a) <= Extent(b))
    && (a.AppendReply? && b.AppendReply? && a.msuccess && b.msuccess && a.mterm == b.mterm ==> Extent(a) <= Extent(b))
  }

  ghost predicate StreamOk(n: nat, h: History, src: Server, dst: Server, ch: Chan, st: seq<Message>) {
    && (forall k {:trigger st[k]} :: 0 <= k < |st| ==> ChanOf(st[k]) == Some(ch) && MessageOk(n, h, src, dst, st[k]))
    && (forall a, b {:trigger InOrder(st[a], st[b])} :: 0 <= a < b < |st| ==> InOrder(st[a], st[b]))
  }

  /** A stream with the message its receiver is about to handle, if that came from it. */
  function Held(s: State, ch: Chan): seq<Message> {
    if ch.dst in s.servers && s.servers[ch.dst].m.Some? && ChanOf(s.servers[ch.dst].m.value) == Some(ch)
    then [s.servers[ch.dst].m.value] else []
  }

  function Stream(s: State, ch: Chan): seq<Message> {
    Held(s, ch) + Queue(s.net, ch)
  }

  ghost predicate StreamInv(n: nat, h: History, servers: map<Id, Server>, ch: Chan, st: seq<Message>) {
    st != [] ==>
      && ch.src in servers && ch.dst in servers && ch.src != ch.dst
      && StreamOk(n, h, servers[ch.src], servers[ch.dst], ch, st)
  }

  ghost predicate ChanInv(c: Config, s: State, h: History, ch: Chan) {
    StreamInv(c.n, h, s.servers, ch, Stream(s, ch))
  }

  // ----- the whole system

  predicate HeldInv(i: Id, sv: Server) {
    sv.m.Some? && !sv.m.value.ClientRequest? ==> sv.m.value.mdest == i
  }

  ghost predicate ServersInv(c: Config, s: State, h: History) {
    && (forall i {:trigger ServerInv(c, h, i, s.servers[i])} :: i in s.servers ==> ServerInv(c, h, i, s.servers[i]))
    && (forall i {:trigger SupportInv(h, i, s.servers[i])} :: i in s.servers ==> SupportInv(h, i, s.servers[i]))
    && (forall i {:trigger HeldInv(i, s.servers[i])} :: i in s.servers ==> HeldInv(i, s.servers[i]))
  }

  ghost predicate ChansInv(c: Config, s: State, h: History) {
    forall ch {:trigger ChanInv(c, s, h, ch)} :: ChanInv(c, s, h, ch)
  }

  ghost predicate Inv(c: Config, s: State, h: History) {
    && s.servers.Keys == ServerSet(c.n)
    && HistoryOk(c.n, h)
    && ServersInv(c, s, h)
    && ChansInv(c, s, h)
  }

  // ----- the start

  function InitHistory(c: Config): History {
    History(map[], map[], map[], map i | i in ServerSet(c.n) :: 0)
  }

  lemma InitInv(c: Config, s: State)
    requires Init(c, s)
    ensures Inv(c, s, InitHistory(c))
  {
    var h := InitHistory(c);
    assert s.servers.Keys == ServerSet(c.n);
    forall i | i in s.servers ensures ServerInv(c, h, i, s.servers[i]) {
      assert s.servers[i] == InitServer(c);
      InitServerInv(c, i);
    }
    forall ch ensures ChanInv(c, s, h, ch) {}
  }

  lemma InitServerInv(c: Config, i: Id)
    requires i in ServerSet(c.n)
    ensures ServerInv(c, InitHistory(c), i, InitServer(c))
  {
    var sv := InitServer(c);
    assert sv.log[..0] == [];
  }
}
