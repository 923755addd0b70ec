/** What each critical section does to the entries a server counts for another one in its matchIndex. */
module RaftCounting {
  import opened RaftOps
  import opened RaftServer
  import opened RaftSystem

  /** What a server counts for `j` is unchanged, and if it leads it led before, in the same term. */
  predicate SameCount(sv: Server, sv': Server, j: Id) {
    && (j in sv.matchIndex <==> j in sv'.matchIndex)
    && (j in sv.matchIndex ==> sv'.matchIndex[j] == sv.matchIndex[j])
    && (sv'.role == Leader ==> sv.role == Leader && sv.currentTerm == sv'.currentTerm)
  }

  /** The message is an acknowledgement of `j` in the server's term, and just what the server now counts. */
  predicate CountsReply(sv': Server, m: Message, j: Id) {
    && m.AppendReply? && m.msuccess && m.msource == j && m.mterm == sv'.currentTerm
    && j in sv'.matchIndex && sv'.matchIndex[j] == m.mmatchIndex
  }

  lemma VotesMoveNoCount(c: Config, i: Id, sv: Server, send: bool, j: Id)
    requires sv.m.Some? && (sv.m.value.RequestVote? || sv.m.value.VoteReply? || sv.m.value.ClientRequest?)
    ensures SameCount(sv, HandleMsg(c, i, sv, send).sv, j)
  {
    hide HandleAppendEntries, HandleAppendReply, LastTerm;
  }

  lemma AppendMovesNoCount(c: Config, i: Id, sv: Server, m: Message, send: bool, j: Id)
    requires m.AppendEntries?
    ensures SameCount(sv, HandleAppendEntries(c, i, sv, m, send).sv, j)
  {
    hide LogOK, AcceptEntries, StepDown;
    StepDownMovesNoCount(sv, m, j);
    if LogOK(sv.log, m) {
      AcceptMovesNoCount(c, i, StepDown(sv, m), m, send, j);
    }
  }

  lemma StepDownMovesNoCount(sv: Server, m: Message, j: Id)
    requires m.AppendEntries?
    ensures SameCount(sv, StepDown(sv, m), j) && StepDown(sv, m).log == sv.log
  {
  }

  lemma AcceptMovesNoCount(c: Config, i: Id, sv: Server, m: Message, send: bool, j: Id)
    requires m.AppendEntries? && LogOK(sv.log, m)
    ensures SameCount(sv, AcceptEntries(c, i, sv, m, send).sv, j)
  {
    hide ApplyLog, PopAndConcat;
  }

  lemma ReplyMovesCount(sv: Server, m: Message, j: Id)
    requires m.AppendReply? && j in sv.matchIndex
    ensures var sv' := HandleAppendReply(sv, m);
            sv'.role == Leader ==> SameCount(sv, sv', j) || CountsReply(sv', m, j)
  {
  }

  lemma LocalMovesNoCount(c: Config, i: Id, sv: Server, act: Action, j: Id)
    requires ActionEnabled(c, i, sv, act) && !act.HandleAct? && !act.BecomeLeaderAct?
    ensures SameCount(sv, Body(c, i, sv, act).sv, j)
  {
    hide HandleMsg, BecomeLeader, RequestVoteStep, AppendEntriesStep, AdvanceCommit, ApplyStep, FollowerApplyStep, ApplyCommand;
    match act
    case RequestVoteAct(send) => AskingMovesNoCount(c, i, sv, send, j);
    case AppendEntriesAct(send) => SendingMovesNoCount(c, i, sv, send, j);
    case AdvanceCommitAct => CommittingMovesNoCount(c, i, sv, j);
    case ApplyAct => CommittingMovesNoCount(c, i, sv, j);
    case FollowerApplyAct => CommittingMovesNoCount(c, i, sv, j);
    case _ =>
  }

  lemma AskingMovesNoCount(c: Config, i: Id, sv: Server, send: bool, j: Id)
    ensures SameCount(sv, RequestVoteStep(c, i, sv, send).sv, j)
  {
    hide LastTerm;
  }

  lemma SendingMovesNoCount(c: Config, i: Id, sv: Server, send: bool, j: Id)
    ensures SameCount(sv, AppendEntriesStep(c, i, sv, send).sv, j)
  {
    hide AppendEntriesStep;
    AppendStepMoves(c, i, sv, send);
  }

  lemma AppendStepMoves(c: Config, i: Id, sv: Server, send: bool)
    ensures var sv' := AppendEntriesStep(c, i, sv, send).sv; sv' == sv.(aeIdx := sv'.aeIdx) || sv' == sv.(failed := true)
  {
    hide AppendMessage, AppendInRange;
  }

  lemma CommittingMovesNoCount(c: Config, i: Id, sv: Server, j: Id)
    ensures SameCount(sv, AdvanceCommit(c, i, sv).sv, j)
    ensures SameCount(sv, ApplyStep(c, sv).sv, j)
    ensures SameCount(sv, FollowerApplyStep(c, sv).sv, j)
  {
    hide FindMaxAgreeIndex, ApplyNext;
    ApplyNextMovesNoCount(c, sv, j);
  }

  lemma AcceptedCommandMovesNoCount(c: Config, sv: Server, j: Id)
    requires sv.commitIndex < |sv.log| && c.modular
    ensures SameCount(sv, ApplyNext(c, sv).sv, j)
  {
    hide ApplyCommand, MakeReply;
  }

  lemma AppliedCommandMovesNoCount(c: Config, sv: Server, j: Id)
    requires sv.commitIndex < |sv.log| && !c.modular
    ensures SameCount(sv, ApplyNext(c, sv).sv, j)
  {
    hide ApplyCommand, MakeReply;
  }

  lemma ApplyNextMovesNoCount(c: Config, sv: Server, j: Id)
    ensures SameCount(sv, ApplyNext(c, sv).sv, j)
  {
    hide ApplyCommand, MakeReply;
    if sv.commitIndex < |sv.log| {
      if c.modular {
        AcceptedCommandMovesNoCount(c, sv, j);
      } else {
        AppliedCommandMovesNoCount(c, sv, j);
      }
    }
  }

  /** A section after which its server leads has left what it counts for `j`, or just begun, or counted an acknowledgement. */
  lemma MatchIndexMoves(c: Config, i: Id, sv: Server, act: Action, j: Id)
    requires ActionEnabled(c, i, sv, act) && j in ServerSet(c.n) && j in sv.matchIndex
    requires RunAction(c, i, sv, act).sv.role == Leader
    ensures var sv' := RunAction(c, i, sv, act).sv;
            && j in sv'.matchIndex
            && (sv'.matchIndex[j] == 0 || SameCount(sv, sv', j) || (act.HandleAct? && CountsReply(sv', sv.m.value, j)))
  {
    hide HandleAppendEntries, HandleAppendReply, HandleRequestVote, HandleVoteReply, HandleClientRequest;
    if act.HandleAct? {
      match sv.m.value
      case AppendEntries(_, _, _, _, _, _, _) => AppendMovesNoCount(c, i, sv, sv.m.value, act.send, j);
      case AppendReply(_, _, _, _, _) => ReplyMovesCount(sv, sv.m.value, j);
      case _ => VotesMoveNoCount(c, i, sv, act.send, j);
    } else if !act.BecomeLeaderAct? {
      LocalMovesNoCount(c, i, sv, act, j);
    }
  }
}
