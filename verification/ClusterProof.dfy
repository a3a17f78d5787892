/** Every step of the cluster keeps the invariant. */
module ClusterProof {
  import opened RaftTypes
  import opened NodeModel
  import opened Cluster
  import opened Invariants
  import opened Evolution
  import opened QuietSteps
  import opened ElectionSteps
  import opened CommitSteps
  import opened GrowthSteps
  import opened AppendSteps

  lemma InitHolds(c: State)
    requires Init(c)
    ensures Inv(c)
  {
  }

  // ---- Sending ----

  /** A built request carries the rest of the leader's log, from a position the leader still holds. */
  lemma BuiltRequestOk(h: History, s: NodeState, to: NodeId)
    requires LeadsTerm(h, s) && ProgressOk(h, s) && KnowsPeer(s, to)
    requires s.base <= s.commit <= |s.log| && CommittedBy(h, s.log[..s.commit], s.term)
    ensures RequestOk(h, BuildAppend(s, to)) && to in s.peers
  {
    assert to in PeerSet(s.peers);
    var r := BuildAppend(s, to);
    assert r.Last() == |s.log| && r.entries == s.log[r.prevIndex..|s.log|];
  }

  lemma SendKeeps(c: State, c': State)
    requires Inv(c) && c'.nodes == c.nodes && c'.h == c.h
    requires c'.net == c.net.(appends := c'.net.appends) && NetInv(c'.nodes, c'.net, c'.h)
    ensures Inv(c') && Evolves(c, c')
  {
    SendVotes(c, c');
  }

  lemma SendVotes(c: State, c': State)
    requires VoteInv(c.nodes, c.net, c.h) && c'.nodes == c.nodes && c'.h == c.h
    requires c'.net == c.net.(appends := c'.net.appends)
    ensures VoteInv(c'.nodes, c'.net, c'.h)
  {
  }

  lemma SendNet(c: State, p: NodeId, to: NodeId)
    requires p in c.nodes && NodesOk(c.nodes) && LeaderInv(c.nodes, c.h) && ProgressInv(c.nodes, c.h)
    requires CommitInv(c.nodes, c.h) && KnowsPeer(c.nodes[p], to)
    ensures RequestOk(c.h, BuildAppend(c.nodes[p], to)) && to in c.nodes && to != p && c.nodes[p].id == p
  {
    var s := c.nodes[p];
    assert Configured(c.nodes, p) && LeadsTerm(c.h, s) && ProgressOk(c.h, s);
    BuiltRequestOk(c.h, s, to);
    assert to in PeerSet(s.peers);
  }

  lemma SendAppendKeeps(c: State, c': State, to: NodeId, req: AppendRequest)
    requires Inv(c) && RequestOk(c.h, req) && to in c.nodes && to != req.leader
    requires c' == c.(net := c.net.(appends := c.net.appends + {AppendMsg(to, req)}))
    ensures Inv(c') && Evolves(c, c')
  {
    SendNetInv(c, c', to, req);
    SendKeeps(c, c');
  }

  lemma SendNetInv(c: State, c': State, to: NodeId, req: AppendRequest)
    requires NetInv(c.nodes, c.net, c.h) && RequestOk(c.h, req) && to in c.nodes && to != req.leader
    requires c' == c.(net := c.net.(appends := c.net.appends + {AppendMsg(to, req)}))
    ensures NetInv(c'.nodes, c'.net, c'.h)
  {
  }

  // ---- Replies ----

  /** A success for a request of the current term records only what the peer has stored in it. */
  lemma MatchProgress(h: History, s: NodeState, rec: AppendRecord)
    requires ProgressOk(h, s) && LeadsTerm(h, s) && s.role.Leader? && s.term == rec.req.term
    requires RequestOk(h, rec.req) && Ack(h, rec.from, s.term) >= rec.req.Last()
    ensures ProgressOk(h, RecordMatch(s, rec.from, rec.req.Last()))
  {
  }

  lemma MatchShape(c: State, p: NodeId, rec: AppendRecord)
    requires p in c.nodes && NodesOk(c.nodes) && LeadsTerm(c.h, c.nodes[p]) && ProgressOk(c.h, c.nodes[p])
    requires c.nodes[p].role.Leader? ==> c.nodes[p].term == rec.req.term
    requires RequestOk(c.h, rec.req) && Ack(c.h, rec.from, rec.req.term) >= rec.req.Last()
    ensures LocalStep(c, Local(c, p, RecordMatch(c.nodes[p], rec.from, rec.req.Last())), p)
  {
    if c.nodes[p].role.Leader? { MatchProgress(c.h, c.nodes[p], rec); }
  }

  lemma FailureShape(c: State, p: NodeId, from: NodeId)
    requires p in c.nodes && NodesOk(c.nodes) && ProgressInv(c.nodes, c.h)
    ensures LocalStep(c, Local(c, p, RecordFailure(c.nodes[p], from)), p)
  {
    assert ProgressOk(c.h, c.nodes[p]);
  }

  // ---- Apply, snapshot, restart, pre-vote ----

  lemma OwnStepShape(c: State, step: Step)
    requires Enabled(c, step) && NodesOk(c.nodes) && ProgressInv(c.nodes, c.h)
    requires step.Apply? || step.TakeSnapshot? || step.CrashAndRestart?
    ensures LocalStep(c, Exec(c, step), step.p)
  {
    assert ProgressOk(c.h, c.nodes[step.p]);
  }

  lemma PreVoteShape(c: State, step: Step)
    requires Enabled(c, step) && NodesOk(c.nodes) && ProgressInv(c.nodes, c.h)
    requires step.AskPreVote? || step.GivePreVote? || step.WinPreVote?
    ensures LocalStep(c, Exec(c, step), step.p)
  {
    assert c.nodes == c.nodes[step.p := c.nodes[step.p]];
    assert ProgressOk(c.h, c.nodes[step.p]);
  }

  // ---- All steps ----

  lemma LocalStepsKeep(c: State, step: Step)
    requires Enabled(c, step) && Inv(c)
    requires step.Apply? || step.TakeSnapshot? || step.CrashAndRestart? || step.AskPreVote? || step.GivePreVote?
      || step.WinPreVote? || step.LoseTerm?
    ensures Inv(Exec(c, step)) && Evolves(c, Exec(c, step))
  {
    if step.LoseTerm? {
      LoseTermShape(c, step.p, step.heard.Term());
    } else if step.AskPreVote? || step.GivePreVote? || step.WinPreVote? {
      PreVoteShape(c, step);
    } else {
      OwnStepShape(c, step);
    }
    LocalStepKeeps(c, Exec(c, step), step.p);
  }

  lemma AdvancedKeeps(c: State, c1: State, p: NodeId)
    requires Inv(c1) && Evolves(c, c1) && p in c1.nodes
    ensures Inv(AdvanceAt(c1, p)) && Evolves(c, AdvanceAt(c1, p))
  {
    AdvanceKeeps(c1, p);
    EvolvesTransitively(c, c1, AdvanceAt(c1, p));
  }

  lemma Electable(c: State, p: NodeId, req: VoteRequest, granters: set<NodeId>)
    requires p in c.nodes && NodesOk(c.nodes) && VoteInv(c.nodes, c.net, c.h) && LeaderInv(c.nodes, c.h)
    requires WinsVotes(c.nodes[p], c.net.voteReps, req, granters) && CanPromote(c.nodes[p], req.term)
    ensures Promotable(c, p)
  {
    WinnerIsElected(c, p, req, granters);
    TermHasNoLeader(c.nodes, c.h, p);
  }

  lemma WinElectionKeeps(c: State, p: NodeId, req: VoteRequest, granters: set<NodeId>)
    requires p in c.nodes && Inv(c) && WinsVotes(c.nodes[p], c.net.voteReps, req, granters)
    ensures Inv(DoWinElection(c, p, req.term)) && Evolves(c, DoWinElection(c, p, req.term))
  {
    if CanPromote(c.nodes[p], req.term) {
      Electable(c, p, req, granters);
      PromotedKeeps(c, p, Promoted(c, p));
      AdvancedKeeps(c, Promoted(c, p), p);
    }
  }

  lemma LeaderIsExtendable(c: State, p: NodeId)
    requires p in c.nodes && NodesOk(c.nodes) && VoteInv(c.nodes, c.net, c.h) && LeaderInv(c.nodes, c.h)
    requires c.nodes[p].role.Leader?
    ensures Extendable(c, p)
  {
    assert Configured(c.nodes, p) && NodeVote(c.h, c.nodes[p]) && LeadsTerm(c.h, c.nodes[p]);
  }

  lemma ProposeKeeps(c: State, p: NodeId, command: Command)
    requires p in c.nodes && Inv(c) && c.nodes[p].role.Leader?
    ensures Inv(DoPropose(c, p, command)) && Evolves(c, DoPropose(c, p, command))
  {
    LeaderIsExtendable(c, p);
    ExtendedKeeps(c, p, command, Extended(c, p, command));
    AdvancedKeeps(c, Extended(c, p, command), p);
  }

  lemma SuccessShape(c: State, p: NodeId, rec: AppendRecord)
    requires p in c.nodes && NodesOk(c.nodes) && LeaderInv(c.nodes, c.h) && ProgressInv(c.nodes, c.h)
    requires NetInv(c.nodes, c.net, c.h) && rec in c.net.appendReps && rec.reply.success
    requires c.nodes[p].role.Leader? ==> c.nodes[p].term == rec.req.term
    ensures LocalStep(c, Local(c, p, RecordMatch(c.nodes[p], rec.from, rec.req.Last())), p)
  {
    MatchShape(c, p, rec);
  }

  lemma ReceiveReplyKeeps(c: State, p: NodeId, rec: AppendRecord)
    requires p in c.nodes && Inv(c) && rec in c.net.appendReps
    requires rec.reply.success && c.nodes[p].role.Leader? ==> c.nodes[p].term == rec.req.term
    ensures Inv(DoReceiveReply(c, p, rec)) && Evolves(c, DoReceiveReply(c, p, rec))
  {
    if !KnowsPeer(c.nodes[p], rec.from) {
    } else if rec.reply.success {
      SuccessShape(c, p, rec);
      var c1 := Local(c, p, RecordMatch(c.nodes[p], rec.from, rec.req.Last()));
      LocalStepKeeps(c, c1, p);
      AdvancedKeeps(c, c1, p);
    } else {
      FailureShape(c, p, rec.from);
      LocalStepKeeps(c, Local(c, p, RecordFailure(c.nodes[p], rec.from)), p);
    }
  }

  lemma DeliverKeeps(c: State, msg: AppendMsg)
    requires msg.to in c.nodes && msg.req.WellFormed() && c.nodes[msg.to].base <= |c.nodes[msg.to].log|
    requires Inv(c) && msg in c.net.appends
    ensures Inv(DoReceiveAppend(c, msg)) && Evolves(c, DoReceiveAppend(c, msg))
  {
    InvCommitsOk(c);
    ReceiveShape(c, msg);
    ReceiveAppendKeeps(c, DoReceiveAppend(c, msg), msg);
  }

  lemma SendStepKeeps(c: State, p: NodeId, to: NodeId)
    requires p in c.nodes && Inv(c) && KnowsPeer(c.nodes[p], to)
    ensures Inv(DoSendAppend(c, p, to)) && Evolves(c, DoSendAppend(c, p, to))
  {
    SendNet(c, p, to);
    SendAppendKeeps(c, DoSendAppend(c, p, to), to, BuildAppend(c.nodes[p], to));
  }

  /** Every step of the cluster keeps the invariant, and only adds to the history. */
  lemma StepKeeps(c: State, step: Step)
    requires Inv(c) && Enabled(c, step)
    ensures Inv(Exec(c, step)) && Evolves(c, Exec(c, step))
  {
    match step
    case StandForElection(p) => StandKeeps(c, p);
    case AskVotes(p) => AskVotesKeeps(c, p);
    case GiveVote(p, req) => GiveVoteKeeps(c, p, req);
    case WinElection(p, req, granters) => WinElectionKeeps(c, p, req, granters);
    case Propose(p, command) => ProposeKeeps(c, p, command);
    case SendAppend(p, to) => SendStepKeeps(c, p, to);
    case ReceiveAppend(msg) => DeliverKeeps(c, msg);
    case ReceiveReply(p, rec) => ReceiveReplyKeeps(c, p, rec);
    case _ => LocalStepsKeep(c, step);
  }

  // ---- The steps are the node's operations ----

  /** The operation of raft/node.go, raft/election.go or raft/heartbeat.go that the step runs at its actor. */
  function Operation(s: NodeState, step: Step): NodeState
    requires step.ReceiveAppend? ==> s.base <= |s.log|
  {
    match step
    case StandForElection(_) => BecomeCandidate(s)
    case GiveVote(_, req) => AnswerVote(s, req).0
    case WinElection(_, req, _) => Promote(s, req.term)
    case LoseTerm(_, heard) => StepDown(s, heard.Term())
    case Propose(_, command) => AppendLocal(s, command)
    case ReceiveAppend(msg) => AnswerAppend(s, msg.req).0
    case ReceiveReply(_, rec) =>
      if rec.reply.success then RecordSuccess(s, rec.from, rec.req.Last()) else RecordFailure(s, rec.from)
    case Apply(_) => MarkApplied(s)
    case TakeSnapshot(_, snapshot) => Compact(s, snapshot)
    case CrashAndRestart(_) => Restart(s)
    case _ => s
  }

  /** A step changes its actor as the node's operation does, and no other node. */
  lemma StepIsOperation(c: State, step: Step)
    requires Enabled(c, step)
    ensures Exec(c, step).nodes == c.nodes[step.Actor() := Operation(c.nodes[step.Actor()], step)]
  {
    var p := step.Actor();
    match step
    case WinElection(_, req, _) => AdvanceNode(Promoted(c, p), p);
    case Propose(_, command) => AdvanceNode(Extended(c, p, command), p);
    case ReceiveReply(_, rec) => AdvanceNode(Local(c, p, RecordMatch(c.nodes[p], rec.from, rec.req.Last())), p);
    case _ =>
  }

  lemma AdvanceNode(c: State, p: NodeId)
    requires p in c.nodes
    ensures AdvanceAt(c, p).nodes == c.nodes[p := AdvanceCommit(c.nodes[p])]
  {
    assert c.nodes == c.nodes[p := c.nodes[p]];
  }
}
