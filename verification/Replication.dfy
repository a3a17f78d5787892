/** What the leader's bookkeeping means, for every run of the cluster. */
module Replication {
  import opened RaftTypes
  import opened LogOps
  import opened NodeModel
  import opened Cluster
  import opened Invariants
  import opened Evolution
  import opened CommitSteps
  import opened AppendSteps
  import opened ClusterProof
  import opened Safety
  import opened KvStore
  import opened CatchUp
  import opened Compaction
  import RoundTheorems

  // ---- matchIndex ----

  /** At some moment up to i, node q was in the term and held the first n entries of the log. */
  ghost predicate HeldInTerm(run: seq<State>, i: nat, q: NodeId, term: nat, log: Log, n: nat)
    requires i < |run|
  {
    exists j: nat | j <= i ::
      q in run[j].nodes && run[j].nodes[q].term == term && Agree(run[j].nodes[q].log, log, n)
  }

  lemma AckIsOfCurrentTerm(c: State, step: Step, q: NodeId, term: nat)
    requires Enabled(c, step) && Ack(Exec(c, step).h, q, term) > Ack(c.h, q, term)
    ensures q in Exec(c, step).nodes && Exec(c, step).nodes[q].term == term
  {
  }

  lemma AckNowHeld(nodes: Nodes, h: History, q: NodeId, term: nat, n: nat)
    requires AckInv(nodes, h) && 0 < n <= Ack(h, q, term) && q in nodes && nodes[q].term == term
    ensures term in h.logs && Agree(nodes[q].log, h.logs[term], n)
  {
    assert AckRecorded(nodes, h, q, term);
    AgreeShorter(nodes[q].log, h.logs[term], h.acked[(q, term)], n);
  }

  lemma HeldLater(run: seq<State>, i: nat, q: NodeId, term: nat, log: Log, log': Log, n: nat)
    requires i + 1 < |run| && HeldInTerm(run, i, q, term, log, n) && log <= log'
    ensures HeldInTerm(run, i + 1, q, term, log', n)
  {
    var j: nat :| j <= i && q in run[j].nodes && run[j].nodes[q].term == term && Agree(run[j].nodes[q].log, log, n);
    AgreeGrows(run[j].nodes[q].log, log, log', n);
  }

  lemma NextHeld(run: seq<State>, steps: seq<Step>, i: nat, q: NodeId, term: nat, n: nat)
    requires IsRun(run, steps) && i < |steps| && term in run[i].h.logs
    requires HeldInTerm(run, i, q, term, run[i].h.logs[term], n)
    ensures term in run[i + 1].h.logs && HeldInTerm(run, i + 1, q, term, run[i + 1].h.logs[term], n)
  {
    RunStep(run, steps, i);
    HeldLater(run, i, q, term, run[i].h.logs[term], run[i + 1].h.logs[term], n);
  }

  lemma NewAckIsHeld(run: seq<State>, steps: seq<Step>, i: nat, q: NodeId, term: nat, n: nat)
    requires IsRun(run, steps) && i < |steps| && Ack(run[i].h, q, term) < n <= Ack(run[i + 1].h, q, term)
    ensures term in run[i + 1].h.logs && HeldInTerm(run, i + 1, q, term, run[i + 1].h.logs[term], n)
  {
    AckIsOfCurrentTerm(run[i], steps[i], q, term);
    RunInv(run, steps, i + 1);
    AckNowHeld(run[i + 1].nodes, run[i + 1].h, q, term, n);
  }

  ghost predicate AckHeld(run: seq<State>, i: nat, q: NodeId, term: nat, n: nat)
    requires i < |run|
  {
    0 < n <= Ack(run[i].h, q, term) ==>
      term in run[i].h.logs && HeldInTerm(run, i, q, term, run[i].h.logs[term], n)
  }

  lemma NextAckHeld(run: seq<State>, steps: seq<Step>, i: nat, q: NodeId, term: nat, n: nat)
    requires IsRun(run, steps) && i < |steps| && AckHeld(run, i, q, term, n)
    ensures AckHeld(run, i + 1, q, term, n)
  {
    if 0 < n <= Ack(run[i].h, q, term) {
      NextHeld(run, steps, i, q, term, n);
    } else if 0 < n <= Ack(run[i + 1].h, q, term) {
      NewAckIsHeld(run, steps, i, q, term, n);
    }
  }

  lemma {:induction false} AckHeldAlong(run: seq<State>, i: nat, q: NodeId, term: nat, n: nat)
    requires i < |run| && AckHeld(run, 0, q, term, n)
    requires forall k: nat | k < |run| - 1 && AckHeld(run, k, q, term, n) :: AckHeld(run, k + 1, q, term, n)
    ensures AckHeld(run, i, q, term, n)
  {
    if i > 0 {
      AckHeldAlong(run, i - 1, q, term, n);
    }
  }

  /** An acknowledgement in the history is something the node really stored, in that term. */
  lemma AckWasHeld(run: seq<State>, steps: seq<Step>, i: nat, q: NodeId, term: nat, n: nat)
    requires IsRun(run, steps) && i < |run| && 0 < n <= Ack(run[i].h, q, term)
    ensures term in run[i].h.logs && HeldInTerm(run, i, q, term, run[i].h.logs[term], n)
  {
    forall k: nat | k < |run| - 1 && AckHeld(run, k, q, term, n) ensures AckHeld(run, k + 1, q, term, n) {
      NextAckHeld(run, steps, k, q, term, n);
    }
    AckHeldAlong(run, i, q, term, n);
  }

  lemma RunProgress(run: seq<State>, steps: seq<Step>, i: nat, p: NodeId)
    requires IsRun(run, steps) && i < |run| && p in run[i].nodes
    ensures ProgressOk(run[i].h, run[i].nodes[p])
  {
    RunInv(run, steps, i);
    assert ProgressOk(run[i].h, run[i].nodes[p]);
  }

  /**
    A leader's matchIndex for a peer never exceeds what the peer stored in the
    leader's own term, whatever the order replies arrive in.
   */
  lemma MatchIndexSound(run: seq<State>, steps: seq<Step>, i: nat, p: NodeId, q: NodeId, n: nat)
    requires IsRun(run, steps) && i < |run| && p in run[i].nodes && run[i].nodes[p].role.Leader?
    requires q in run[i].nodes[p].peers && 0 < n <= Lookup(run[i].nodes[p].matchIndex, q)
    ensures HeldInTerm(run, i, q, run[i].nodes[p].term, run[i].nodes[p].log, n)
  {
    RunProgress(run, steps, i, p);
    LeaderLog(run, steps, i, p);
    AckWasHeld(run, steps, i, q, run[i].nodes[p].term, n);
  }

  /** When the commit rule finds an index, a true majority of the cluster has stored the log through it. */
  lemma CommittableIsHeld(run: seq<State>, steps: seq<Step>, i: nat, p: NodeId, n: nat)
    returns (q: set<NodeId>)
    requires IsRun(run, steps) && i < |run| && p in run[i].nodes && run[i].nodes[p].role.Leader?
    requires 0 < n <= |run[i].nodes[p].log| && Committable(run[i].nodes[p], n)
    ensures q <= run[i].nodes.Keys && 2 * |q| > |run[i].nodes.Keys|
    ensures forall v | v in q :: HeldInTerm(run, i, v, run[i].nodes[p].term, run[i].nodes[p].log, n)
  {
    RunProgress(run, steps, i, p);
    LeaderLog(run, steps, i, p);
    LeaderAck(run, steps, i, p);
    CommittableIsAcked(run[i].nodes, run[i].h, p, n);
    var term := run[i].nodes[p].term;
    q :| Quorum(run[i].nodes.Keys, q) && AckedBy(run[i].h, q, term, n);
    forall v | v in q ensures HeldInTerm(run, i, v, term, run[i].nodes[p].log, n) {
      AckWasHeld(run, steps, i, v, term, n);
    }
  }

  lemma LeaderAck(run: seq<State>, steps: seq<Step>, i: nat, p: NodeId)
    requires IsRun(run, steps) && i < |run| && p in run[i].nodes && run[i].nodes[p].role.Leader?
    ensures Configured(run[i].nodes, p) && LeadsTerm(run[i].h, run[i].nodes[p]) && run[i].nodes[p].term > 0
    ensures Ack(run[i].h, p, run[i].nodes[p].term) == |run[i].nodes[p].log|
  {
    RunInv(run, steps, i);
    assert NodeVote(run[i].h, run[i].nodes[p]) && Configured(run[i].nodes, p) && LeadsTerm(run[i].h, run[i].nodes[p]);
  }

  // ---- Progress maps ----

  /**
    The progress maps exist exactly at a leader, for exactly its peers, with
    1 <= nextIndex <= last index + 1; so there is never progress to repair.
   */
  lemma LeaderBookkeeping(run: seq<State>, steps: seq<Step>, i: nat, p: NodeId)
    requires IsRun(run, steps) && i < |run| && p in run[i].nodes
    ensures var s := run[i].nodes[p];
      && (s.role.Leader? <==> s.nextIndex.Some?) && (s.role.Leader? <==> s.matchIndex.Some?)
      && (s.role.Leader? ==>
            && s.nextIndex.value.Keys == PeerSet(s.peers) && s.matchIndex.value.Keys == PeerSet(s.peers)
            && forall q | q in s.peers :: 1 <= s.nextIndex.value[q] <= |s.log| + 1)
      && EnsureProgress(s) == s
  {
    RunProgress(run, steps, i, p);
    NothingToRepair(run[i].h, run[i].nodes[p]);
  }

  lemma NothingToRepair(h: History, s: NodeState)
    requires ProgressOk(h, s)
    ensures EnsureProgress(s) == s
  {
    forall q | s.role.Leader? && q in s.peers ensures q in s.nextIndex.value && q in s.matchIndex.value {
      assert q in PeerSet(s.peers);
    }
  }

  /** A leader that has just appended is one whose entries a majority round commits. */
  lemma LeaderIsReady(run: seq<State>, steps: seq<Step>, i: nat, p: NodeId, command: Command)
    requires IsRun(run, steps) && i < |run| && p in run[i].nodes && run[i].nodes[p].role.Leader?
    ensures RoundTheorems.Leading(AppendOnly(run[i].nodes[p], command))
  {
    var s := run[i].nodes[p];
    LeaderBookkeeping(run, steps, i, p);
    IndexOrder(run, steps, i, p);
    LeaderAck(run, steps, i, p);
    forall q | q in s.peers ensures 1 <= Lookup(s.nextIndex, q) <= |s.log| + 2 {
      assert q in PeerSet(s.peers);
    }
  }

  // ---- Requests ----

  lemma SentRequest(run: seq<State>, steps: seq<Step>, i: nat, msg: AppendMsg)
    requires IsRun(run, steps) && i < |run| && msg in run[i].net.appends
    ensures RequestOk(run[i].h, msg.req) && msg.to in run[i].nodes && msg.to != msg.req.leader
    ensures TermsUpTo(run[i].h.logs[msg.req.term], msg.req.term)
  {
    RunInv(run, steps, i);
  }

  /**
    Every request ever sent names a real previous entry and never announces a
    commit beyond the entries it accounts for; it can be delivered at any time.
   */
  lemma RequestsAreSound(run: seq<State>, steps: seq<Step>, i: nat, msg: AppendMsg)
    requires IsRun(run, steps) && i < |run| && msg in run[i].net.appends
    ensures msg.req.WellFormed() && msg.req.leaderCommit <= msg.req.Last()
    ensures Enabled(run[i], ReceiveAppend(msg))
  {
    SentRequest(run, steps, i, msg);
    IndexOrder(run, steps, i, msg.to);
  }

  /** A follower commits only entries that the request it has just accepted accounts for. */
  lemma FollowerCommitIsVerified(run: seq<State>, steps: seq<Step>, i: nat)
    requires IsRun(run, steps) && i < |steps| && steps[i].ReceiveAppend?
    ensures var s, s', req := run[i].nodes[steps[i].msg.to], run[i + 1].nodes[steps[i].msg.to], steps[i].msg.req;
      s'.commit > s.commit ==>
        && s'.commit == req.leaderCommit <= req.Last()
        && req.term in run[i].h.logs && Agree(s'.log, run[i].h.logs[req.term], req.Last())
  {
    var msg := steps[i].msg;
    SentRequest(run, steps, i, msg);
    RequestsAreSound(run, steps, i, msg);
    var (s', reply) := AnswerAppend(run[i].nodes[msg.to], msg.req);
    if reply.success {
      StoredLog(run, steps, i, msg);
    }
  }

  lemma StoredLog(run: seq<State>, steps: seq<Step>, i: nat, msg: AppendMsg)
    requires IsRun(run, steps) && i < |run| && Enabled(run[i], ReceiveAppend(msg))
    requires AnswerAppend(run[i].nodes[msg.to], msg.req).1.success
    ensures msg.req.term in run[i].h.logs
    ensures Agree(AnswerAppend(run[i].nodes[msg.to], msg.req).0.log, run[i].h.logs[msg.req.term], msg.req.Last())
  {
    RunInv(run, steps, i);
    InvCommitsOk(run[i]);
    AnswerStoresLog(run[i], msg);
  }

  lemma AnswerStoresLog(c: State, msg: AppendMsg)
    requires NodesOk(c.nodes) && CommitsOk(c.nodes, c.h) && CommitInv(c.nodes, c.h) && LogInv(c.nodes, c.h)
    requires ProgressInv(c.nodes, c.h) && NetInv(c.nodes, c.net, c.h) && msg in c.net.appends
    requires msg.to in c.nodes && msg.req.WellFormed() && c.nodes[msg.to].base <= |c.nodes[msg.to].log|
    requires AnswerAppend(c.nodes[msg.to], msg.req).1.success
    ensures msg.req.term in c.h.logs
    ensures Agree(AnswerAppend(c.nodes[msg.to], msg.req).0.log, c.h.logs[msg.req.term], msg.req.Last())
  {
    AnswerStores(c, msg);
  }

  // ---- Order of application ----

  lemma StepIndices(c: State, step: Step, p: NodeId)
    requires Enabled(c, step) && p in c.nodes
    ensures p in Exec(c, step).nodes
    ensures var s, s' := c.nodes[p], Exec(c, step).nodes[p];
      && (step != CrashAndRestart(p) ==>
            s.commit <= s'.commit && s'.applied == s.applied + if step == Apply(p) then 1 else 0)
      && (step == CrashAndRestart(p) ==> s'.log == s.log)
  {
    StepIsOperation(c, step);
  }

  /**
    In one step, outside a restart, a node's commit index does not fall and its
    applied index moves by at most one, forward, through the Apply step alone;
    the entries it has committed never change, restart or not.
   */
  lemma AppliesInOrder(run: seq<State>, steps: seq<Step>, i: nat, p: NodeId)
    requires IsRun(run, steps) && i < |steps| && p in run[i].nodes
    ensures p in run[i + 1].nodes
    ensures var s, s' := run[i].nodes[p], run[i + 1].nodes[p];
      && (steps[i] != CrashAndRestart(p) ==>
            s.commit <= s'.commit && s'.applied == s.applied + if steps[i] == Apply(p) then 1 else 0)
      && Agree(s'.log, s.log, s.commit)
  {
    var s, s' := run[i].nodes[p], run[i + 1].nodes[p];
    StepIndices(run[i], steps[i], p);
    CommittedInClog(run, steps, i, i + 1, p, s.commit);
    if steps[i] == CrashAndRestart(p) {
      IndexOrder(run, steps, i, p);
    } else {
      CommittedInClog(run, steps, i + 1, i + 1, p, s.commit);
    }
  }

  // ---- Fixed membership ----

  ghost predicate Plain(log: Log) {
    forall i | 0 <= i < |log| :: !log[i].command.IsMembership()
  }

  ghost predicate AllPlain(h: History) {
    forall t | t in h.logs :: Plain(h.logs[t])
  }

  lemma AnchoredIsPlain(logs: map<nat, Log>, log: Log)
    requires Anchored(logs, log) && forall t | t in logs :: Plain(logs[t])
    ensures Plain(log)
  {
    forall i | 0 <= i < |log| ensures !log[i].command.IsMembership() {
      assert AnchoredAt(logs, log, i);
      AgreeAt(log, logs[log[i].term], i + 1, i);
    }
  }

  lemma AdvanceLogs(c: State, p: NodeId)
    requires p in c.nodes
    ensures AdvanceAt(c, p).h.logs == c.h.logs
  {
  }

  lemma PromotionLogs(c: State, p: NodeId, term: nat)
    requires p in c.nodes
    ensures var s, logs, logs' := c.nodes[p], c.h.logs, DoWinElection(c, p, term).h.logs;
      logs' == logs || logs' == logs[s.term := s.log]
  {
    AdvanceLogs(Promoted(c, p), p);
  }

  lemma ProposalLogs(c: State, p: NodeId, command: Command)
    requires p in c.nodes
    ensures var s := c.nodes[p];
      DoPropose(c, p, command).h.logs == c.h.logs[s.term := AppendOnly(s, command).log]
  {
    AdvanceLogs(Extended(c, p, command), p);
  }

  lemma ReplyLogs(c: State, p: NodeId, rec: AppendRecord)
    requires p in c.nodes
    ensures DoReceiveReply(c, p, rec).h.logs == c.h.logs
  {
    AdvanceLogs(Local(c, p, RecordMatch(c.nodes[p], rec.from, rec.req.Last())), p);
  }

  lemma OtherLogs(c: State, step: Step)
    requires Enabled(c, step) && !step.WinElection? && !step.Propose?
    ensures Exec(c, step).h.logs == c.h.logs
  {
    if step.ReceiveReply? {
      ReplyLogs(c, step.p, step.rec);
    }
  }

  /** The leader's log of a term is set by a promotion and by a proposal, and by nothing else. */
  lemma StepLogs(c: State, step: Step)
    requires Enabled(c, step)
    ensures var s, logs, logs' := c.nodes[step.Actor()], c.h.logs, Exec(c, step).h.logs;
      || logs' == logs
      || logs' == logs[s.term := s.log]
      || (step.Propose? && !step.command.IsMembership() && logs' == logs[s.term := AppendOnly(s, step.command).log])
  {
    if step.WinElection? {
      PromotionLogs(c, step.p, step.req.term);
    } else if step.Propose? {
      ProposalLogs(c, step.p, step.command);
    } else {
      OtherLogs(c, step);
    }
  }

  lemma StepPlain(c: State, step: Step)
    requires Enabled(c, step) && LogInv(c.nodes, c.h) && AllPlain(c.h)
    ensures AllPlain(Exec(c, step).h)
  {
    StepLogs(c, step);
    AnchoredIsPlain(c.h.logs, c.nodes[step.Actor()].log);
  }

  lemma NextPlain(run: seq<State>, steps: seq<Step>, i: nat)
    requires IsRun(run, steps) && i < |steps| && AllPlain(run[i].h)
    ensures AllPlain(run[i + 1].h)
  {
    RunInv(run, steps, i);
    StepPlain(run[i], steps[i]);
  }

  /** With membership fixed, no log ever holds a membership entry. */
  lemma {:induction false} LogsArePlain(run: seq<State>, steps: seq<Step>, i: nat)
    requires IsRun(run, steps) && i < |run|
    ensures AllPlain(run[i].h)
  {
    if i > 0 {
      LogsArePlain(run, steps, i - 1);
      NextPlain(run, steps, i - 1);
    }
  }

  /** With membership fixed, the Apply step is what ApplyCommitted does with the next entry. */
  lemma ApplyStepIsApplyNext(run: seq<State>, steps: seq<Step>, i: nat, p: NodeId, kv: Kv)
    requires IsRun(run, steps) && i < |run| && p in run[i].nodes && CanApply(run[i].nodes[p])
    ensures var s := run[i].nodes[p];
      ApplyNext(s, kv) == (MarkApplied(s), ApplyCommand(kv, s.log[s.applied].command))
  {
    LogsArePlain(run, steps, i);
    LogAnchored(run, steps, i, i, p);
    AnchoredIsPlain(run[i].h.logs, run[i].nodes[p].log);
  }

  // ---- Catching up ----

  /** Every leader and every peer no later than its term are a pair that the catch-up theorem speaks of. */
  lemma LeaderAndPeerPair(run: seq<State>, steps: seq<Step>, i: nat, p: NodeId, q: NodeId)
    requires IsRun(run, steps) && i < |run| && p in run[i].nodes && run[i].nodes[p].role.Leader?
    requires q in run[i].nodes[p].peers && q in run[i].nodes && run[i].nodes[q].term <= run[i].nodes[p].term
    ensures Pair(run[i].nodes[p], run[i].nodes[q], q)
  {
    var c := run[i];
    var l, f := c.nodes[p], c.nodes[q];
    RunProgress(run, steps, i, p);
    LeaderLog(run, steps, i, p);
    LogMatchingHolds(run, steps, i, q, i, p);
    IndexOrder(run, steps, i, p);
    IndexOrder(run, steps, i, q);
    RunCommitsOk(run, steps, i);
    PeerFacts(run, steps, i, p, q);
    FollowerAgreesOnCommitted(c.nodes, c.h, q, l.term);
    AnchoredNumbered(c.h.logs, l.log);
    assert q in PeerSet(l.peers);
  }

  lemma PeerFacts(run: seq<State>, steps: seq<Step>, i: nat, p: NodeId, q: NodeId)
    requires IsRun(run, steps) && i < |run| && p in run[i].nodes && q in run[i].nodes && q in run[i].nodes[p].peers
    ensures Anchored(run[i].h.logs, run[i].nodes[p].log) && TermsUpTo(run[i].nodes[p].log, run[i].nodes[p].term)
    ensures run[i].nodes[q].commit <= |run[i].nodes[q].log|
    ensures CommittedBy(run[i].h, run[i].nodes[q].log[..run[i].nodes[q].commit], run[i].nodes[q].term)
    ensures IsMember(run[i].nodes[q], run[i].nodes[p].id)
  {
    RunInv(run, steps, i);
    assert Configured(run[i].nodes, p) && Configured(run[i].nodes, q);
    assert q in PeerSet(run[i].nodes[p].peers);
    assert p in PeerSet(run[i].nodes[q].peers);
  }

  // ---- Compaction ----

  lemma OverlapMatches(log: Log, g: Log, commit: nat, prev: nat, last: nat, k: nat)
    requires Agree(log, g, commit) && prev <= last <= |g| && k < last - prev && prev + k < commit
    ensures Matched(log, prev, g[prev..last], k)
  {
    AgreeAt(log, g, commit, prev + k);
  }

  lemma AcceptedAgrees(run: seq<State>, steps: seq<Step>, i: nat, p: NodeId, term: nat)
    requires IsRun(run, steps) && i < |run| && p in run[i].nodes && run[i].nodes[p].term <= term
    requires term in run[i].h.logs
    ensures Agree(run[i].nodes[p].log, run[i].h.logs[term], run[i].nodes[p].commit)
  {
    RunInv(run, steps, i);
    RunCommitsOk(run, steps, i);
    FollowerAgreesOnCommitted(run[i].nodes, run[i].h, p, term);
  }

  lemma AcceptedAlike(h: History, s: NodeState, req: AppendRequest)
    requires RequestOk(h, req) && Agree(s.log, h.logs[req.term], s.commit) && s.base <= s.commit
    requires req.WellFormed() && s.base <= |s.log| && AnswerAppend(s, req).1.success
    ensures AnswerAppend(At(s, 0, None), req) == (At(AnswerAppend(s, req).0, 0, None), AnswerAppend(s, req).1)
  {
    forall k | 0 <= k < |req.entries| && req.prevIndex + k < s.base
      ensures Matched(s.log, req.prevIndex, req.entries, k)
    {
      OverlapMatches(s.log, h.logs[req.term], s.commit, req.prevIndex, req.Last(), k);
    }
    AppendAt(s, req);
  }

  /** Whatever append a node accepts in a run, it would accept with the same outcome had it compacted nothing. */
  lemma CompactedFollowsAlike(run: seq<State>, steps: seq<Step>, i: nat, msg: AppendMsg)
    requires IsRun(run, steps) && i < |run| && msg in run[i].net.appends && msg.to in run[i].nodes
    requires msg.req.WellFormed() && run[i].nodes[msg.to].base <= |run[i].nodes[msg.to].log|
    requires AnswerAppend(run[i].nodes[msg.to], msg.req).1.success
    ensures var s := run[i].nodes[msg.to];
      AnswerAppend(At(s, 0, None), msg.req) == (At(AnswerAppend(s, msg.req).0, 0, None), AnswerAppend(s, msg.req).1)
  {
    SentRequest(run, steps, i, msg);
    IndexOrder(run, steps, i, msg.to);
    AcceptedAgrees(run, steps, i, msg.to, msg.req.term);
    AcceptedAlike(run[i].h, run[i].nodes[msg.to], msg.req);
  }

  // ---- What an append keeps ----

  /** A log keeps matching another exactly if the other has no entry of the node's term there, or the same entries. */
  lemma AppendMatchesExactly(s: NodeState, log: Log, command: Command)
    requires LogMatching(s.log, log)
    ensures LogMatching(AppendOnly(s, command).log, log) <==>
      |log| <= |s.log| || log[|s.log|].term != s.term || AppendOnly(s, command).log <= log
  {
    var a, n := AppendOnly(s, command).log, |s.log|;
    assert a[..n] == s.log && a[..n + 1] == a;
    forall i | 0 <= i < n && i < |log| && a[i].term == log[i].term ensures a[..i + 1] == log[..i + 1] {
      assert s.log[i].term == log[i].term;
      assert a[..i + 1] == s.log[..i + 1];
    }
    if n < |log| && a[n].term == log[n].term && LogMatching(a, log) {
      assert a == log[..n + 1];
    }
    if a <= log {
      assert log[..n + 1] == a;
    }
  }

  lemma RunPrefix(run: seq<State>, steps: seq<Step>, i: nat)
    requires IsRun(run, steps) && i < |run|
    ensures IsRun(run[..i + 1], steps[..i])
  {
  }

  lemma RunLonger(run: seq<State>, steps: seq<Step>, step: Step)
    requires IsRun(run, steps) && Enabled(run[|steps|], step)
    ensures IsRun(run + [Exec(run[|steps|], step)], steps + [step])
  {
    var run', steps' := run + [Exec(run[|steps|], step)], steps + [step];
    forall i | 0 <= i < |steps'| ensures Enabled(run'[i], steps'[i]) && run'[i + 1] == Exec(run'[i], steps'[i]) {
      if i < |steps| {
        assert run'[i] == run[i] && run'[i + 1] == run[i + 1] && steps'[i] == steps[i];
      } else {
        assert run'[i] == run[i] && steps'[i] == step;
      }
    }
  }

  /** In every run, a node that still leads when it appends matches every log there is. */
  lemma LeaderAppendMatches(run: seq<State>, steps: seq<Step>, i: nat, p: NodeId, command: Command, q: NodeId)
    requires IsRun(run, steps) && i < |run| && p in run[i].nodes && q in run[i].nodes
    requires run[i].nodes[p].role.Leader? && !command.IsMembership()
    ensures LogMatching(AppendLocal(run[i].nodes[p], command).log, run[i].nodes[q].log)
  {
    var step := Propose(p, command);
    RunPrefix(run, steps, i);
    RunLonger(run[..i + 1], steps[..i], step);
    var run' := run[..i + 1] + [Exec(run[i], step)];
    StepIsOperation(run[i], step);
    assert run'[i + 1] == Exec(run[i], step) && run'[i] == run[i];
    LogMatchingHolds(run', steps[..i] + [step], i + 1, p, i, q);
  }
}
