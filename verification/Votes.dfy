/** What a node's vote survives: one vote per term, and exactly when a node forgets it. */
module Votes {
  import opened RaftTypes
  import opened NodeModel
  import opened Cluster
  import opened ClusterProof

  /** Everything a node does: the operations of the cluster's steps, applying any next entry, repairing progress. */
  datatype NodeOp = Run(step: Step) | ApplyOne | Repair

  predicate Doable(s: NodeState, op: NodeOp) {
    && (op.Run? && op.step.ReceiveAppend? ==> s.base <= |s.log|)
    && (op.ApplyOne? ==> CanApply(s))
  }

  function Perform(s: NodeState, op: NodeOp): NodeState
    requires Doable(s, op)
  {
    match op
    case Run(step) => Operation(s, step)
    case ApplyOne => ApplyNext(s, map[]).0
    case Repair => EnsureProgress(s)
  }

  /** The operation applies the node's own removal from the cluster. */
  predicate RemovesSelf(s: NodeState, op: NodeOp) {
    op.ApplyOne? && CanApply(s) && s.log[s.applied].command == RemovePeer(s.id)
  }

  /** The term does not fall, and within it a vote once cast stays. */
  predicate BallotKept(s: NodeState, s': NodeState) {
    s'.id == s.id && s.term <= s'.term && (s'.term == s.term && s.votedFor != NONE ==> s'.votedFor == s.votedFor)
  }

  lemma AppendBallot(s: NodeState, req: AppendRequest)
    requires s.base <= |s.log|
    ensures BallotKept(s, AnswerAppend(s, req).0)
  {
  }

  lemma ReplyBallot(s: NodeState, from: NodeId, index: nat)
    ensures BallotKept(s, RecordSuccess(s, from, index)) && BallotKept(s, RecordFailure(s, from))
  {
  }

  lemma StepBallot(s: NodeState, step: Step)
    requires Doable(s, Run(step))
    ensures BallotKept(s, Operation(s, step))
  {
    match step
    case ReceiveAppend(msg) => AppendBallot(s, msg.req);
    case ReceiveReply(_, rec) => ReplyBallot(s, rec.from, rec.req.Last());
    case _ =>
  }

  lemma ApplyBallot(s: NodeState)
    requires CanApply(s)
    ensures var s' := ApplyNext(s, map[]).0;
      s'.id == s.id && s'.term == s.term && s'.votedFor == if RemovesSelf(s, ApplyOne) then NONE else s.votedFor
  {
    var command := s.log[s.applied].command;
    if command.IsMembership() {
      MembershipBallot(s, command);
    }
  }

  lemma MembershipBallot(s: NodeState, command: Command)
    requires command.IsMembership()
    ensures var s' := ApplyMembership(s, command);
      s'.id == s.id && s'.term == s.term && s'.votedFor == if command == RemovePeer(s.id) then NONE else s.votedFor
  {
  }

  lemma OpBallot(s: NodeState, op: NodeOp)
    requires Doable(s, op)
    ensures Perform(s, op).id == s.id && s.term <= Perform(s, op).term
    ensures !RemovesSelf(s, op) ==> BallotKept(s, Perform(s, op))
    ensures RemovesSelf(s, op) ==> Perform(s, op).votedFor == NONE
  {
    match op
    case Run(step) => StepBallot(s, step);
    case ApplyOne => ApplyBallot(s);
    case Repair =>
  }

  /** Of all a node does within a term, only applying its own removal changes a vote it has cast, and that clears it. */
  lemma VoteChangesExactly(s: NodeState, op: NodeOp)
    requires Doable(s, op) && s.votedFor != NONE && Perform(s, op).term == s.term
    ensures Perform(s, op).votedFor != s.votedFor <==> RemovesSelf(s, op)
  {
    OpBallot(s, op);
  }

  // ---- A node's life ----

  ghost predicate Life(states: seq<NodeState>, ops: seq<NodeOp>) {
    && |states| == |ops| + 1
    && forall i | 0 <= i < |ops| :: Doable(states[i], ops[i]) && states[i + 1] == Perform(states[i], ops[i])
  }

  lemma NextTerm(states: seq<NodeState>, ops: seq<NodeOp>, i: nat)
    requires Life(states, ops) && i < |ops|
    ensures states[i].term <= states[i + 1].term
  {
    OpBallot(states[i], ops[i]);
  }

  lemma {:induction false} TermsAlong(states: seq<NodeState>, i: nat, j: nat)
    requires i <= j < |states| && forall k | 0 <= k < |states| - 1 :: states[k].term <= states[k + 1].term
    ensures states[i].term <= states[j].term
    decreases j - i
  {
    if i < j {
      TermsAlong(states, i, j - 1);
    }
  }

  lemma TermsRise(states: seq<NodeState>, ops: seq<NodeOp>, i: nat, j: nat)
    requires Life(states, ops) && i <= j < |states|
    ensures states[i].term <= states[j].term
  {
    forall k | 0 <= k < |states| - 1 ensures states[k].term <= states[k + 1].term {
      NextTerm(states, ops, k);
    }
    TermsAlong(states, i, j);
  }

  lemma NextBallot(states: seq<NodeState>, ops: seq<NodeOp>, i: nat)
    requires Life(states, ops) && i < |ops| && !RemovesSelf(states[i], ops[i])
    ensures BallotKept(states[i], states[i + 1])
  {
    OpBallot(states[i], ops[i]);
  }

  lemma {:induction false} VoteAlong(states: seq<NodeState>, i: nat, j: nat)
    requires i <= j < |states| && forall k | i <= k < j :: BallotKept(states[k], states[k + 1])
    requires states[i].votedFor != NONE
    ensures states[i].term <= states[j].term
    ensures states[j].term == states[i].term ==> states[j].votedFor == states[i].votedFor
    decreases j - i
  {
    if i < j {
      VoteAlong(states, i, j - 1);
      assert BallotKept(states[j - 1], states[j - 1 + 1]);
    }
  }

  lemma VoteStands(states: seq<NodeState>, ops: seq<NodeOp>, i: nat, j: nat)
    requires Life(states, ops) && i <= j < |states|
    requires states[i].votedFor != NONE && states[j].term == states[i].term
    requires forall k | i <= k < j :: !RemovesSelf(states[k], ops[k])
    ensures states[j].votedFor == states[i].votedFor
  {
    forall k | i <= k < j ensures BallotKept(states[k], states[k + 1]) {
      NextBallot(states, ops, k);
    }
    VoteAlong(states, i, j);
  }

  lemma {:induction false} FirstRemoval(states: seq<NodeState>, ops: seq<NodeOp>, i: nat, k: nat) returns (first: nat)
    requires Life(states, ops) && i <= k < |ops| && RemovesSelf(states[k], ops[k])
    ensures i <= first <= k && RemovesSelf(states[first], ops[first])
    ensures forall m | i <= m < first :: !RemovesSelf(states[m], ops[m])
    decreases k - i
  {
    if RemovesSelf(states[i], ops[i]) {
      first := i;
    } else {
      first := FirstRemoval(states, ops, i + 1, k);
    }
  }

  /** Over any stretch of a term, a vote is forgotten at some point if and only if the node applies its own removal. */
  lemma VoteForgottenExactly(states: seq<NodeState>, ops: seq<NodeOp>, i: nat, j: nat)
    requires Life(states, ops) && i <= j < |states|
    requires states[i].votedFor != NONE && states[j].term == states[i].term
    ensures (exists k | i <= k <= j :: states[k].votedFor != states[i].votedFor) <==>
      (exists k | i <= k < j :: RemovesSelf(states[k], ops[k]))
  {
    if k: nat :| i <= k < j && RemovesSelf(states[k], ops[k]) {
      var first := FirstRemoval(states, ops, i, k);
      SameTerm(states, ops, i, first, j);
      SameTerm(states, ops, i, first + 1, j);
      VoteStands(states, ops, i, first);
      VoteChangesExactly(states[first], ops[first]);
      assert states[first + 1].votedFor != states[i].votedFor;
    } else {
      forall k | i <= k <= j ensures states[k].votedFor == states[i].votedFor {
        SameTerm(states, ops, i, k, j);
        VoteStands(states, ops, i, k);
      }
    }
  }

  lemma SameTerm(states: seq<NodeState>, ops: seq<NodeOp>, i: nat, k: nat, j: nat)
    requires Life(states, ops) && i <= k <= j < |states| && states[j].term == states[i].term
    ensures states[k].term == states[i].term
  {
    TermsRise(states, ops, i, k);
    TermsRise(states, ops, k, j);
  }

  /** The i-th operation of the node's life grants this request. */
  ghost predicate Grants(states: seq<NodeState>, ops: seq<NodeOp>, i: nat, req: VoteRequest)
    requires Life(states, ops) && i < |ops|
  {
    ops[i].Run? && ops[i].step.GiveVote? && ops[i].step.req == req && AnswerVote(states[i], req).1.granted
  }

  lemma GrantIsVote(states: seq<NodeState>, ops: seq<NodeOp>, i: nat, req: VoteRequest)
    requires Life(states, ops) && i < |ops| && Grants(states, ops, i, req)
    ensures states[i].term <= req.term && states[i + 1].term == req.term && states[i + 1].votedFor == req.candidate
    ensures states[i].term == req.term ==> states[i].votedFor == NONE || states[i].votedFor == req.candidate
  {
  }

  /** A node grants two candidates in one term only if it applies its own removal in between. */
  lemma SecondVoteNeedsRemoval(states: seq<NodeState>, ops: seq<NodeOp>, i: nat, j: nat,
                               first: VoteRequest, second: VoteRequest)
    requires Life(states, ops) && i < j < |ops| && Grants(states, ops, i, first) && Grants(states, ops, j, second)
    requires first.term == second.term && first.candidate != second.candidate && first.candidate != NONE
    ensures exists k | i < k < j :: RemovesSelf(states[k], ops[k])
  {
    GrantIsVote(states, ops, i, first);
    GrantIsVote(states, ops, j, second);
    TermsRise(states, ops, i + 1, j);
    if forall k | i + 1 <= k < j :: !RemovesSelf(states[k], ops[k]) {
      VoteStands(states, ops, i + 1, j);
    }
  }

  // ---- A second vote ----

  /** The node has committed, and not yet applied, its own removal and its return. */
  predicate LeavesAndReturns(s: NodeState) {
    && s.base <= s.applied && s.applied + 2 <= s.commit <= |s.log|
    && s.log[s.applied].command == RemovePeer(s.id) && s.log[s.applied + 1].command == AddPeer(s.id)
  }

  lemma ReturnsWithoutVote(s: NodeState)
    requires LeavesAndReturns(s)
    ensures CanApply(s) && CanApply(ApplyNext(s, map[]).0)
    ensures var s' := ApplyNext(ApplyNext(s, map[]).0, map[]).0;
      && s'.id == s.id && s'.peers == s.peers && s'.selfMember && s'.term == s.term && s'.log == s.log
      && s'.votedFor == NONE
  {
    var s1 := ApplyNext(s, map[]).0;
    assert s1.commit >= s.commit && s1.id == s.id && s1.votedFor == NONE && s1.peers == s.peers;
  }

  /**
    After applying its own removal and return a member grants any peer that is
    fresh enough in the same term, whoever it voted for before; without them it
    grants only the peer it voted for.
   */
  lemma RemovalForgetsVote(s: NodeState, req: VoteRequest)
    requires LeavesAndReturns(s) && s.selfMember && s.votedFor != NONE
    requires req.term == s.term && req.candidate in s.peers && req.candidate != s.id && IsFreshEnough(s, req)
    ensures AnswerVote(s, req).1.granted <==> s.votedFor == req.candidate
    ensures CanApply(s) && CanApply(ApplyNext(s, map[]).0)
    ensures AnswerVote(ApplyNext(ApplyNext(s, map[]).0, map[]).0, req).1.granted
  {
    ReturnsWithoutVote(s);
  }
}
