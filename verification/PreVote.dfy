/** Pre-votes bound how fast terms grow. */
module PreVote {
  import opened RaftTypes
  import opened Cluster
  import opened CommitSteps
  import opened ClusterProof
  import opened Safety

  /** No term above `bound` is anywhere a node could adopt it from. */
  ghost predicate TermsWithin(c: State, bound: nat) {
    && (forall p | p in c.nodes :: c.nodes[p].term <= bound)
    && (forall r | r in c.net.preVoteReps :: r.reply.term <= bound)
    && (forall r | r in c.net.voteReqs :: r.term <= bound)
    && (forall r | r in c.net.voteReps :: r.reply.term <= bound)
    && (forall m | m in c.net.appends :: m.req.term <= bound)
    && (forall r | r in c.net.appendReps :: r.reply.term <= bound)
  }

  lemma OperationTerm(c: State, step: Step, bound: nat)
    requires Enabled(c, step) && TermsWithin(c, bound)
    ensures Operation(c.nodes[step.Actor()], step).term <= bound + if step.StandForElection? then 1 else 0
  {
  }

  lemma StepTermsNet(c: State, step: Step, bound: nat)
    requires Enabled(c, step) && TermsWithin(c, bound)
    ensures var net := Exec(c, step).net;
      && (forall r | r in net.preVoteReps :: r.reply.term <= bound)
      && (forall r | r in net.voteReqs :: r.term <= bound)
      && (forall r | r in net.voteReps :: r.reply.term <= bound)
      && (forall m | m in net.appends :: m.req.term <= bound)
      && (forall r | r in net.appendReps :: r.reply.term <= bound)
  {
    OperationTerm(c, step, bound);
  }

  /** Only a candidacy, which spends a won pre-vote, creates a new term; and then one. */
  lemma StepTerms(c: State, step: Step, bound: nat)
    requires Enabled(c, step) && TermsWithin(c, bound)
    ensures TermsWithin(Exec(c, step), bound + if step.StandForElection? then 1 else 0)
    ensures Exec(c, step).h.spent == c.h.spent + if step.StandForElection? then 1 else 0
  {
    OperationTerm(c, step, bound);
    StepTermsNet(c, step, bound);
    StepIsOperation(c, step);
    StepSpends(c, step);
  }

  lemma StepSpends(c: State, step: Step)
    requires Enabled(c, step)
    ensures Exec(c, step).h.spent == c.h.spent + if step.StandForElection? then 1 else 0
  {
  }

  lemma StepTokens(c: State, step: Step)
    requires Enabled(c, step)
    ensures var h, h' := c.h, Exec(c, step).h;
      h'.spent + |h'.tokens| - h'.wins <= h.spent + |h.tokens| - h.wins
  {
  }

  /**
    From any moment i of a run to any later j, the highest term rises by at
    most the number of pre-votes won in between, plus those won before and not
    yet followed up.
   */
  lemma {:induction false} TermGrowth(run: seq<State>, steps: seq<Step>, i: nat, j: nat, bound: nat)
    requires IsRun(run, steps) && i <= j < |run| && TermsWithin(run[i], bound)
    ensures run[i].h.spent <= run[j].h.spent
    ensures TermsWithin(run[j], bound + run[j].h.spent - run[i].h.spent)
    ensures run[j].h.spent - run[i].h.spent <= run[j].h.wins - run[i].h.wins + |run[i].h.tokens| - |run[j].h.tokens|
    decreases j - i
  {
    if i < j {
      TermGrowth(run, steps, i, j - 1, bound);
      StepTerms(run[j - 1], steps[j - 1], bound + run[j - 1].h.spent - run[i].h.spent);
      StepTokens(run[j - 1], steps[j - 1]);
    }
  }

  /** No term ever exceeds the number of pre-votes won. */
  lemma TermsNeedPreVotes(run: seq<State>, steps: seq<Step>, j: nat, p: NodeId)
    requires IsRun(run, steps) && j < |run| && p in run[j].nodes
    ensures run[j].nodes[p].term <= run[j].h.wins
  {
    assert TermsWithin(run[0], 0);
    TermGrowth(run, steps, 0, j, 0);
  }

  // ---- A node that hears from no one ----

  /** The step hands node p a message. */
  predicate Reaches(step: Step, p: NodeId) {
    match step
    case GivePreVote(q, _) => q == p
    case GiveVote(q, _) => q == p
    case LoseTerm(q, _) => q == p
    case ReceiveAppend(msg) => msg.to == p
    case ReceiveReply(q, _) => q == p
    case WinPreVote(q, _, granters) => q == p && granters != {}
    case WinElection(q, _, granters) => q == p && granters != {}
    case _ => false
  }

  lemma UnheardStep(c: State, step: Step, p: NodeId)
    requires Enabled(c, step) && p in c.nodes && !Reaches(step, p)
    requires Configured(c.nodes, p) && |c.nodes| > 1
    ensures p in Exec(c, step).nodes
    ensures var c' := Exec(c, step);
      c'.nodes[p].term + c'.h.tokens[p] <= c.nodes[p].term + c.h.tokens[p]
  {
    StepIsOperation(c, step);
    PeersAndSelf(c.nodes, p);
  }

  lemma {:induction false} UnheardTerm(run: seq<State>, steps: seq<Step>, i: nat, j: nat, p: NodeId)
    requires IsRun(run, steps) && i <= j < |run| && p in run[i].nodes && |run[i].nodes| > 1
    requires forall k | i <= k < j :: !Reaches(steps[k], p)
    ensures p in run[j].nodes && |run[j].nodes| > 1
    ensures run[j].nodes[p].term + run[j].h.tokens[p] <= run[i].nodes[p].term + run[i].h.tokens[p]
    decreases j - i
  {
    if i < j {
      UnheardTerm(run, steps, i, j - 1, p);
      RunConfigured(run, steps, j - 1, p);
      UnheardStep(run[j - 1], steps[j - 1], p);
      StepIsOperation(run[j - 1], steps[j - 1]);
      assert run[j].nodes.Keys == run[j - 1].nodes.Keys;
    }
  }

  lemma RunConfigured(run: seq<State>, steps: seq<Step>, i: nat, p: NodeId)
    requires IsRun(run, steps) && i < |run| && p in run[i].nodes
    ensures Configured(run[i].nodes, p)
  {
    RunInv(run, steps, i);
  }

  /**
    In a cluster of more than one, a node that holds no won pre-vote and hears
    from no one keeps its term, however often its election timer fires.
   */
  lemma IsolatedNodeKeepsTerm(run: seq<State>, steps: seq<Step>, i: nat, j: nat, p: NodeId)
    requires IsRun(run, steps) && i <= j < |run| && p in run[i].nodes && |run[i].nodes| > 1
    requires run[i].h.tokens[p] == 0
    requires forall k | i <= k < j :: !Reaches(steps[k], p)
    ensures p in run[j].nodes && run[j].nodes[p].term == run[i].nodes[p].term
  {
    UnheardTerm(run, steps, i, j, p);
    RunEvolves(run, steps, i, j);
  }
}
