/**
  Building runs of a three-node cluster, for results that say that something
  can happen: one event at a time, and then an election, a proposal, a refused
  and an accepted append, and a counted reply.
 */
module Scenarios {
  import opened RaftTypes
  import opened NodeModel
  import opened Cluster
  import opened KvStore
  import opened Service

  // ---- Reaching a world ----

  ghost predicate Path(run: seq<World>, events: seq<Event>) {
    && |run| == |events| + 1
    && forall i | 0 <= i < |events| :: Possible(run[i], events[i]) && run[i + 1] == Happen(run[i], events[i])
  }

  ghost predicate Reaches(w: World, w': World) {
    exists run, events :: Path(run, events) && run[0] == w && run[|events|] == w'
  }

  ghost predicate Reachable(w: World) {
    exists start :: Initial(start) && Reaches(start, w)
  }

  /** A set of worlds that no event leaves. */
  ghost predicate Closed(R: iset<World>) {
    forall w, e | w in R && Possible(w, e) :: Happen(w, e) in R
  }

  /** A reachable world is the last of a history. */
  lemma ReachableIsHistory(w: World)
    requires Reachable(w)
    ensures exists run, events :: IsHistory(run, events) && run[|events|] == w
  {
    var start :| Initial(start) && Reaches(start, w);
    var run, events :| Path(run, events) && run[0] == start && run[|events|] == w;
    assert IsHistory(run, events);
  }

  lemma IsReachable(start: World, w: World)
    requires Initial(start) && Reaches(start, w)
    ensures Reachable(w)
  {
  }

  lemma ReachesSelf(w: World)
    ensures Reaches(w, w)
  {
    assert Path([w], []);
    assert [w][0] == w;
  }

  lemma LongerPath(run: seq<World>, events: seq<Event>, e: Event, w: World)
    requires Path(run, events) && Possible(run[|events|], e) && w == Happen(run[|events|], e)
    ensures Path(run + [w], events + [e])
  {
    var run', events' := run + [w], events + [e];
    forall i | 0 <= i < |events'| ensures Possible(run'[i], events'[i]) && run'[i + 1] == Happen(run'[i], events'[i]) {
      if i < |events| {
        assert run'[i] == run[i] && run'[i + 1] == run[i + 1] && events'[i] == events[i];
      } else {
        assert run'[i] == run[i] && run'[i + 1] == w && events'[i] == e;
      }
    }
  }

  lemma ReachesNext(start: World, w: World, e: Event)
    requires Reaches(start, w) && Possible(w, e)
    ensures Reaches(start, Happen(w, e))
  {
    var run, events :| Path(run, events) && run[0] == start && run[|events|] == w;
    var w' := Happen(w, e);
    LongerPath(run, events, e, w');
    assert (run + [w'])[0] == start && (run + [w'])[|events + [e]|] == w';
  }

  lemma ReachesIsClosed(start: World)
    ensures Closed(iset w | Reaches(start, w))
  {
    forall w, e | Reaches(start, w) && Possible(w, e) ensures Reaches(start, Happen(w, e)) {
      ReachesNext(start, w, e);
    }
  }

  // ---- One event at a time ----

  ghost predicate In(R: iset<World>, w: World) {
    Closed(R) && w in R && w.kv.Keys == w.c.nodes.Keys && w.ahead.Keys == w.c.nodes.Keys
  }

  lemma Asks(R: iset<World>, w: World, p: NodeId, pre: bool) returns (w': World)
    requires In(R, w) && p in w.c.nodes && (pre ==> !w.c.nodes[p].role.Leader?)
    ensures In(R, w') && w' == w.(c := if pre then DoAskPreVote(w.c, p) else DoAskVotes(w.c, p))
  {
    w' := Happen(w, ClusterStep(if pre then AskPreVote(p) else AskVotes(p)));
  }

  lemma GivesPreVote(R: iset<World>, w: World, p: NodeId, req: VoteRequest) returns (w': World)
    requires In(R, w) && p in w.c.nodes && req in w.c.net.preVoteReqs
    ensures In(R, w') && w' == w.(c := DoGivePreVote(w.c, p, req))
  {
    w' := Happen(w, ClusterStep(GivePreVote(p, req)));
  }

  lemma WinsPreVote(R: iset<World>, w: World, p: NodeId, req: VoteRequest, q: NodeId) returns (w': World)
    requires In(R, w) && p in w.c.nodes && WinsVotes(w.c.nodes[p], w.c.net.preVoteReps, req, {q})
    ensures In(R, w') && w' == w.(c := DoWinPreVote(w.c, p))
  {
    w' := Happen(w, ClusterStep(WinPreVote(p, req, {q})));
  }

  lemma Stands(R: iset<World>, w: World, p: NodeId) returns (w': World)
    requires In(R, w) && p in w.c.nodes && p in w.c.h.tokens
    ensures In(R, w') && w' == w.(c := DoStandForElection(w.c, p))
  {
    w' := Happen(w, ClusterStep(StandForElection(p)));
  }

  lemma GivesVote(R: iset<World>, w: World, p: NodeId, req: VoteRequest) returns (w': World)
    requires In(R, w) && p in w.c.nodes && req in w.c.net.voteReqs
    ensures In(R, w') && w' == w.(c := DoGiveVote(w.c, p, req))
  {
    w' := Happen(w, ClusterStep(GiveVote(p, req)));
  }

  lemma WinsElection(R: iset<World>, w: World, p: NodeId, req: VoteRequest, q: NodeId) returns (w': World)
    requires In(R, w) && p in w.c.nodes && req in w.c.net.voteReqs
    requires WinsVotes(w.c.nodes[p], w.c.net.voteReps, req, {q})
    ensures In(R, w') && w' == w.(c := DoWinElection(w.c, p, req.term))
  {
    w' := Happen(w, ClusterStep(WinElection(p, req, {q})));
  }

  lemma LosesTerm(R: iset<World>, w: World, p: NodeId, heard: Heard) returns (w': World)
    requires In(R, w) && p in w.c.nodes && heard.SentTo(w.c.net, p)
    ensures In(R, w') && w' == w.(c := DoLoseTerm(w.c, p, heard.Term()))
  {
    w' := Happen(w, ClusterStep(LoseTerm(p, heard)));
  }

  lemma Sends(R: iset<World>, w: World, p: NodeId, q: NodeId) returns (w': World)
    requires In(R, w) && p in w.c.nodes && KnowsPeer(w.c.nodes[p], q)
    ensures In(R, w') && w' == w.(c := DoSendAppend(w.c, p, q))
  {
    w' := Happen(w, ClusterStep(SendAppend(p, q)));
  }

  lemma Receives(R: iset<World>, w: World, msg: AppendMsg) returns (w': World)
    requires In(R, w) && msg in w.c.net.appends && msg.to in w.c.nodes && msg.req.WellFormed()
    requires w.c.nodes[msg.to].base <= |w.c.nodes[msg.to].log|
    ensures In(R, w') && w' == w.(c := DoReceiveAppend(w.c, msg))
  {
    w' := Happen(w, ClusterStep(ReceiveAppend(msg)));
  }

  lemma HearsReply(R: iset<World>, w: World, p: NodeId, rec: AppendRecord) returns (w': World)
    requires In(R, w) && p in w.c.nodes && rec in w.c.net.appendReps && rec.req.leader == p
    requires rec.reply.term <= w.c.nodes[p].term && w.c.nodes[p].term == rec.req.term
    ensures In(R, w') && w' == w.(c := DoReceiveReply(w.c, p, rec))
  {
    w' := Happen(w, ClusterStep(ReceiveReply(p, rec)));
  }

  lemma Begins(R: iset<World>, w: World, op: nat, p: NodeId) returns (w': World)
    requires In(R, w) && op !in w.ops && p in w.c.nodes
    ensures In(R, w') && w' == w.(ops := w.ops[op := Begun(p, |w.c.h.clog|)])
  {
    w' := Happen(w, BeginOp(op, p));
  }

  lemma ProposesOp(R: iset<World>, w: World, op: nat, command: Command) returns (w': World)
    requires In(R, w) && op in w.ops && w.ops[op].Begun? && w.ops[op].node in w.c.nodes
    requires w.c.nodes[w.ops[op].node].role.Leader? && !command.IsMembership()
    ensures In(R, w')
    ensures var s := w.c.nodes[w.ops[op].node];
      && w'.c == DoPropose(w.c, w.ops[op].node, command) && w'.kv == w.kv
      && w'.ops == w.ops[op := Proposed(w.ops[op].node, w.ops[op].start, s.term, |s.log| + 1, command)]
  {
    w' := Happen(w, ProposeOp(op, command));
  }

  lemma Answers(R: iset<World>, w: World, op: nat) returns (w': World)
    requires In(R, w) && op in w.ops && w.ops[op].Proposed? && w.ops[op].node in w.c.nodes
    requires w.c.nodes[w.ops[op].node].commit >= w.ops[op].index
    ensures In(R, w') && w' == Answered(w, op, None)
  {
    w' := Happen(w, AnswerWrite(op));
  }

  lemma AnswersRead(R: iset<World>, w: World, op: nat, key: string) returns (w': World)
    requires In(R, w) && op in w.ops && w.ops[op].Proposed? && w.ops[op].node in w.c.nodes && w.ops[op].command.Noop?
    requires w.c.nodes[w.ops[op].node].commit >= w.ops[op].index
    requires w.c.nodes[w.ops[op].node].applied >= w.ops[op].index
    ensures In(R, w')
    ensures var p := w.ops[op].node;
      w' == Answered(w, op, Some(ReadResult(key, Get(w.kv[p], key), w.c.nodes[p].applied)))
  {
    w' := Happen(w, AnswerRead(op, key));
  }

  lemma ProposesPlain(R: iset<World>, w: World, p: NodeId, command: Command) returns (w': World)
    requires In(R, w) && p in w.c.nodes && w.c.nodes[p].role.Leader? && !command.IsMembership()
    ensures In(R, w') && w' == w.(c := DoPropose(w.c, p, command))
  {
    w' := Happen(w, ClusterStep(Propose(p, command)));
  }

  lemma AppliesNext(R: iset<World>, w: World, p: NodeId) returns (w': World)
    requires In(R, w) && p in w.c.nodes && CanApply(w.c.nodes[p])
    ensures In(R, w') && w'.c == Local(w.c, p, MarkApplied(w.c.nodes[p])) && w'.ops == w.ops
    ensures w'.kv == w.kv[p := ApplyCommand(w.kv[p], w.c.nodes[p].log[w.c.nodes[p].applied].command)]
  {
    w' := Happen(w, ClusterStep(Apply(p)));
  }

  lemma Snapshots(R: iset<World>, w: World, p: NodeId) returns (w': World)
    requires In(R, w) && p in w.c.nodes
    ensures In(R, w') && w' == w.(c := Local(w.c, p, Compact(w.c.nodes[p], w.kv[p])))
  {
    w' := Happen(w, ClusterStep(TakeSnapshot(p, w.kv[p])));
  }
}
