/**
  Recording a success (raft/node.go, raft/heartbeat.go) does not look at the
  term of the request. This module builds a run in which a success of an earlier
  term, counted by a leader of a later one, commits an entry that no other node
  holds.
 */
module DelayedReply {
  import opened RaftTypes
  import opened LogOps
  import opened NodeModel
  import opened Cluster
  import opened Service
  import opened Scenarios
  import opened ThreeNodes

  const OLD: Log := [LogEntry(1, 1, Noop), LogEntry(1, 2, Noop)]
  const OTHER: Log := [LogEntry(2, 1, Noop)]

  lemma SecondEntry(R: iset<World>, w: World, p: NodeId, q: NodeId, r: NodeId) returns (w': World)
    requires In(R, w) && Cast(w, p, q, r, Head(1, [LogEntry(1, 1, Noop)]), At(1, []), BLANK)
    requires Rules(w.c.nodes[p], q, r, 1, 0, 1, 0)
    ensures In(R, w') && Cast(w', r, q, p, BLANK, At(1, []), Head(1, OLD))
    ensures Rules(w'.c.nodes[p], q, r, 1, 0, 1, 0)
  {
    var vp := Head(1, [LogEntry(1, 1, Noop)]);
    w' := Proposes(R, w, p, q, r, vp, At(1, []), BLANK, Noop);
    assert Appended(vp, Noop) == Head(1, OLD);
    Turn(w', p, q, r, Head(1, OLD), At(1, []), BLANK);
  }

  /** A node leads term 1 and appends twice, unheard. */
  lemma FirstTerm(R: iset<World>, w: World, p: NodeId, q: NodeId, r: NodeId) returns (w': World)
    requires In(R, w) && Cast(w, p, q, r, BLANK, BLANK, BLANK)
    ensures In(R, w') && Cast(w', r, q, p, BLANK, At(1, []), Head(1, OLD))
    ensures Rules(w'.c.nodes[p], q, r, 1, 0, 1, 0)
  {
    var w1, t := LeadsAndProposes(R, w, p, q, r, BLANK, BLANK, BLANK, Noop);
    assert Appended(Head(1, []), Noop) == Head(1, [LogEntry(1, 1, Noop)]);
    w' := SecondEntry(R, w1, p, q, r);
  }

  /** Another leads term 2 and appends once, unheard. */
  lemma SecondTerm(R: iset<World>, w: World, p: NodeId, q: NodeId, r: NodeId) returns (w': World)
    requires In(R, w) && Cast(w, r, q, p, BLANK, At(1, []), Head(1, OLD))
    ensures In(R, w') && Cast(w', p, q, r, Head(1, OLD), At(2, []), Head(2, OTHER))
    ensures w'.c.nodes[p] == w.c.nodes[p] && Rules(w'.c.nodes[r], q, p, 1, 0, 1, 0)
  {
    var w1, t := LeadsAndProposes(R, w, r, q, p, BLANK, At(1, []), Head(1, OLD), Noop);
    assert Appended(Head(2, []), Noop) == Head(2, OTHER);
    Turn(w1, r, q, p, Head(2, OTHER), At(2, []), Head(1, OLD));
    w' := w1;
  }

  /** The first hears of term 2 and leads term 3. */
  lemma ThirdTerm(R: iset<World>, w: World, p: NodeId, q: NodeId, r: NodeId) returns (w': World)
    requires In(R, w) && Cast(w, p, q, r, Head(1, OLD), At(2, []), Head(2, OTHER))
    requires Rules(w.c.nodes[p], q, r, 1, 0, 1, 0)
    ensures In(R, w') && Silent(w, w', r) && Cast(w', p, q, r, Head(3, OLD), At(3, []), Head(2, OTHER))
    ensures Rules(w'.c.nodes[p], q, r, 3, 0, 3, 0)
  {
    var w1 := Overtaken(R, w, p, q, r, Head(1, OLD), At(2, []), Head(2, OTHER), 0);
    var w2, t := Leads(R, w1, p, q, r, At(2, OLD), At(2, []), Head(2, OTHER));
    w' := w2;
  }

  /** It is refused twice. */
  lemma ThirdTermRefused(R: iset<World>, w: World, p: NodeId, q: NodeId, r: NodeId) returns (w': World)
    requires In(R, w) && Cast(w, p, q, r, Head(3, OLD), At(3, []), Head(2, OTHER))
    requires Rules(w.c.nodes[p], q, r, 3, 0, 3, 0)
    ensures In(R, w') && Silent(w, w', r) && Cast(w', p, q, r, Head(3, OLD), At(3, []), Head(2, OTHER))
    ensures Rules(w'.c.nodes[p], q, r, 1, 0, 3, 0)
  {
    var w1 := Refuses(R, w, p, q, r, Head(3, OLD), At(3, []), Head(2, OTHER), 3, 0, 3, 0);
    w' := Refuses(R, w1, p, q, r, Head(3, OLD), At(3, []), Head(2, OTHER), 2, 0, 3, 0);
  }

  /** Its third request is accepted; the reply is delayed. */
  lemma ThirdTermStored(R: iset<World>, w: World, p: NodeId, q: NodeId, r: NodeId)
    returns (w': World, req: AppendRequest)
    requires In(R, w) && Cast(w, p, q, r, Head(3, OLD), At(3, []), Head(2, OTHER))
    requires Rules(w.c.nodes[p], q, r, 1, 0, 3, 0)
    ensures In(R, w') && Silent(w, w', r) && Cast(w', r, q, p, Head(2, OTHER), At(3, OLD), Head(3, OLD))
    ensures req.leader == p && req.term == 3 && req.Last() == 2
    ensures AppendRecord(q, req, AppendReply(3, true)) in w'.c.net.appendReps
  {
    var w1, req1 := Stores(R, w, p, q, r, Head(3, OLD), At(3, []), Head(2, OTHER), 1);
    Turn(w1, p, q, r, Head(3, OLD), At(3, OLD), Head(2, OTHER));
    w', req := w1, req1;
  }

  /** The other hears of term 3 and leads term 4. */
  lemma FourthTerm(R: iset<World>, w: World, p: NodeId, q: NodeId, r: NodeId) returns (w': World)
    requires In(R, w) && Cast(w, r, q, p, Head(2, OTHER), At(3, OLD), Head(3, OLD))
    requires Rules(w.c.nodes[r], q, p, 1, 0, 1, 0)
    ensures In(R, w') && Remembers(w, w') && Cast(w', r, p, q, Head(4, OTHER), Head(3, OLD), At(4, OLD))
    ensures Rules(w'.c.nodes[r], p, q, 2, 0, 2, 0)
  {
    var w1 := Overtaken(R, w, r, q, p, Head(2, OTHER), At(3, OLD), Head(3, OLD), 0);
    var w2, t := Leads(R, w1, r, q, p, At(3, OTHER), At(3, OLD), Head(3, OLD));
    Exchanged(w2, p, q, r);
    w' := w2;
  }

  lemma Exchanged(w: World, p: NodeId, q: NodeId, r: NodeId)
    requires Cast(w, r, q, p, Head(4, OTHER), At(4, OLD), Head(3, OLD)) && Rules(w.c.nodes[r], q, p, 2, 0, 2, 0)
    ensures Cast(w, r, p, q, Head(4, OTHER), Head(3, OLD), At(4, OLD)) && Rules(w.c.nodes[r], p, q, 2, 0, 2, 0)
  {
    Turn(w, r, q, p, Head(4, OTHER), At(4, OLD), Head(3, OLD));
    RulesTurned(w.c.nodes[r], q, p, 2, 0, 2, 0);
  }

  /** Its log replaces the first node's. */
  lemma FourthTermStored(R: iset<World>, w: World, p: NodeId, q: NodeId, r: NodeId) returns (w': World)
    requires In(R, w) && Cast(w, r, p, q, Head(4, OTHER), Head(3, OLD), At(4, OLD))
    requires Rules(w.c.nodes[r], p, q, 2, 0, 2, 0)
    ensures In(R, w') && Remembers(w, w') && Cast(w', r, p, q, Head(4, OTHER), At(4, OTHER), At(4, OLD))
  {
    var w1 := Refuses(R, w, r, p, q, Head(4, OTHER), Head(3, OLD), At(4, OLD), 2, 0, 2, 0);
    var w2, req := Stores(R, w1, r, p, q, Head(4, OTHER), At(4, OLD), At(4, OLD), 1);
    w' := w2;
  }

  /** The first leads term 5 and appends in place of what it lost. */
  lemma FifthTerm(R: iset<World>, w: World, p: NodeId, q: NodeId, r: NodeId, command: Command) returns (w': World)
    requires In(R, w) && Cast(w, r, p, q, Head(4, OTHER), At(4, OTHER), At(4, OLD)) && !command.IsMembership()
    ensures In(R, w') && Remembers(w, w')
    ensures Cast(w', p, q, r, Head(5, OTHER + [LogEntry(5, 2, command)]), At(5, OLD), Head(4, OTHER))
    ensures Rules(w'.c.nodes[p], q, r, 2, 0, 2, 0)
  {
    Turn(w, r, p, q, Head(4, OTHER), At(4, OTHER), At(4, OLD));
    Turn(w, r, q, p, Head(4, OTHER), At(4, OLD), At(4, OTHER));
    var w1, t := LeadsAndProposes(R, w, p, q, r, At(4, OTHER), At(4, OLD), Head(4, OTHER), command);
    assert Appended(Head(5, OTHER), command) == Head(5, OTHER + [LogEntry(5, 2, command)]);
    w' := w1;
  }

  /**
    A leader that counts this success, sent to it in an earlier term, commits
    an entry of its own term that no other node holds.
   */
  ghost predicate Miscounts(w: World, p: NodeId, rec: AppendRecord) {
    && p in w.c.nodes && w.c.nodes[p].role.Leader? && rec in w.c.net.appendReps
    && rec.req.leader == p && rec.reply.success && rec.reply.term <= rec.req.term < w.c.nodes[p].term
    && var s, s' := w.c.nodes[p], DoReceiveReply(w.c, p, rec).nodes[p];
      && s.commit < s'.commit <= |s.log| && TermIn(s.log, s'.commit) == s.term
      && forall q | q in w.c.nodes && q != p :: TermIn(w.c.nodes[q].log, s'.commit) != s.term
  }

  lemma Counted(w: World, p: NodeId, q: NodeId, r: NodeId, command: Command, req: AppendRequest)
    requires Cast(w, p, q, r, Head(5, OTHER + [LogEntry(5, 2, command)]), At(5, OLD), Head(4, OTHER))
    requires Rules(w.c.nodes[p], q, r, 2, 0, 2, 0)
    requires req.leader == p && req.term == 3 && req.Last() == 2
    requires AppendRecord(q, req, AppendReply(3, true)) in w.c.net.appendReps
    ensures Miscounts(w, p, AppendRecord(q, req, AppendReply(3, true)))
  {
    Records(w.c.nodes[p], q, r, 2, 0, 2, 0, 2);
    var s := RecordMatch(w.c.nodes[p], q, 2);
    AllCommits(s, q, r);
    CountedNodes(w.c, p, AppendRecord(q, req, AppendReply(3, true)), AdvanceCommit(s));
  }

  lemma FirstHalf(R: iset<World>, w: World, p: NodeId, q: NodeId, r: NodeId) returns (w': World, req: AppendRequest)
    requires In(R, w) && Cast(w, p, q, r, BLANK, BLANK, BLANK)
    ensures In(R, w') && Cast(w', r, q, p, Head(2, OTHER), At(3, OLD), Head(3, OLD))
    ensures Rules(w'.c.nodes[r], q, p, 1, 0, 1, 0) && req.leader == p && req.term == 3 && req.Last() == 2
    ensures AppendRecord(q, req, AppendReply(3, true)) in w'.c.net.appendReps
  {
    var w1 := FirstTerm(R, w, p, q, r);
    var w2 := SecondTerm(R, w1, p, q, r);
    var w3 := ThirdTerm(R, w2, p, q, r);
    var w4 := ThirdTermRefused(R, w3, p, q, r);
    w', req := ThirdTermStored(R, w4, p, q, r);
  }

  lemma SecondHalf(R: iset<World>, w: World, p: NodeId, q: NodeId, r: NodeId, command: Command) returns (w': World)
    requires In(R, w) && Cast(w, r, q, p, Head(2, OTHER), At(3, OLD), Head(3, OLD)) && !command.IsMembership()
    requires Rules(w.c.nodes[r], q, p, 1, 0, 1, 0)
    ensures In(R, w') && Remembers(w, w')
    ensures Cast(w', p, q, r, Head(5, OTHER + [LogEntry(5, 2, command)]), At(5, OLD), Head(4, OTHER))
    ensures Rules(w'.c.nodes[p], q, r, 2, 0, 2, 0)
  {
    var w1 := FourthTerm(R, w, p, q, r);
    var w2 := FourthTermStored(R, w1, p, q, r);
    w' := FifthTerm(R, w2, p, q, r, command);
  }

  /** Among any three nodes, and for any command, there is a run that ends in such a success. */
  lemma EarlierSuccessIsMiscounted(p: NodeId, q: NodeId, r: NodeId, command: Command)
    requires ThreeIds(p, q, r) && !command.IsMembership()
    ensures exists w, rec :: Reachable(w) && Miscounts(w, p, rec)
  {
    var R, start := Begin(p, q, r);
    var w1, req := FirstHalf(R, start, p, q, r);
    var w2 := SecondHalf(R, w1, p, q, r, command);
    Counted(w2, p, q, r, command, req);
    IsReachable(start, w2);
  }
}
