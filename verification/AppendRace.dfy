/**
  A proposal looks at the role under one lock and appends under another
  (raft/proposal.go), and appending does not look at the role (raft/node.go).
  This module builds a run in which a node that passed the check appends after
  another has come to lead.
 */
module AppendRace {
  import opened RaftTypes
  import opened LogOps
  import opened NodeModel
  import opened Service
  import opened Scenarios
  import opened ThreeNodes

  // ---- A late append ----

  /** Another node is elected with the same vote, and appends. */
  lemma OtherLeads(R: iset<World>, w: World, p: NodeId, q: NodeId, r: NodeId, command: Command) returns (w': World)
    requires In(R, w) && Cast(w, r, q, p, BLANK, At(1, []), Head(1, [])) && !command.IsMembership()
    ensures In(R, w') && Cast(w', p, q, r, Head(1, []), At(2, []), Head(2, [LogEntry(2, 1, command)]))
    ensures w'.c.nodes[p] == w.c.nodes[p]
  {
    var w1, t := LeadsAndProposes(R, w, r, q, p, BLANK, At(1, []), Head(1, []), command);
    assert Appended(Head(2, []), command) == Head(2, [LogEntry(2, 1, command)]);
    Turn(w1, r, q, p, Appended(Head(2, []), command), At(2, []), Head(1, []));
    w' := w1;
  }

  /** The first hears of the later term in the answer to a request of its own. */
  lemma StepsDown(R: iset<World>, w: World, p: NodeId, q: NodeId, r: NodeId, log: Log) returns (w': World)
    requires In(R, w) && Cast(w, p, q, r, Head(1, []), At(2, []), Head(2, log))
    requires Rules(w.c.nodes[p], q, r, 1, 0, 1, 0)
    ensures In(R, w') && Three(w', p, q, r) && w'.c.nodes[p].role.Follower? && w'.c.nodes[p].term == 2
    ensures w'.c.nodes[p].log == [] && w'.c.nodes[r].log == log
  {
    w' := Overtaken(R, w, p, q, r, Head(1, []), At(2, []), Head(2, log), 0);
  }

  /** Two logs that hold different commands of one term at one index do not match. */
  lemma Clash(s: NodeState, log: Log, command: Command, other: Command)
    requires s.log == [] && s.term == 2 && log == [LogEntry(2, 1, other)] && command != other && !command.IsMembership()
    ensures !LogMatching(AppendLocal(s, command).log, log)
  {
    var a := AppendLocal(s, command).log;
    assert a == [LogEntry(2, 1, command)];
    assert a[..1] == a && log[..1] == log && a[0] != log[0];
  }

  lemma FirstLeads(p: NodeId, q: NodeId, r: NodeId) returns (w: World)
    requires ThreeIds(p, q, r)
    ensures Reachable(w) && w.kv.Keys == w.c.nodes.Keys && w.ahead.Keys == w.c.nodes.Keys
    ensures p in w.c.nodes && w.c.nodes[p].term == 1 && Rules(w.c.nodes[p], q, r, 1, 0, 1, 0)
    ensures Cast(w, r, q, p, BLANK, At(1, []), Head(1, []))
  {
    var R, start := Begin(p, q, r);
    w := LeadsFirst(R, start, p, q, r);
    IsReachable(start, w);
  }

  lemma ThenFollows(w: World, p: NodeId, q: NodeId, r: NodeId, other: Command) returns (w': World)
    requires w.kv.Keys == w.c.nodes.Keys && w.ahead.Keys == w.c.nodes.Keys && !other.IsMembership()
    requires Cast(w, r, q, p, BLANK, At(1, []), Head(1, [])) && Rules(w.c.nodes[p], q, r, 1, 0, 1, 0)
    ensures Reaches(w, w') && p in w'.c.nodes && r in w'.c.nodes
    ensures w'.c.nodes[p].role.Follower? && w'.c.nodes[p].term == 2 && w'.c.nodes[p].log == []
    ensures w'.c.nodes[r].log == [LogEntry(2, 1, other)]
  {
    var R := iset x | Reaches(w, x);
    ReachesIsClosed(w);
    ReachesSelf(w);
    var w1 := OtherLeads(R, w, p, q, r, other);
    w' := StepsDown(R, w1, p, q, r, [LogEntry(2, 1, other)]);
  }

  /**
    The node leads in the first world; in the second, reached from it, it
    follows in a later term, and appending then breaks matching.
   */
  ghost predicate LateAppend(w: World, w': World, p: NodeId, q: NodeId, command: Command) {
    && Reachable(w) && Reaches(w, w') && p in w.c.nodes && p in w'.c.nodes && q in w'.c.nodes
    && w.c.nodes[p].role.Leader? && w'.c.nodes[p].role.Follower? && w.c.nodes[p].term < w'.c.nodes[p].term
    && !LogMatching(AppendLocal(w'.c.nodes[p], command).log, w'.c.nodes[q].log)
  }

  /**
    Among any three nodes there is a run in which one passes the leader check,
    enters a later term as a follower and, appending then, no longer matches
    the log of that term's leader.
   */
  lemma LateAppendBreaksMatching(p: NodeId, q: NodeId, r: NodeId, command: Command, other: Command)
    requires ThreeIds(p, q, r) && command != other && !command.IsMembership() && !other.IsMembership()
    ensures exists w, w' :: LateAppend(w, w', p, r, command)
  {
    var w := FirstLeads(p, q, r);
    var w' := ThenFollows(w, p, q, r, other);
    Clash(w'.c.nodes[p], w'.c.nodes[r].log, command, other);
    assert LateAppend(w, w', p, r, command);
  }
}
