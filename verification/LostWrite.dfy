/**
  A write is answered once the commit index of its node reaches the index of
  the proposed entry (raft/proposal.go, client/http.go). This module builds a
  run of a three-node cluster in which a write is answered whose entry has
  been overwritten, so the condition `confirmed` of the linearizability
  theorem is not met by every answered operation.
 */
module LostWrite {
  import opened RaftTypes
  import opened KvStore
  import opened Service
  import opened Scenarios
  import opened ThreeNodes

  /** A write that was answered, although another entry is committed at its index and none holds the write. */
  ghost predicate AnsweredAndLost(w: World, op: nat, key: string, value: string) {
    && op in w.ops && w.ops[op].Done? && w.ops[op].command == Put(key, value) && !w.ops[op].confirmed
    && Get(Fold(w.c.h.clog), key) == None
  }

  lemma OnlyNoop(x: LogEntry)
    requires x.command.Noop?
    ensures Fold([x]) == map[]
  {
    FoldStep([x], 0);
    assert [x][..1] == [x];
  }

  /** The entry of the later leader reaches one other node and is committed. */
  lemma Commits(R: iset<World>, w: World, c: NodeId, b: NodeId, a: NodeId, x: LogEntry, va: View) returns (w': World)
    requires In(R, w) && x.term == 2 && x.index == 1 && w.c.h.clog == []
    requires Cast(w, c, b, a, Head(2, [x]), At(2, []), va) && Rules(w.c.nodes[c], b, a, 1, 0, 1, 0)
    ensures In(R, w') && w'.ops == w.ops && w'.c.h.clog == [x]
    ensures Cast(w', c, a, b, View(2, [x], 0, 1, 0, true), va, At(2, [x])) && Rules(w'.c.nodes[c], a, b, 1, 0, 2, 1)
  {
    var w1, req := Stores(R, w, c, b, a, Head(2, [x]), At(2, []), va, 1);
    w' := HearsAndTurns(R, w1, c, b, a, Head(2, [x]), At(2, [x]), va, 1, 0, 1, 0, req);
  }

  /** It then reaches the third node and replaces what that node held. */
  lemma Prevails(R: iset<World>, w: World, c: NodeId, b: NodeId, a: NodeId, x: LogEntry, y: LogEntry) returns (w': World)
    requires In(R, w) && x.term == 2 && x.index == 1 && y.term == 1 && w.c.h.clog == []
    requires Cast(w, c, b, a, Head(2, [x]), At(2, []), Head(1, [y])) && Rules(w.c.nodes[c], b, a, 1, 0, 1, 0)
    ensures In(R, w') && w'.ops == w.ops && w'.c.h.clog == [x]
    ensures a in w'.c.nodes && w'.c.nodes[a].log == [x] && w'.c.nodes[a].commit == 1
  {
    var w1 := Commits(R, w, c, b, a, x, Head(1, [y]));
    var w2, req := Stores(R, w1, c, a, b, View(2, [x], 0, 1, 0, true), Head(1, [y]), At(2, [x]), 1);
    w' := w2;
  }

  /** One node leads and takes a write. */
  lemma TakesWrite(R: iset<World>, w: World, a: NodeId, b: NodeId, c: NodeId, write: Command) returns (w': World)
    requires In(R, w) && Cast(w, a, b, c, BLANK, BLANK, BLANK) && w.ops == map[] && w.c.h.clog == []
    requires !write.IsMembership()
    ensures In(R, w') && w'.c.h.clog == [] && w'.ops == map[0 := Proposed(a, 0, 1, 1, write)]
    ensures Cast(w', c, b, a, BLANK, At(1, []), Head(1, [LogEntry(1, 1, write)]))
  {
    var w1, t1 := LeadsAndTakesOp(R, w, a, b, c, BLANK, BLANK, BLANK, 0, write);
    assert Appended(Head(1, []), write) == Head(1, [LogEntry(1, 1, write)]);
    Turn(w1, a, b, c, Appended(Head(1, []), write), At(1, []), BLANK);
    w' := w1;
  }

  /** Another leads later and its own entry prevails at the same index. */
  lemma Supplants(R: iset<World>, w: World, c: NodeId, b: NodeId, a: NodeId, y: LogEntry) returns (w': World, x: LogEntry)
    requires In(R, w) && y.term == 1 && 1 !in w.ops && w.c.h.clog == []
    requires Cast(w, c, b, a, BLANK, At(1, []), Head(1, [y]))
    ensures In(R, w') && x == LogEntry(2, 1, Noop) && w'.c.h.clog == [x]
    ensures forall op | op in w.ops :: op in w'.ops && w'.ops[op] == w.ops[op]
    ensures a in w'.c.nodes && w'.c.nodes[a].log == [x] && w'.c.nodes[a].commit == 1
  {
    x := LogEntry(2, 1, Noop);
    var w1, t := LeadsAndTakesOp(R, w, c, b, a, BLANK, At(1, []), Head(1, [y]), 1, Noop);
    assert Appended(Head(2, []), Noop) == Head(2, [x]);
    w' := Prevails(R, w1, c, b, a, x, y);
  }

  lemma LosesWrite(R: iset<World>, w: World, a: NodeId, b: NodeId, c: NodeId, key: string, value: string)
    returns (w': World)
    requires In(R, w) && Cast(w, a, b, c, BLANK, BLANK, BLANK) && w.ops == map[] && w.c.h.clog == []
    ensures w' in R && AnsweredAndLost(w', 0, key, value)
  {
    var w1 := TakesWrite(R, w, a, b, c, Put(key, value));
    var w2, x := Supplants(R, w1, c, b, a, LogEntry(1, 1, Put(key, value)));
    w' := Answers(R, w2, 0);
    OnlyNoop(x);
  }

  /** For any three nodes and any write there is a run in which the write is answered and lost. */
  lemma AnsweredWriteCanBeLost(a: NodeId, b: NodeId, c: NodeId, key: string, value: string)
    requires ThreeIds(a, b, c)
    ensures exists w :: Reachable(w) && AnsweredAndLost(w, 0, key, value)
  {
    var R, start := Begin(a, b, c);
    var w := LosesWrite(R, start, a, b, c, key, value);
    IsReachable(start, w);
  }
}
