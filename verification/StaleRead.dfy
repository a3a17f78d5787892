/**
  A run in which a read that begins after a write was answered does not see it
  (client/http.go, raft/proposal.go): the node reading has been deposed without
  knowing, its no-op is replaced by a request that was long under way, and the
  index the read waits for is committed and applied all the same.
 */
module StaleRead {
  import opened RaftTypes
  import opened NodeModel
  import opened Cluster
  import opened KvStore
  import opened Service
  import opened Scenarios
  import opened ThreeNodes

  /** The new leader's first entry, and its log with a write after it. */
  const FIRST := LogEntry(2, 1, Noop)

  function WithWrite(write: Command): Log {
    [FIRST, LogEntry(2, 2, write)]
  }

  /** The request with the first entry, committed, that is delayed on its way to the deposed leader. */
  function Delayed(r: NodeId): AppendRequest {
    AppendRequest(2, r, 0, 0, [FIRST], 1)
  }

  // ---- The write ----

  /** Another leads term 2 and appends. */
  lemma Deposed(R: iset<World>, w: World, p: NodeId, q: NodeId, r: NodeId) returns (w': World)
    requires In(R, w) && Cast(w, p, q, r, BLANK, BLANK, BLANK)
    ensures In(R, w') && w'.ops == w.ops && w'.kv == w.kv && w'.c.h.clog == w.c.h.clog
    ensures Cast(w', r, q, p, Head(2, [FIRST]), At(2, []), Head(1, []))
    ensures Rules(w'.c.nodes[r], q, p, 1, 0, 1, 0) && Rules(w'.c.nodes[p], q, r, 1, 0, 1, 0)
  {
    var w1 := LeadsFirst(R, w, p, q, r);
    var w2, t := LeadsAndProposes(R, w1, r, q, p, BLANK, At(1, []), Head(1, []), Noop);
    assert Appended(Head(2, []), Noop) == Head(2, [FIRST]);
    w' := w2;
  }

  /** The entry is committed. */
  lemma FirstCommit(R: iset<World>, w: World, p: NodeId, q: NodeId, r: NodeId) returns (w': World)
    requires In(R, w) && Cast(w, r, q, p, Head(2, [FIRST]), At(2, []), Head(1, [])) && w.c.h.clog == []
    requires Rules(w.c.nodes[r], q, p, 1, 0, 1, 0)
    ensures In(R, w') && w'.ops == w.ops && w'.kv == w.kv && w'.c.h.clog == [FIRST]
    ensures Cast(w', r, q, p, View(2, [FIRST], 0, 1, 0, true), At(2, [FIRST]), Head(1, []))
    ensures Rules(w'.c.nodes[r], q, p, 2, 1, 1, 0) && w'.c.nodes[p] == w.c.nodes[p]
  {
    var w1, req := Stores(R, w, r, q, p, Head(2, [FIRST]), At(2, []), Head(1, []), 1);
    w' := Hears(R, w1, r, q, p, Head(2, [FIRST]), At(2, [FIRST]), Head(1, []), 1, 0, 1, 0, req);
  }

  /** It is sent to the deposed leader. */
  lemma Departs(R: iset<World>, w: World, p: NodeId, q: NodeId, r: NodeId) returns (w': World)
    requires In(R, w) && Cast(w, r, q, p, View(2, [FIRST], 0, 1, 0, true), At(2, [FIRST]), Head(1, []))
    requires Rules(w.c.nodes[r], q, p, 2, 1, 1, 0)
    ensures In(R, w') && w'.ops == w.ops && w'.kv == w.kv && w'.c.h == w.c.h && w'.c.nodes == w.c.nodes
    ensures AppendMsg(p, Delayed(r)) in w'.c.net.appends
  {
    Builds(w.c.nodes[r], p, 0);
    assert BuildAppend(w.c.nodes[r], p) == Delayed(r);
    w' := Sends(R, w, r, p);
  }

  /** A write is taken and committed. */
  lemma SecondCommit(R: iset<World>, w: World, p: NodeId, q: NodeId, r: NodeId, write: Command) returns (w': World)
    requires In(R, w) && Cast(w, r, q, p, View(2, [FIRST], 0, 1, 0, true), At(2, [FIRST]), Head(1, []))
    requires Rules(w.c.nodes[r], q, p, 2, 1, 1, 0) && w.ops == map[] && w.c.h.clog == [FIRST] && !write.IsMembership()
    ensures In(R, w') && w'.ops == map[0 := Proposed(r, 1, 2, 2, write)] && w'.kv == w.kv && Remembers(w, w')
    ensures w'.c.h.clog == WithWrite(write) && w'.c.nodes.Keys == w.c.nodes.Keys && w'.c.nodes[p] == w.c.nodes[p]
    ensures Cast(w', r, q, p, View(2, WithWrite(write), 0, 2, 0, true), View(2, WithWrite(write), 0, 1, 0, false),
                 Head(1, []))
  {
    var vr, vq := View(2, [FIRST], 0, 1, 0, true), At(2, [FIRST]);
    var w1 := TakesOp(R, w, r, q, p, vr, vq, Head(1, []), 0, write);
    var vr2 := View(2, WithWrite(write), 0, 1, 0, true);
    assert Appended(vr, write) == vr2;
    var w2, req := Stores(R, w1, r, q, p, vr2, vq, Head(1, []), 2);
    w' := Hears(R, w2, r, q, p, vr2, View(2, WithWrite(write), 0, 1, 0, false), Head(1, []), 2, 1, 1, 0, req);
  }

  /** What the read finds: the write is answered, the deposed leader knows of nothing, and a request is on its way. */
  predicate WriteAnswered(w: World, p: NodeId, q: NodeId, r: NodeId, write: Command) {
    && w.ops == map[0 := Done(r, 1, 2, 2, write, 2, true, None)] && w.c.h.clog == WithWrite(write)
    && Cast(w, p, q, r, Head(1, []), View(2, WithWrite(write), 0, 1, 0, false),
            View(2, WithWrite(write), 0, 2, 0, true))
    && Rules(w.c.nodes[p], q, r, 1, 0, 1, 0) && AppendMsg(p, Delayed(r)) in w.c.net.appends
    && p in w.kv && w.kv[p] == map[]
  }

  lemma AnswersWrite(R: iset<World>, w: World, p: NodeId, q: NodeId, r: NodeId, write: Command) returns (w': World)
    requires In(R, w) && Cast(w, r, q, p, View(2, [FIRST], 0, 1, 0, true), At(2, [FIRST]), Head(1, []))
    requires Rules(w.c.nodes[r], q, p, 2, 1, 1, 0) && w.ops == map[] && w.c.h.clog == [FIRST] && !write.IsMembership()
    requires Rules(w.c.nodes[p], q, r, 1, 0, 1, 0) && AppendMsg(p, Delayed(r)) in w.c.net.appends && w.kv[p] == map[]
    ensures In(R, w') && WriteAnswered(w', p, q, r, write)
  {
    var w1 := SecondCommit(R, w, p, q, r, write);
    Turn(w1, r, q, p, View(2, WithWrite(write), 0, 2, 0, true), View(2, WithWrite(write), 0, 1, 0, false), Head(1, []));
    w' := Answers(R, w1, 0);
  }

  lemma WriteHalf(p: NodeId, q: NodeId, r: NodeId, write: Command) returns (w: World)
    requires ThreeIds(p, q, r) && !write.IsMembership()
    ensures Reachable(w) && WriteAnswered(w, p, q, r, write)
    ensures w.kv.Keys == w.c.nodes.Keys && w.ahead.Keys == w.c.nodes.Keys
  {
    var R, start := Begin(p, q, r);
    var w1 := Deposed(R, start, p, q, r);
    var w2 := FirstCommit(R, w1, p, q, r);
    var w3 := Departs(R, w2, p, q, r);
    w := AnswersWrite(R, w3, p, q, r, write);
    IsReachable(start, w);
  }

  // ---- The read ----

  /** The deposed leader begins a read. */
  lemma BeginsRead(R: iset<World>, w: World, p: NodeId, q: NodeId, r: NodeId, write: Command) returns (w': World)
    requires In(R, w) && WriteAnswered(w, p, q, r, write)
    ensures In(R, w') && p in w'.c.nodes && w'.c.h.clog == w.c.h.clog
    ensures w'.ops == w.ops[1 := Proposed(p, 2, 1, 1, Noop)] && w'.kv == w.kv && Remembers(w, w')
    ensures Shows(w'.c.nodes[p], Head(1, [LogEntry(1, 1, Noop)])) && IsMember(w'.c.nodes[p], r)
  {
    var vq, vr := View(2, WithWrite(write), 0, 1, 0, false), View(2, WithWrite(write), 0, 2, 0, true);
    w' := TakesOp(R, w, p, q, r, Head(1, []), vq, vr, 1, Noop);
    assert Appended(Head(1, []), Noop) == Head(1, [LogEntry(1, 1, Noop)]);
    assert r in PeerSet(w'.c.nodes[p].peers);
  }

  /** The delayed request arrives and replaces the no-op. */
  lemma Arrives(R: iset<World>, w: World, p: NodeId, r: NodeId) returns (w': World)
    requires In(R, w) && p in w.c.nodes && AppendMsg(p, Delayed(r)) in w.c.net.appends
    requires Shows(w.c.nodes[p], Head(1, [LogEntry(1, 1, Noop)])) && IsMember(w.c.nodes[p], r)
    ensures In(R, w') && p in w'.c.nodes && w'.ops == w.ops && w'.kv == w.kv && w'.c.h.clog == w.c.h.clog
    ensures Shows(w'.c.nodes[p], View(2, [FIRST], 0, 1, 0, false))
  {
    TakesRest(w.c.nodes[p], Delayed(r), View(2, [FIRST], 0, 1, 0, true), Head(1, [LogEntry(1, 1, Noop)]), 0);
    w' := Receives(R, w, AppendMsg(p, Delayed(r)));
  }

  /** The entry is applied, and the read is answered. */
  lemma AnswersLate(R: iset<World>, w: World, p: NodeId, key: string) returns (w': World)
    requires In(R, w) && p in w.c.nodes && Shows(w.c.nodes[p], View(2, [FIRST], 0, 1, 0, false)) && w.kv[p] == map[]
    requires 1 in w.ops && w.ops[1] == Proposed(p, 2, 1, 1, Noop)
    ensures In(R, w') && w'.c.h.clog == w.c.h.clog
    ensures w'.ops == w.ops[1 := Done(p, 2, 1, 1, Noop, |w.c.h.clog|, false, Some(ReadResult(key, None, 1)))]
  {
    var w1 := AppliesNext(R, w, p);
    w' := AnswersRead(R, w1, 1, key);
  }

  /**
    In the first world the write is answered, its entry in place, and the read
    has not begun; in the second, reached from it, the read is answered and did
    not find the key, though it held the value when the read began.
   */
  ghost predicate MissesWrite(w: World, w': World, key: string, value: string) {
    && Reachable(w) && Reaches(w, w') && 1 !in w.ops
    && 0 in w.ops && w.ops[0].Done? && w.ops[0].confirmed && w.ops[0].command == Put(key, value)
    && 1 in w'.ops && w'.ops[1].Done? && !w'.ops[1].confirmed
    && w'.ops[1].read == Some(ReadResult(key, None, 1)) && w'.ops[1].start == 2 <= |w'.c.h.clog|
    && Get(Fold(w'.c.h.clog[..2]), key) == Some(value)
  }

  lemma ReadRun(R: iset<World>, w: World, p: NodeId, q: NodeId, r: NodeId, write: Command, key: string)
    returns (w': World)
    requires In(R, w) && WriteAnswered(w, p, q, r, write)
    ensures In(R, w') && w'.c.h.clog == w.c.h.clog
    ensures w'.ops == w.ops[1 := Done(p, 2, 1, 1, Noop, 2, false, Some(ReadResult(key, None, 1)))]
  {
    var w1 := BeginsRead(R, w, p, q, r, write);
    var w2 := Arrives(R, w1, p, r);
    w' := AnswersLate(R, w2, p, key);
  }

  lemma ReadHalf(w: World, p: NodeId, q: NodeId, r: NodeId, key: string, value: string) returns (w': World)
    requires w.kv.Keys == w.c.nodes.Keys && w.ahead.Keys == w.c.nodes.Keys
    requires WriteAnswered(w, p, q, r, Put(key, value))
    ensures Reaches(w, w') && w'.c.h.clog == WithWrite(Put(key, value))
    ensures w'.ops == w.ops[1 := Done(p, 2, 1, 1, Noop, 2, false, Some(ReadResult(key, None, 1)))]
  {
    var R := iset x | Reaches(w, x);
    ReachesIsClosed(w);
    ReachesSelf(w);
    w' := ReadRun(R, w, p, q, r, Put(key, value), key);
  }

  lemma ValueAfterWrite(key: string, value: string)
    ensures Get(Fold(WithWrite(Put(key, value))[..2]), key) == Some(value)
  {
    FoldStep(WithWrite(Put(key, value)), 1);
  }

  /** Among any three nodes, and for any write, there is a run in which a later read misses the answered write. */
  lemma LaterReadCanMissWrite(p: NodeId, q: NodeId, r: NodeId, key: string, value: string)
    requires ThreeIds(p, q, r)
    ensures exists w, w' :: MissesWrite(w, w', key, value)
  {
    var w := WriteHalf(p, q, r, Put(key, value));
    var w' := ReadHalf(w, p, q, r, key, value);
    ValueAfterWrite(key, value);
    assert MissesWrite(w, w', key, value);
  }
}
