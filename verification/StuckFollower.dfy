/**
  A run in which a leader has kept the last point of agreement with a follower
  and still cannot bring it up to date: the follower has compacted past the
  point where the leader, which missed a reply, takes up.
 */
module StuckFollower {
  import opened RaftTypes
  import opened LogOps
  import opened NodeModel
  import opened Cluster
  import opened CatchUp
  import opened Service
  import opened Scenarios
  import opened ThreeNodes

  /** A log of the first term that holds `n` entries. */
  function Noops(n: nat): Log {
    seq(n, (i: nat) => LogEntry(1, i + 1, Noop))
  }

  lemma NoopsGrow(v: View, n: nat)
    requires v.term == 1 && v.log == Noops(n)
    ensures Appended(v, Noop) == v.(log := Noops(n + 1)) && Agree(Noops(n), Noops(n + 1), n)
  {
    assert Noops(n) + [LogEntry(1, n + 1, Noop)] == Noops(n + 1);
    assert Noops(n + 1)[..n] == Noops(n)[..n];
  }

  /** A leader appends `n` entries. */
  lemma {:induction false} ProposesMany(R: iset<World>, w: World, p: NodeId, q: NodeId, r: NodeId, n: nat)
    returns (w': World)
    requires In(R, w) && Cast(w, p, q, r, Head(1, []), At(1, []), BLANK) && Rules(w.c.nodes[p], q, r, 1, 0, 1, 0)
    ensures In(R, w') && Cast(w', p, q, r, Head(1, Noops(n)), At(1, []), BLANK)
    ensures Rules(w'.c.nodes[p], q, r, 1, 0, 1, 0)
  {
    if n == 0 {
      w' := w;
    } else {
      var w1 := ProposesMany(R, w, p, q, r, n - 1);
      w' := Proposes(R, w1, p, q, r, Head(1, Noops(n - 1)), At(1, []), BLANK, Noop);
      NoopsGrow(Head(1, Noops(n - 1)), n - 1);
    }
  }

  lemma MarkedAgain(nodes: Nodes, p: NodeId, n: nat)
    requires p in nodes
    ensures var once := nodes[p := nodes[p].(applied := n)];
      once[p := MarkApplied(once[p])] == nodes[p := nodes[p].(applied := n + 1)]
  {
  }

  /** A node applies entries up to an index. */
  lemma {:induction false} AppliesUpTo(R: iset<World>, w: World, p: NodeId, n: nat) returns (w': World)
    requires In(R, w) && p in w.c.nodes
    requires var s := w.c.nodes[p]; s.base <= s.applied <= n <= s.commit <= |s.log|
    ensures In(R, w') && w'.c.nodes == w.c.nodes[p := w.c.nodes[p].(applied := n)]
    decreases n
  {
    if n == w.c.nodes[p].applied {
      w' := w;
      assert w.c.nodes[p].(applied := n) == w.c.nodes[p];
    } else {
      var w1 := AppliesUpTo(R, w, p, n - 1);
      w' := AppliesNext(R, w1, p);
      MarkedAgain(w.c.nodes, p, n - 1);
    }
  }

  lemma AppliesMany(R: iset<World>, w: World, p: NodeId, q: NodeId, r: NodeId, vp: View, vq: View, vr: View, n: nat)
    returns (w': World)
    requires In(R, w) && Cast(w, p, q, r, vp, vq, vr) && vp.base <= vp.applied <= n <= vp.commit <= |vp.log|
    ensures In(R, w') && Cast(w', p, q, r, vp.(applied := n), vq, vr)
    ensures w'.c.nodes == w.c.nodes[p := w.c.nodes[p].(applied := n)]
  {
    w' := AppliesUpTo(R, w, p, n);
    FirstChanges(w, w', p, q, r, vp, vq, vr, w.c.nodes[p].(applied := n), vp.(applied := n));
  }

  lemma FirstHeard(R: iset<World>, w: World, p: NodeId, q: NodeId, r: NodeId, n: nat) returns (w': World)
    requires In(R, w) && Cast(w, p, q, r, Head(1, Noops(n)), At(1, []), BLANK) && 0 < n
    requires Rules(w.c.nodes[p], q, r, 1, 0, 1, 0)
    ensures In(R, w') && Cast(w', p, r, q, View(1, Noops(n), 0, n, 0, true), BLANK, At(1, Noops(n)))
    ensures Rules(w'.c.nodes[p], r, q, 1, 0, n + 1, n)
  {
    var vp, vq := Head(1, Noops(n)), At(1, Noops(n));
    var w1, req := Stores(R, w, p, q, r, vp, At(1, []), BLANK, 1);
    w' := HearsAndTurns(R, w1, p, q, r, vp, vq, BLANK, 1, 0, 1, 0, req);
  }

  /** A leader appends `n` entries, and one peer acknowledges. */
  lemma FirstAck(R: iset<World>, w: World, p: NodeId, q: NodeId, r: NodeId, n: nat) returns (w': World)
    requires In(R, w) && Cast(w, p, q, r, BLANK, BLANK, BLANK) && 0 < n
    ensures In(R, w') && Cast(w', p, r, q, View(1, Noops(n), 0, n, 0, true), BLANK, At(1, Noops(n)))
    ensures Rules(w'.c.nodes[p], r, q, 1, 0, n + 1, n)
  {
    var w1, t := Leads(R, w, p, q, r, BLANK, BLANK, BLANK);
    var w2 := ProposesMany(R, w1, p, q, r, n);
    w' := FirstHeard(R, w2, p, q, r, n);
  }

  /** The other peer acknowledges too. */
  lemma SecondAck(R: iset<World>, w: World, p: NodeId, q: NodeId, r: NodeId, n: nat) returns (w': World)
    requires In(R, w) && Cast(w, p, r, q, View(1, Noops(n), 0, n, 0, true), BLANK, At(1, Noops(n))) && 0 < n
    requires Rules(w.c.nodes[p], r, q, 1, 0, n + 1, n)
    ensures In(R, w')
    ensures Cast(w', p, r, q, View(1, Noops(n), 0, n, 0, true), View(1, Noops(n), 0, n, 0, false), At(1, Noops(n)))
    ensures Rules(w'.c.nodes[p], r, q, n + 1, n, n + 1, n)
  {
    var vp, vr, vq := View(1, Noops(n), 0, n, 0, true), View(1, Noops(n), 0, n, 0, false), At(1, Noops(n));
    var w1, req := Stores(R, w, p, r, q, vp, BLANK, vq, 1);
    w' := Hears(R, w1, p, r, q, vp, vr, vq, 1, 0, n + 1, n, req);
  }

  /** The leader applies the entries and compacts them. */
  lemma LeaderCompacts(R: iset<World>, w: World, p: NodeId, q: NodeId, r: NodeId, n: nat) returns (w': World)
    requires In(R, w) && 0 < n
    requires Cast(w, p, r, q, View(1, Noops(n), 0, n, 0, true), View(1, Noops(n), 0, n, 0, false), At(1, Noops(n)))
    requires Rules(w.c.nodes[p], r, q, n + 1, n, n + 1, n)
    ensures In(R, w')
    ensures Cast(w', p, r, q, View(1, Noops(n), n, n, n, true), View(1, Noops(n), 0, n, 0, false), At(1, Noops(n)))
    ensures Rules(w'.c.nodes[p], r, q, n + 1, n, n + 1, n)
  {
    var vr, vq := View(1, Noops(n), 0, n, 0, false), At(1, Noops(n));
    var w1 := AppliesMany(R, w, p, r, q, View(1, Noops(n), 0, n, 0, true), vr, vq, n);
    w' := Compacts(R, w1, p, r, q, View(1, Noops(n), 0, n, n, true), vr, vq);
  }

  /** It appends once more. */
  lemma LeaderAppends(R: iset<World>, w: World, p: NodeId, q: NodeId, r: NodeId, n: nat) returns (w': World)
    requires In(R, w)
    requires Cast(w, p, r, q, View(1, Noops(n), n, n, n, true), View(1, Noops(n), 0, n, 0, false), At(1, Noops(n)))
    requires Rules(w.c.nodes[p], r, q, n + 1, n, n + 1, n)
    ensures In(R, w')
    ensures Cast(w', p, r, q, View(1, Noops(n + 1), n, n, n, true), View(1, Noops(n), 0, n, 0, false), At(1, Noops(n)))
    ensures Rules(w'.c.nodes[p], r, q, n + 1, n, n + 1, n)
  {
    var vp := View(1, Noops(n), n, n, n, true);
    w' := Proposes(R, w, p, r, q, vp, View(1, Noops(n), 0, n, 0, false), At(1, Noops(n)), Noop);
    NoopsGrow(vp, n);
  }

  /** The other peer stores that entry. */
  lemma SecondStored(R: iset<World>, w: World, p: NodeId, q: NodeId, r: NodeId, n: nat)
    returns (w': World, req: AppendRequest)
    requires In(R, w) && 0 < n
    requires Cast(w, p, r, q, View(1, Noops(n + 1), n, n, n, true), View(1, Noops(n), 0, n, 0, false), At(1, Noops(n)))
    requires Rules(w.c.nodes[p], r, q, n + 1, n, n + 1, n)
    ensures In(R, w')
    ensures Cast(w', p, r, q, View(1, Noops(n + 1), n, n, n, true), View(1, Noops(n + 1), 0, n, 0, false),
                 At(1, Noops(n)))
    ensures Rules(w'.c.nodes[p], r, q, n + 1, n, n + 1, n)
    ensures req.leader == p && req.term == 1 && req.Last() == n + 1
    ensures AppendRecord(r, req, AppendReply(1, true)) in w'.c.net.appendReps
  {
    NoopsGrow(At(1, Noops(n)), n);
    w', req := Stores(R, w, p, r, q, View(1, Noops(n + 1), n, n, n, true), View(1, Noops(n), 0, n, 0, false),
                      At(1, Noops(n)), n + 1);
  }

  /** It is committed with that peer. */
  lemma SecondCommit(R: iset<World>, w: World, p: NodeId, q: NodeId, r: NodeId, n: nat) returns (w': World)
    requires In(R, w) && 0 < n
    requires Cast(w, p, r, q, View(1, Noops(n + 1), n, n, n, true), View(1, Noops(n), 0, n, 0, false), At(1, Noops(n)))
    requires Rules(w.c.nodes[p], r, q, n + 1, n, n + 1, n)
    ensures In(R, w')
    ensures Cast(w', p, q, r, View(1, Noops(n + 1), n, n + 1, n, true), At(1, Noops(n)),
                 View(1, Noops(n + 1), 0, n, 0, false))
    ensures Rules(w'.c.nodes[p], q, r, n + 1, n, n + 2, n + 1)
  {
    var vp, vr, vq := View(1, Noops(n + 1), n, n, n, true), View(1, Noops(n + 1), 0, n, 0, false), At(1, Noops(n));
    var w1, req := SecondStored(R, w, p, q, r, n);
    w' := HearsAndTurns(R, w1, p, r, q, vp, vr, vq, n + 1, n, n + 1, n, req);
  }

  /** The first peer stores and commits it; its reply is lost. */
  lemma LostReply(R: iset<World>, w: World, p: NodeId, q: NodeId, r: NodeId, n: nat) returns (w': World)
    requires In(R, w) && 0 < n
    requires Cast(w, p, q, r, View(1, Noops(n + 1), n, n + 1, n, true), At(1, Noops(n)),
                  View(1, Noops(n + 1), 0, n, 0, false))
    requires Rules(w.c.nodes[p], q, r, n + 1, n, n + 2, n + 1)
    ensures In(R, w')
    ensures Cast(w', q, p, r, View(1, Noops(n + 1), 0, n + 1, 0, false), View(1, Noops(n + 1), n, n + 1, n, true),
                 View(1, Noops(n + 1), 0, n, 0, false))
    ensures Rules(w'.c.nodes[p], q, r, n + 1, n, n + 2, n + 1)
  {
    var vp, vr := View(1, Noops(n + 1), n, n + 1, n, true), View(1, Noops(n + 1), 0, n, 0, false);
    NoopsGrow(At(1, Noops(n)), n);
    var w1, req := Stores(R, w, p, q, r, vp, At(1, Noops(n)), vr, n + 1);
    w' := w1;
    Around(w', p, q, r, vp, View(1, Noops(n + 1), 0, n + 1, 0, false), vr);
  }

  lemma Around(w: World, p: NodeId, q: NodeId, r: NodeId, vp: View, vq: View, vr: View)
    requires Cast(w, p, q, r, vp, vq, vr)
    ensures Cast(w, q, p, r, vq, vp, vr)
  {
    Turn(w, p, q, r, vp, vq, vr);
    Turn(w, p, r, q, vp, vr, vq);
    Turn(w, q, r, p, vq, vr, vp);
  }

  /** It applies all its entries and compacts them. */
  lemma PeerCompacts(R: iset<World>, w: World, p: NodeId, q: NodeId, r: NodeId, n: nat) returns (w': World)
    requires In(R, w) && 0 < n
    requires Cast(w, q, p, r, View(1, Noops(n + 1), 0, n + 1, 0, false), View(1, Noops(n + 1), n, n + 1, n, true),
                  View(1, Noops(n + 1), 0, n, 0, false))
    requires Rules(w.c.nodes[p], q, r, n + 1, n, n + 2, n + 1)
    ensures In(R, w')
    ensures Cast(w', q, p, r, View(1, Noops(n + 1), n + 1, n + 1, n + 1, false),
                 View(1, Noops(n + 1), n, n + 1, n, true), View(1, Noops(n + 1), 0, n, 0, false))
    ensures Rules(w'.c.nodes[p], q, r, n + 1, n, n + 2, n + 1)
  {
    var vp, vr := View(1, Noops(n + 1), n, n + 1, n, true), View(1, Noops(n + 1), 0, n, 0, false);
    var w1 := AppliesMany(R, w, q, p, r, View(1, Noops(n + 1), 0, n + 1, 0, false), vp, vr, n + 1);
    w' := Compacts(R, w1, q, p, r, View(1, Noops(n + 1), 0, n + 1, n + 1, false), vp, vr);
  }

  /** The leader keeps the last point of agreement, and the exchange never ends in agreement. */
  ghost predicate StuckAlthoughKept(w: World, p: NodeId, q: NodeId) {
    && p in w.c.nodes && q in w.c.nodes && Pair(w.c.nodes[p], w.c.nodes[q], q)
    && w.c.nodes[p].base <= Agreed(w.c.nodes[q].log, w.c.nodes[p].log)
    && Exchange(w.c.nodes[p], w.c.nodes[q], q) == Stuck
  }

  lemma IsStuck(w: World, p: NodeId, q: NodeId, r: NodeId, n: nat)
    requires 0 < n && Cast(w, q, p, r, View(1, Noops(n + 1), n + 1, n + 1, n + 1, false),
                           View(1, Noops(n + 1), n, n + 1, n, true), View(1, Noops(n + 1), 0, n, 0, false))
    requires Rules(w.c.nodes[p], q, r, n + 1, n, n + 2, n + 1)
    ensures StuckAlthoughKept(w, p, q) && w.c.nodes[p].base == n && w.c.nodes[q].base == n + 1
  {
    var l, f := w.c.nodes[p], w.c.nodes[q];
    assert p in PeerSet(f.peers);
    AgreedIsLongest(f.log, l.log, n + 1);
    CatchUpExact(l, f, q);
  }

  lemma LeaderHalf(R: iset<World>, w: World, p: NodeId, q: NodeId, r: NodeId, n: nat) returns (w': World)
    requires In(R, w) && Cast(w, p, q, r, BLANK, BLANK, BLANK) && 0 < n
    ensures In(R, w')
    ensures Cast(w', p, r, q, View(1, Noops(n + 1), n, n, n, true), View(1, Noops(n), 0, n, 0, false), At(1, Noops(n)))
    ensures Rules(w'.c.nodes[p], r, q, n + 1, n, n + 1, n)
  {
    var w1 := FirstAck(R, w, p, q, r, n);
    var w2 := SecondAck(R, w1, p, q, r, n);
    var w3 := LeaderCompacts(R, w2, p, q, r, n);
    w' := LeaderAppends(R, w3, p, q, r, n);
  }

  /**
    Among any three nodes, and for any number of entries after which the leader
    compacts, there is a run that ends so.
   */
  lemma FollowerCanBeStuck(p: NodeId, q: NodeId, r: NodeId, n: nat)
    requires ThreeIds(p, q, r) && 0 < n
    ensures exists w ::
      Reachable(w) && StuckAlthoughKept(w, p, q) && w.c.nodes[p].base == n && w.c.nodes[q].base == n + 1
  {
    var R, start := Begin(p, q, r);
    var w1 := LeaderHalf(R, start, p, q, r, n);
    var w2 := SecondCommit(R, w1, p, q, r, n);
    var w3 := LostReply(R, w2, p, q, r, n);
    var w4 := PeerCompacts(R, w3, p, q, r, n);
    IsStuck(w4, p, q, r, n);
    IsReachable(start, w4);
  }
}
