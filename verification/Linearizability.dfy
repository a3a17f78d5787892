/** Reads and writes take effect between their beginning and their answer, in the order of the committed log. */
module Linearizability {
  import opened RaftTypes
  import opened LogOps
  import opened NodeModel
  import opened Cluster
  import opened Invariants
  import opened Evolution
  import opened AppendSteps
  import opened ClusterProof
  import opened Safety
  import opened KvStore
  import opened Service
  import opened ServiceInvariant

  // ---- The committed log ----

  lemma ClogAnchored(c: State)
    requires LogInv(c.nodes, c.h) && ClogInv(c.h)
    ensures Anchored(c.h.logs, c.h.clog)
  {
    if |c.h.clog| > 0 {
      var t :| t in c.h.committed && c.h.committed[t] == |c.h.clog|;
      assert Agree(c.h.logs[t], c.h.clog, |c.h.clog|);
      AnchoredPrefix(c.h.logs, c.h.logs[t], |c.h.clog|);
      assert c.h.clog == c.h.logs[t][..|c.h.clog|];
    }
  }

  // ---- Operations under a growing history ----

  lemma ProposalStays(c: State, c': State, start: nat, term: nat, index: nat, command: Command)
    requires Evolves(c, c') && ProposalOk(c.h, start, term, index, command)
    ensures ProposalOk(c'.h, start, term, index, command)
  {
    assert LogGrows(term, c.h.logs[term], c'.h.logs[term]);
  }

  lemma ValueStays(clog: Log, clog': Log, read: ReadResult, start: nat)
    requires ValueOk(clog, read, start) && clog <= clog'
    ensures ValueOk(clog', read, start)
  {
    FoldAgrees(clog, clog', read.at);
    if WrittenIn(clog, read.at, start, read.key) {
      var i: nat :| read.at <= i < start && Writes(clog[i].command, read.key);
      assert Writes(clog'[i].command, read.key);
    }
  }

  lemma OpStays(w: World, w': World, o: Op)
    requires Evolves(w.c, w'.c) && OpOk(w, o)
    requires o.Begun? || o.Proposed? ==> o.node in w'.ahead && w'.ahead[o.node] == w.ahead[o.node]
    ensures OpOk(w', o)
  {
    if o.Proposed? || o.Done? {
      ProposalStays(w.c, w'.c, o.start, o.term, o.index, o.command);
    }
    if o.Done? && o.read.Some? {
      ValueStays(w.c.h.clog, w'.c.h.clog, o.read.value, o.start);
    }
  }

  ghost predicate StoresOk(w: World) {
    && w.kv.Keys == w.c.nodes.Keys && w.ahead.Keys == w.c.nodes.Keys
    && forall p | p in w.c.nodes :: StoreOk(w.c.nodes[p], w.kv[p], w.c.h.clog, w.ahead[p])
  }

  ghost predicate OpsOk(w: World) {
    forall op | op in w.ops :: OpOk(w, w.ops[op])
  }

  // ---- Cluster steps ----

  lemma StepStore(w: World, e: Event, p: NodeId)
    requires Possible(w, e) && e.ClusterStep?
    requires p in w.c.nodes && StoreOk(w.c.nodes[p], w.kv[p], w.c.h.clog, w.ahead[p])
    requires Agree(w.c.nodes[p].log, w.c.h.clog, w.c.nodes[p].commit) && w.c.h.clog <= Happen(w, e).c.h.clog
    ensures var w' := Happen(w, e);
      p in w'.c.nodes && StoreOk(w'.c.nodes[p], w'.kv[p], w'.c.h.clog, w'.ahead[p])
  {
    var s, clog := w.c.nodes[p], w.c.h.clog;
    if e.step.Apply? && e.step.p == p {
      StoreApplies(s, w.kv[p], clog, w.ahead[p]);
    } else if e.step.TakeSnapshot? && e.step.p == p {
      StoreSnapshot(s, w.kv[p], clog, w.ahead[p]);
    } else {
      StepLeavesStore(w.c, e.step, p);
      StoreStays(s, Happen(w, e).c.nodes[p], w.kv[p], clog, Happen(w, e).c.h.clog, w.ahead[p]);
    }
  }

  lemma StepStoreAt(w: World, e: Event, p: NodeId)
    requires Possible(w, e) && e.ClusterStep? && CommitInv(w.c.nodes, w.c.h) && ClogInv(w.c.h)
    requires p in w.c.nodes && StoreOk(w.c.nodes[p], w.kv[p], w.c.h.clog, w.ahead[p])
    requires w.c.h.clog <= Happen(w, e).c.h.clog
    ensures var w' := Happen(w, e);
      p in w'.c.nodes && StoreOk(w'.c.nodes[p], w'.kv[p], w'.c.h.clog, w'.ahead[p])
  {
    NodeInClog(w.c.nodes, w.c.h, p);
    StepStore(w, e, p);
  }

  lemma StepKeys(w: World, e: Event)
    requires Possible(w, e) && e.ClusterStep?
    ensures var w' := Happen(w, e);
      && w'.c == Exec(w.c, e.step) && w'.c.nodes.Keys == w.c.nodes.Keys
      && w'.kv.Keys == w.kv.Keys && w'.ahead == w.ahead && w'.ops == w.ops
  {
    StepIsOperation(w.c, e.step);
  }

  lemma StepStores(w: World, e: Event)
    requires Possible(w, e) && e.ClusterStep? && StoresOk(w)
    requires CommitInv(w.c.nodes, w.c.h) && ClogInv(w.c.h) && w.c.h.clog <= Happen(w, e).c.h.clog
    ensures StoresOk(Happen(w, e))
  {
    StepKeys(w, e);
    forall p | p in w.c.nodes
      ensures var w' := Happen(w, e);
        p in w'.c.nodes && StoreOk(w'.c.nodes[p], w'.kv[p], w'.c.h.clog, w'.ahead[p])
    {
      StepStoreAt(w, e, p);
    }
  }

  lemma StepOps(w: World, e: Event)
    requires Possible(w, e) && e.ClusterStep? && OpsOk(w)
    requires Evolves(w.c, Exec(w.c, e.step))
    ensures OpsOk(Happen(w, e))
  {
    var w' := Happen(w, e);
    forall op | op in w'.ops ensures OpOk(w', w'.ops[op]) {
      assert OpOk(w, w.ops[op]);
      OpStays(w, w', w.ops[op]);
    }
  }

  // ---- Crashes ----

  /** The store a crashing node leaves behind, which may hold one entry more than it has marked applied. */
  lemma CrashStores(w: World, p: NodeId, kv: Kv, seen: nat)
    requires StoresOk(w) && p in w.c.nodes && Converging(kv, w.c.h.clog, seen, w.ahead[p])
    requires Evolves(w.c, Exec(w.c, CrashAndRestart(p)))
    ensures StoresOk(CrashNode(w, p, kv, seen))
  {
    var w' := CrashNode(w, p, kv, seen);
    forall q | q in w'.c.nodes ensures StoreOk(w'.c.nodes[q], w'.kv[q], w'.c.h.clog, w'.ahead[q]) {
      assert StoreOk(w.c.nodes[q], w.kv[q], w.c.h.clog, w.ahead[q]);
      if q == p {
        StoreRestarts(w.c.nodes[p], w.kv[p], w.c.h.clog, w.ahead[p], seen, kv);
      }
    }
  }

  lemma CrashOps(w: World, p: NodeId, kv: Kv, seen: nat)
    requires OpsOk(w) && p in w.c.nodes && p in w.ahead
    requires Evolves(w.c, Exec(w.c, CrashAndRestart(p)))
    ensures OpsOk(CrashNode(w, p, kv, seen))
  {
    var w' := CrashNode(w, p, kv, seen);
    forall op | op in w'.ops ensures OpOk(w', w'.ops[op]) {
      assert OpOk(w, w.ops[op]);
      if w'.ops[op] == w.ops[op] && !w.ops[op].Lost? { OpStays(w, w', w.ops[op]); }
    }
  }

  lemma LeftBehindConverges(w: World, p: NodeId, midApply: bool)
    requires StoresOk(w) && p in w.c.nodes && (midApply ==> CanApply(w.c.nodes[p]))
    requires CommitInv(w.c.nodes, w.c.h) && ClogInv(w.c.h)
    ensures Converging(LeftBehind(w, p, midApply), w.c.h.clog, Seen(w, p, midApply), w.ahead[p])
  {
    assert StoreOk(w.c.nodes[p], w.kv[p], w.c.h.clog, w.ahead[p]);
    if midApply {
      NodeInClog(w.c.nodes, w.c.h, p);
      StoreApplies(w.c.nodes[p], w.kv[p], w.c.h.clog, w.ahead[p]);
    }
  }

  lemma CrashNodeKeeps(w: World, p: NodeId, kv: Kv, seen: nat)
    requires WorldInv(w) && p in w.c.nodes && Converging(kv, w.c.h.clog, seen, w.ahead[p])
    ensures WorldInv(CrashNode(w, p, kv, seen)) && Evolves(w.c, CrashNode(w, p, kv, seen).c)
  {
    StepKeeps(w.c, CrashAndRestart(p));
    CrashStores(w, p, kv, seen);
    CrashOps(w, p, kv, seen);
  }

  lemma CrashKeeps(w: World, p: NodeId, midApply: bool)
    requires Possible(w, Crash(p, midApply)) && WorldInv(w)
    ensures var w' := Happen(w, Crash(p, midApply)); WorldInv(w') && Evolves(w.c, w'.c)
  {
    LeftBehindConverges(w, p, midApply);
    CrashNodeKeeps(w, p, LeftBehind(w, p, midApply), Seen(w, p, midApply));
  }

  // ---- Proposals ----

  lemma ExecProposeHistory(c: State, p: NodeId, command: Command)
    requires Enabled(c, Propose(p, command))
    ensures var s, h' := c.nodes[p], Exec(c, Propose(p, command)).h;
      s.term in h'.logs && h'.logs[s.term] == s.log + [NewEntry(s, command)]
  {
  }

  /** An index at the end of the leader's log is not one where that term's entry is already committed. */
  lemma NewIndexIsFree(c: State, p: NodeId)
    requires LogInv(c.nodes, c.h) && ClogInv(c.h) && p in c.nodes
    requires c.nodes[p].term in c.h.logs && c.h.logs[c.nodes[p].term] == c.nodes[p].log
    requires |c.nodes[p].log| < |c.h.clog|
    ensures c.h.clog[|c.nodes[p].log|].term != c.nodes[p].term
  {
    ClogAnchored(c);
    assert AnchoredAt(c.h.logs, c.h.clog, |c.nodes[p].log|);
  }

  lemma ProposalFits(w: World, op: nat, command: Command)
    requires op in w.ops && w.ops[op].Begun? && OpOk(w, w.ops[op]) && Enabled(w.c, Propose(w.ops[op].node, command))
    requires LogInv(w.c.nodes, w.c.h) && ClogInv(w.c.h) && LeadsTerm(w.c.h, w.c.nodes[w.ops[op].node])
    requires Evolves(w.c, Exec(w.c, Propose(w.ops[op].node, command)))
    ensures var s := w.c.nodes[w.ops[op].node];
      ProposalOk(Exec(w.c, Propose(w.ops[op].node, command)).h, w.ops[op].start, s.term, |s.log| + 1, command)
  {
    var p := w.ops[op].node;
    ExecProposeHistory(w.c, p, command);
    if |w.c.nodes[p].log| < |w.c.h.clog| { NewIndexIsFree(w.c, p); }
  }

  lemma ProposeStores(w: World, op: nat, command: Command)
    requires Possible(w, ProposeOp(op, command)) && StoresOk(w)
    requires Evolves(w.c, Exec(w.c, Propose(w.ops[op].node, command)))
    ensures StoresOk(Happen(w, ProposeOp(op, command)))
  {
    var w' := Happen(w, ProposeOp(op, command));
    StepIsOperation(w.c, Propose(w.ops[op].node, command));
    forall p | p in w'.c.nodes ensures StoreOk(w'.c.nodes[p], w'.kv[p], w'.c.h.clog, w'.ahead[p]) {
      StepLeavesStore(w.c, Propose(w.ops[op].node, command), p);
      StoreStays(w.c.nodes[p], w'.c.nodes[p], w.kv[p], w.c.h.clog, w'.c.h.clog, w.ahead[p]);
    }
  }

  lemma ProposeOps(w: World, op: nat, command: Command)
    requires Possible(w, ProposeOp(op, command)) && OpsOk(w)
    requires Evolves(w.c, Exec(w.c, Propose(w.ops[op].node, command)))
    requires var s := w.c.nodes[w.ops[op].node];
      ProposalOk(Exec(w.c, Propose(w.ops[op].node, command)).h, w.ops[op].start, s.term, |s.log| + 1, command)
    ensures OpsOk(Happen(w, ProposeOp(op, command)))
  {
    var w' := Happen(w, ProposeOp(op, command));
    forall o | o in w'.ops ensures OpOk(w', w'.ops[o]) {
      assert OpOk(w, w.ops[o]);
      if o != op { OpStays(w, w', w.ops[o]); }
    }
  }

  lemma ProposeEventKeeps(w: World, op: nat, command: Command)
    requires Possible(w, ProposeOp(op, command)) && WorldInv(w)
    ensures var w' := Happen(w, ProposeOp(op, command)); WorldInv(w') && Evolves(w.c, w'.c)
  {
    var p := w.ops[op].node;
    StepKeeps(w.c, Propose(p, command));
    assert OpOk(w, w.ops[op]) && LeadsTerm(w.c.h, w.c.nodes[p]);
    ProposalFits(w, op, command);
    ProposeStores(w, op, command);
    ProposeOps(w, op, command);
  }

  // ---- Answers ----

  /** The committed entry at the proposed index is the proposed one exactly if its term is. */
  lemma ConfirmedExactly(h: History, s: NodeState, o: Op)
    requires Anchored(h.logs, h.clog) && Agree(s.log, h.clog, s.commit)
    requires o.Proposed? && ProposalOk(h, o.start, o.term, o.index, o.command) && o.index <= s.commit
    ensures o.index <= |h.clog|
    ensures StillThere(s, o) <==> h.clog[o.index - 1].term == o.term
    ensures StillThere(s, o) ==> o.start < o.index && h.clog[o.index - 1] == LogEntry(o.term, o.index, o.command)
  {
    AgreeAt(s.log, h.clog, s.commit, o.index - 1);
    assert AnchoredAt(h.logs, h.clog, o.index - 1);
    if StillThere(s, o) {
      AgreeAt(h.clog, h.logs[o.term], o.index, o.index - 1);
    }
  }

  /** A read sees the fold of what the node has applied, but for what its store had seen before it last restarted. */
  lemma ReadIsOk(w: World, op: nat, key: string)
    requires Possible(w, AnswerRead(op, key)) && StoresOk(w) && OpOk(w, w.ops[op])
    ensures var p := w.ops[op].node;
      ValueOk(w.c.h.clog, ReadResult(key, Get(w.kv[p], key), w.c.nodes[p].applied), w.ops[op].start)
  {
    var p, clog := w.ops[op].node, w.c.h.clog;
    var at := w.c.nodes[p].applied;
    assert StoreOk(w.c.nodes[p], w.kv[p], clog, w.ahead[p]);
    if WrittenIn(clog, at, w.ahead[p], key) {
      var i: nat :| at <= i < w.ahead[p] && Writes(clog[i].command, key);
      assert i < w.ops[op].start;
    }
  }

  lemma AnsweredOk(w: World, op: nat, read: Option<ReadResult>)
    requires op in w.ops && w.ops[op].Proposed? && w.ops[op].node in w.c.nodes && OpOk(w, w.ops[op])
    requires w.c.nodes[w.ops[op].node].commit >= w.ops[op].index && Anchored(w.c.h.logs, w.c.h.clog)
    requires Agree(w.c.nodes[w.ops[op].node].log, w.c.h.clog, w.c.nodes[w.ops[op].node].commit)
    requires read.Some? ==> w.ops[op].index <= read.value.at && ValueOk(w.c.h.clog, read.value, w.ops[op].start)
    ensures OpOk(Answered(w, op, read), Answered(w, op, read).ops[op])
  {
    ConfirmedExactly(w.c.h, w.c.nodes[w.ops[op].node], w.ops[op]);
  }

  lemma AnswerOk(w: World, e: Event)
    requires Possible(w, e) && (e.AnswerWrite? || e.AnswerRead?) && StoresOk(w) && OpOk(w, w.ops[e.op])
    requires LogInv(w.c.nodes, w.c.h) && CommitInv(w.c.nodes, w.c.h) && ClogInv(w.c.h) && NodesOk(w.c.nodes)
    ensures OpOk(Happen(w, e), Happen(w, e).ops[e.op])
  {
    var o := w.ops[e.op];
    var s := w.c.nodes[o.node];
    NodeInClog(w.c.nodes, w.c.h, o.node);
    ClogAnchored(w.c);
    if e.AnswerWrite? {
      AnsweredOk(w, e.op, None);
    } else {
      ReadIsOk(w, e.op, e.key);
      AnsweredOk(w, e.op, Some(ReadResult(e.key, Get(w.kv[o.node], e.key), s.applied)));
    }
  }

  lemma OtherOpsStay(w: World, w': World, op: nat, o: Op)
    requires OpsOk(w) && w' == w.(ops := w.ops[op := o]) && OpOk(w', o)
    ensures OpsOk(w')
  {
    EvolvesSelf(w.c);
    forall k | k in w'.ops ensures OpOk(w', w'.ops[k]) {
      if k != op {
        assert OpOk(w, w.ops[k]);
      }
    }
  }

  lemma AnswerKeeps(w: World, e: Event)
    requires Possible(w, e) && (e.AnswerWrite? || e.AnswerRead?) && WorldInv(w)
    ensures WorldInv(Happen(w, e)) && Evolves(w.c, Happen(w, e).c)
  {
    AnswerOk(w, e);
    EvolvesSelf(w.c);
    OtherOpsStay(w, Happen(w, e), e.op, Happen(w, e).ops[e.op]);
  }

  lemma BeginKeeps(w: World, op: nat, p: NodeId)
    requires Possible(w, BeginOp(op, p)) && WorldInv(w)
    ensures WorldInv(Happen(w, BeginOp(op, p))) && Evolves(w.c, Happen(w, BeginOp(op, p)).c)
  {
    EvolvesSelf(w.c);
    assert StoreOk(w.c.nodes[p], w.kv[p], w.c.h.clog, w.ahead[p]);
    OtherOpsStay(w, Happen(w, BeginOp(op, p)), op, Begun(p, |w.c.h.clog|));
  }

  lemma EventKeeps(w: World, e: Event)
    requires Possible(w, e) && WorldInv(w)
    ensures WorldInv(Happen(w, e)) && Evolves(w.c, Happen(w, e).c)
  {
    if e.Crash? {
      CrashKeeps(w, e.p, e.midApply);
    } else if e.ClusterStep? {
      OrdinaryStepKeeps(w, e);
    } else if e.BeginOp? {
      BeginKeeps(w, e.op, e.p);
    } else if e.ProposeOp? {
      ProposeEventKeeps(w, e.op, e.command);
    } else {
      AnswerKeeps(w, e);
    }
  }

  lemma OrdinaryStepKeeps(w: World, e: Event)
    requires Possible(w, e) && e.ClusterStep? && WorldInv(w)
    ensures WorldInv(Happen(w, e)) && Evolves(w.c, Happen(w, e).c)
  {
    StepKeeps(w.c, e.step);
    StepStores(w, e);
    StepOps(w, e);
  }

  // ---- Runs ----

  lemma NextInv(run: seq<World>, events: seq<Event>, i: nat)
    requires IsHistory(run, events) && i < |events| && WorldInv(run[i])
    ensures WorldInv(run[i + 1])
  {
    EventKeeps(run[i], events[i]);
  }

  lemma StartInv(run: seq<World>, events: seq<Event>)
    requires IsHistory(run, events)
    ensures WorldInv(run[0])
  {
    InitialHolds(run[0]);
  }

  lemma {:induction false} InvAlong(run: seq<World>, i: nat)
    requires i < |run| && WorldInv(run[0])
    requires forall k | 0 <= k < |run| - 1 && WorldInv(run[k]) :: WorldInv(run[k + 1])
    ensures WorldInv(run[i])
  {
    if i > 0 {
      InvAlong(run, i - 1);
    }
  }

  lemma HistoryInv(run: seq<World>, events: seq<Event>, i: nat)
    requires IsHistory(run, events) && i < |run|
    ensures WorldInv(run[i])
  {
    StartInv(run, events);
    forall k | 0 <= k < |run| - 1 && WorldInv(run[k]) ensures WorldInv(run[k + 1]) {
      NextInv(run, events, k);
    }
    InvAlong(run, i);
  }

  lemma HistoryOp(run: seq<World>, events: seq<Event>, i: nat, op: nat)
    requires IsHistory(run, events) && i < |run| && op in run[i].ops
    ensures OpOk(run[i], run[i].ops[op])
  {
    HistoryInv(run, events, i);
  }

  lemma HistoryStep(run: seq<World>, events: seq<Event>, i: nat)
    requires IsHistory(run, events) && i < |events|
    ensures |run[i].c.h.clog| <= |run[i + 1].c.h.clog|
  {
    HistoryInv(run, events, i);
    EventKeeps(run[i], events[i]);
  }

  /** The position in the committed log at which an answered operation takes effect. */
  function Point(o: Op): nat
    requires o.Done?
  {
    if o.read.Some? then o.read.value.at else o.index
  }

  /** The read returned the value its key has at its point, and its point lies between its beginning and its answer. */
  ghost predicate Timely(clog: Log, o: Op)
    requires o.Done? && o.read.Some?
  {
    && o.start <= o.read.value.at <= o.end <= |clog|
    && o.read.value.value == Get(Fold(clog[..o.read.value.at]), o.read.value.key)
  }

  /**
    Every answered operation whose proposed entry was still in place takes
    effect after the operation began and before it was answered: a write is
    the committed entry at its index, and a read returns the value its key has
    after the committed log up to its point. An answered operation whose entry
    was no longer in place was not committed at its index.
   */
  lemma Linearizable(run: seq<World>, events: seq<Event>, i: nat, op: nat)
    requires IsHistory(run, events) && i < |run| && op in run[i].ops && run[i].ops[op].Done?
    ensures var o, clog := run[i].ops[op], run[i].c.h.clog;
      && 0 < o.index <= o.end <= |clog|
      && (o.confirmed <==> clog[o.index - 1] == LogEntry(o.term, o.index, o.command))
      && (o.confirmed ==> o.start < Point(o) <= o.end)
      && (o.confirmed && o.read.Some? ==> Timely(clog, o))
  {
    HistoryOp(run, events, i, op);
  }

  /**
    A read, its entry in place or not, is timely if and only if the store had
    applied all that was committed when the read began. One that is not still
    returns the value of that moment unless an entry it missed writes its key.
   */
  lemma ReadTimelyExactly(run: seq<World>, events: seq<Event>, i: nat, op: nat)
    requires IsHistory(run, events) && i < |run| && op in run[i].ops && run[i].ops[op].Done?
    requires run[i].ops[op].read.Some?
    ensures var o, clog := run[i].ops[op], run[i].c.h.clog;
      && o.index <= o.read.value.at <= o.end <= |clog| && o.start <= o.end
      && (Timely(clog, o) <==> o.start <= o.read.value.at)
      && (o.read.value.at < o.start && !WrittenIn(clog, o.read.value.at, o.start, o.read.value.key) ==>
            o.read.value.value == Get(Fold(clog[..o.start]), o.read.value.key))
  {
    HistoryOp(run, events, i, op);
    var o, clog := run[i].ops[op], run[i].c.h.clog;
    var at := o.read.value.at;
    if at < o.start && !WrittenIn(clog, at, o.start, o.read.value.key) {
      UnwrittenIsKept(clog, at, o.start, o.read.value.key);
    }
  }

  /** A node that still leads the term it proposed in confirms the operation. */
  lemma StillLeadingConfirms(run: seq<World>, events: seq<Event>, i: nat, op: nat)
    requires IsHistory(run, events) && i < |run| && op in run[i].ops && run[i].ops[op].Proposed?
    requires run[i].ops[op].node in run[i].c.nodes
    requires run[i].c.nodes[run[i].ops[op].node].role.Leader?
    requires run[i].c.nodes[run[i].ops[op].node].term == run[i].ops[op].term
    ensures StillThere(run[i].c.nodes[run[i].ops[op].node], run[i].ops[op])
  {
    HistoryInv(run, events, i);
    assert OpOk(run[i], run[i].ops[op]);
    assert LeadsTerm(run[i].c.h, run[i].c.nodes[run[i].ops[op].node]);
  }

  /** A timely read returns what the last write of its key before its point wrote, and nothing if there is none. */
  lemma ReadReturnsLastWrite(run: seq<World>, events: seq<Event>, i: nat, op: nat, k: nat)
    requires IsHistory(run, events) && i < |run| && op in run[i].ops && run[i].ops[op].Done?
    requires run[i].ops[op].read.Some? && run[i].ops[op].start <= run[i].ops[op].read.value.at
    ensures var read, clog := run[i].ops[op].read.value, run[i].c.h.clog;
      && read.at <= |clog|
      && (!WrittenIn(clog, 0, read.at, read.key) ==> read.value == None)
      && (k < read.at && Writes(clog[k].command, read.key) && !WrittenIn(clog, k + 1, read.at, read.key) ==>
            read.value == if clog[k].command.Put? then Some(clog[k].command.value) else None)
  {
    ReadTimelyExactly(run, events, i, op);
    var read, clog := run[i].ops[op].read.value, run[i].c.h.clog;
    if !WrittenIn(clog, 0, read.at, read.key) {
      UnwrittenIsAbsent(clog, read.at, read.key);
    } else if k < read.at && Writes(clog[k].command, read.key) && !WrittenIn(clog, k + 1, read.at, read.key) {
      LastWriteWins(clog, read.at, read.key, k);
    }
  }

  // ---- What the node can tell ----

  /** The two nodes differ at most in entries that both have compacted. */
  predicate SameView(s: NodeState, s': NodeState) {
    && s' == s.(log := s'.log) && |s'.log| == |s.log| && s.base <= |s.log|
    && s'.log[s.base..] == s.log[s.base..] && LastTerm(s'.log[..s.base]) == LastTerm(s.log[..s.base])
  }

  /**
    From its snapshot index on, the node's own term lookup tells whether the
    proposed entry is still there. Below it the log alone does not: some node
    that looks the same has the other answer.
   */
  lemma NodeCanTell(s: NodeState, o: Op)
    requires o.Proposed? && 0 < o.index <= |s.log| && s.base <= |s.log|
    ensures o.index >= s.base ==> (StillThere(s, o) <==> TermAt(s, o.index) == o.term)
    ensures o.index < s.base ==> exists s' :: SameView(s, s') && (StillThere(s', o) <==> !StillThere(s, o))
  {
    if o.index < s.base {
      var i := o.index - 1;
      var entry := s.log[i].(term := if StillThere(s, o) then o.term + 1 else o.term);
      var s' := s.(log := s.log[i := entry]);
      assert s'.log[s.base..] == s.log[s.base..];
      assert s'.log[s.base - 1] == s.log[s.base - 1];
      assert SameView(s, s') && TermIn(s'.log, o.index) == entry.term;
    }
  }

  lemma HistoryAnchored(run: seq<World>, events: seq<Event>, i: nat, p: NodeId)
    requires IsHistory(run, events) && i < |run| && p in run[i].c.nodes
    ensures Anchored(run[i].c.h.logs, run[i].c.nodes[p].log)
    ensures forall term: nat | term in run[i].c.h.logs :: TermsUpTo(run[i].c.h.logs[term], term)
  {
    HistoryInv(run, events, i);
  }

  predicate Rising(log: Log) {
    forall i, j | 0 <= i <= j < |log| :: log[i].term <= log[j].term
  }

  /** The terms in a log never fall. */
  lemma HistoryRises(run: seq<World>, events: seq<Event>, i: nat, p: NodeId)
    requires IsHistory(run, events) && i < |run| && p in run[i].c.nodes
    ensures Rising(run[i].c.nodes[p].log)
  {
    HistoryAnchored(run, events, i, p);
    AnchoredRises(run[i].c.h, run[i].c.nodes[p].log);
  }

  lemma AnchoredRises(h: History, log: Log)
    requires Anchored(h.logs, log) && forall term: nat | term in h.logs :: TermsUpTo(h.logs[term], term)
    ensures Rising(log)
  {
    forall i, j | 0 <= i <= j < |log| ensures log[i].term <= log[j].term {
      TermsNeverDecrease(h, log, i, j);
    }
  }

  /** So a snapshot of a term before the proposal's means that the entry is not there. */
  lemma EarlierSnapshotTells(s: NodeState, o: Op)
    requires Rising(s.log) && o.Proposed? && 0 < o.index <= s.base <= |s.log|
    requires LastTerm(s.log[..s.base]) < o.term
    ensures !StillThere(s, o)
  {
    assert s.log[o.index - 1].term <= s.log[s.base - 1].term;
  }

  // ---- Real-time order ----

  /** The committed log is that long, and the operation, if begun, began no earlier. */
  ghost predicate StartsAfter(w: World, op: nat, length: nat) {
    && length <= |w.c.h.clog|
    && (op in w.ops && !w.ops[op].Lost? ==> w.ops[op].start >= length)
  }

  lemma EventStart(w: World, e: Event, op: nat, length: nat)
    requires Possible(w, e) && StartsAfter(w, op, length) && |w.c.h.clog| <= |Happen(w, e).c.h.clog|
    ensures StartsAfter(Happen(w, e), op, length)
  {
  }

  lemma NextStart(run: seq<World>, events: seq<Event>, i: nat, op: nat, length: nat)
    requires IsHistory(run, events) && i < |events| && StartsAfter(run[i], op, length)
    ensures StartsAfter(run[i + 1], op, length)
  {
    HistoryStep(run, events, i);
    EventStart(run[i], events[i], op, length);
  }

  lemma {:induction false} StartAlong(run: seq<World>, i: nat, j: nat, op: nat, length: nat)
    requires i <= j < |run| && StartsAfter(run[i], op, length)
    requires forall k | 0 <= k < |run| - 1 && StartsAfter(run[k], op, length) :: StartsAfter(run[k + 1], op, length)
    ensures StartsAfter(run[j], op, length)
    decreases j - i
  {
    if i < j {
      StartAlong(run, i, j - 1, op, length);
    }
  }

  lemma LaterStart(run: seq<World>, events: seq<Event>, i: nat, j: nat, op: nat)
    requires IsHistory(run, events) && i <= j < |run| && op !in run[i].ops
    ensures StartsAfter(run[j], op, |run[i].c.h.clog|)
  {
    var length := |run[i].c.h.clog|;
    forall k | 0 <= k < |run| - 1 && StartsAfter(run[k], op, length) ensures StartsAfter(run[k + 1], op, length) {
      NextStart(run, events, k, op, length);
    }
    StartAlong(run, i, j, op, length);
  }

  /**
    If one operation was answered before another began, it takes effect before
    it. So a read sees every write answered anywhere before the read began, and
    a read never sees less than an earlier read saw.
   */
  lemma RealTimeOrder(run: seq<World>, events: seq<Event>, i: nat, first: nat, j: nat, second: nat)
    requires IsHistory(run, events) && i <= j < |run|
    requires first in run[i].ops && run[i].ops[first].Done? && run[i].ops[first].confirmed
    requires second !in run[i].ops
    requires second in run[j].ops && run[j].ops[second].Done? && run[j].ops[second].confirmed
    ensures Point(run[i].ops[first]) < Point(run[j].ops[second])
  {
    Linearizable(run, events, i, first);
    Linearizable(run, events, j, second);
    LaterStart(run, events, i, j, second);
  }

  // ---- What the stores hold ----

  lemma HistoryStore(run: seq<World>, events: seq<Event>, i: nat, p: NodeId)
    requires IsHistory(run, events) && i < |run| && p in run[i].c.nodes
    ensures var w := run[i];
      && p in w.kv && p in w.ahead && StoreOk(w.c.nodes[p], w.kv[p], w.c.h.clog, w.ahead[p])
      && w.c.nodes[p].base <= w.c.nodes[p].applied && Agree(w.c.nodes[p].log, w.c.h.clog, w.c.nodes[p].commit)
  {
    HistoryInv(run, events, i);
    NodeInClog(run[i].c.nodes, run[i].c.h, p);
  }

  /** A store that has caught up with what it had seen before its last restart is the fold of what it has applied. */
  lemma StoresAreFolds(run: seq<World>, events: seq<Event>, i: nat, p: NodeId)
    requires IsHistory(run, events) && i < |run| && p in run[i].c.nodes
    ensures var w := run[i];
      && p in w.kv && p in w.ahead && w.c.nodes[p].applied <= |w.c.h.clog|
      && (w.ahead[p] <= w.c.nodes[p].applied ==> w.kv[p] == Fold(w.c.h.clog[..w.c.nodes[p].applied]))
  {
    HistoryStore(run, events, i, p);
    var w := run[i];
    if w.ahead[p] <= w.c.nodes[p].applied {
      ConvergedIsExact(w.kv[p], w.c.h.clog, w.c.nodes[p].applied, w.ahead[p]);
    }
  }

  lemma ReplayFromSnapshot(s: NodeState, kv: Kv, clog: Log, ahead: nat, seen: nat, seenKv: Kv, m: nat)
    requires StoreOk(s, kv, clog, ahead) && Converging(seenKv, clog, seen, ahead) && Agree(s.log, clog, s.commit)
    requires s.base <= seen && Max(ahead, seen) <= m <= s.commit
    ensures Replay(Reloaded(s, seenKv), s.log[s.base..m]) == Fold(clog[..m])
  {
    StoreRestarts(s, kv, clog, ahead, seen, seenKv);
    ReplayConverges(Reloaded(s, seenKv), clog, s.base, Max(ahead, seen), m);
    AgreeShorter(s.log, clog, s.commit, m);
    assert s.log[s.base..m] == s.log[..m][s.base..];
    assert clog[s.base..m] == clog[..m][s.base..];
  }

  lemma LeftBehindAt(w: World, p: NodeId, midApply: bool)
    requires p in w.c.nodes && p in w.kv && p in w.ahead && (midApply ==> CanApply(w.c.nodes[p]))
    requires StoreOk(w.c.nodes[p], w.kv[p], w.c.h.clog, w.ahead[p])
    requires Agree(w.c.nodes[p].log, w.c.h.clog, w.c.nodes[p].commit)
    ensures Converging(LeftBehind(w, p, midApply), w.c.h.clog, Seen(w, p, midApply), w.ahead[p])
  {
    if midApply {
      StoreApplies(w.c.nodes[p], w.kv[p], w.c.h.clog, w.ahead[p]);
    }
  }

  /**
    Wherever a node stops, even between applying an entry and marking it
    applied, replaying its log from its snapshot over what a restart loads
    gives the store of the committed log, at every committed index that covers
    what the store had seen.
   */
  lemma RestartRestores(run: seq<World>, events: seq<Event>, i: nat, p: NodeId, midApply: bool, m: nat)
    requires IsHistory(run, events) && i < |run| && p in run[i].c.nodes
    requires midApply ==> CanApply(run[i].c.nodes[p])
    ensures var w, s := run[i], run[i].c.nodes[p];
      && p in w.kv && p in w.ahead && s.base <= s.applied && s.commit <= |s.log| && s.commit <= |w.c.h.clog|
      && (Max(w.ahead[p], Seen(w, p, midApply)) <= m <= s.commit ==>
            Replay(Reloaded(s, LeftBehind(w, p, midApply)), s.log[s.base..m]) == Fold(w.c.h.clog[..m]))
  {
    HistoryStore(run, events, i, p);
    var w, s := run[i], run[i].c.nodes[p];
    LeftBehindAt(w, p, midApply);
    if Max(w.ahead[p], Seen(w, p, midApply)) <= m <= s.commit {
      ReplayFromSnapshot(s, w.kv[p], w.c.h.clog, w.ahead[p], Seen(w, p, midApply), LeftBehind(w, p, midApply), m);
    }
  }
}
