/** No two proposals of clients share a place in the log. */
module Positions {
  import opened RaftTypes
  import opened Cluster
  import opened Invariants
  import opened Service
  import opened ServiceInvariant
  import opened Linearizability

  /** The operation has, or had when it was answered, a proposed entry. */
  predicate HasPlace(o: Op) {
    o.Proposed? || o.Done?
  }

  ghost predicate Apart(ops: map<nat, Op>) {
    forall a, b | a in ops && b in ops && a != b && HasPlace(ops[a]) && HasPlace(ops[b]) ::
      ops[a].term != ops[b].term || ops[a].index != ops[b].index
  }

  /** The operation's entry is in the log of its term's leader. */
  ghost predicate InLeaderLog(h: History, o: Op) {
    HasPlace(o) ==> o.term in h.logs && o.index <= |h.logs[o.term]|
  }

  lemma TakesNewPlace(w: World, op: nat, command: Command)
    requires Possible(w, ProposeOp(op, command)) && Apart(w.ops)
    requires LeadsTerm(w.c.h, w.c.nodes[w.ops[op].node])
    requires forall o | o in w.ops :: InLeaderLog(w.c.h, w.ops[o])
    ensures Apart(Happen(w, ProposeOp(op, command)).ops)
  {
    var w' := Happen(w, ProposeOp(op, command));
    forall o | o in w.ops && o != op && HasPlace(w.ops[o])
      ensures w.ops[o].term != w'.ops[op].term || w.ops[o].index != w'.ops[op].index
    {
      assert InLeaderLog(w.c.h, w.ops[o]);
    }
  }

  lemma OthersKeepPlaces(w: World, e: Event)
    requires Possible(w, e) && Apart(w.ops) && !e.ProposeOp?
    ensures Apart(Happen(w, e).ops)
  {
    var ops, ops' := w.ops, Happen(w, e).ops;
    forall o | o in ops' && HasPlace(ops'[o])
      ensures o in ops && HasPlace(ops[o]) && ops'[o].term == ops[o].term && ops'[o].index == ops[o].index
    {
    }
  }

  lemma AllInLeaderLog(w: World)
    requires OpsOk(w)
    ensures forall o | o in w.ops :: InLeaderLog(w.c.h, w.ops[o])
  {
    forall o | o in w.ops ensures InLeaderLog(w.c.h, w.ops[o]) {
      assert OpOk(w, w.ops[o]);
    }
  }

  lemma ProposerIsLeader(w: World, e: Event)
    requires Possible(w, e) && e.ProposeOp?
    ensures w.c.nodes[w.ops[e.op].node].role.Leader?
  {
  }

  lemma LeaderLeads(c: State, p: NodeId)
    requires Inv(c) && p in c.nodes && c.nodes[p].role.Leader?
    ensures LeadsTerm(c.h, c.nodes[p])
  {
  }

  lemma EventKeepsApart(w: World, e: Event)
    requires Possible(w, e) && Apart(w.ops)
    requires e.ProposeOp? ==> LeadsTerm(w.c.h, w.c.nodes[w.ops[e.op].node])
    requires forall o | o in w.ops :: InLeaderLog(w.c.h, w.ops[o])
    ensures Apart(Happen(w, e).ops)
  {
    if e.ProposeOp? {
      TakesNewPlace(w, e.op, e.command);
    } else {
      OthersKeepPlaces(w, e);
    }
  }

  lemma NextApart(run: seq<World>, events: seq<Event>, i: nat)
    requires IsHistory(run, events) && i < |events| && Apart(run[i].ops)
    ensures Apart(run[i + 1].ops)
  {
    HistoryInv(run, events, i);
    AllInLeaderLog(run[i]);
    if events[i].ProposeOp? {
      ProposerIsLeader(run[i], events[i]);
      LeaderLeads(run[i].c, run[i].ops[events[i].op].node);
    }
    EventKeepsApart(run[i], events[i]);
  }

  lemma {:induction false} ApartAlong(run: seq<World>, i: nat)
    requires i < |run| && Apart(run[0].ops)
    requires forall k | 0 <= k < |run| - 1 && Apart(run[k].ops) :: Apart(run[k + 1].ops)
    ensures Apart(run[i].ops)
  {
    if i > 0 {
      ApartAlong(run, i - 1);
    }
  }

  /** In every history, no two operations were proposed for the same term and index. */
  lemma ProposalsApart(run: seq<World>, events: seq<Event>, i: nat)
    requires IsHistory(run, events) && i < |run|
    ensures Apart(run[i].ops)
  {
    forall k | 0 <= k < |run| - 1 && Apart(run[k].ops) ensures Apart(run[k + 1].ops) {
      NextApart(run, events, k);
    }
    ApartAlong(run, i);
  }

  lemma ConfirmedTerm(run: seq<World>, events: seq<Event>, i: nat, op: nat)
    requires IsHistory(run, events) && i < |run| && op in run[i].ops && run[i].ops[op].Done? && run[i].ops[op].confirmed
    ensures var o, clog := run[i].ops[op], run[i].c.h.clog;
      0 < o.index <= |clog| && clog[o.index - 1].term == o.term
  {
    Linearizable(run, events, i, op);
  }

  lemma PairApart(run: seq<World>, events: seq<Event>, i: nat, a: nat, b: nat)
    requires IsHistory(run, events) && i < |run| && a in run[i].ops && b in run[i].ops && a != b
    requires HasPlace(run[i].ops[a]) && HasPlace(run[i].ops[b])
    ensures run[i].ops[a].term != run[i].ops[b].term || run[i].ops[a].index != run[i].ops[b].index
  {
    ProposalsApart(run, events, i);
  }

  /** So no two confirmed operations are the same committed entry, and confirmed writes are ordered even if they overlap. */
  lemma ConfirmedApart(run: seq<World>, events: seq<Event>, i: nat, a: nat, b: nat)
    requires IsHistory(run, events) && i < |run| && a in run[i].ops && b in run[i].ops && a != b
    requires run[i].ops[a].Done? && run[i].ops[a].confirmed && run[i].ops[b].Done? && run[i].ops[b].confirmed
    ensures run[i].ops[a].index != run[i].ops[b].index
    ensures run[i].ops[a].read.None? && run[i].ops[b].read.None? ==> Point(run[i].ops[a]) != Point(run[i].ops[b])
  {
    PairApart(run, events, i, a, b);
    ConfirmedTerm(run, events, i, a);
    ConfirmedTerm(run, events, i, b);
  }
}
