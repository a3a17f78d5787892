/**
  A round of replication (raft/heartbeat.go) and a proposal that repeats it
  until its entry is committed (raft/proposal.go), as functions of the replies
  in the order in which they arrive; `None` is a call that failed.
 */
module Rounds {
  import opened RaftTypes
  import opened NodeModel

  datatype Arrival = Arrival(peer: NodeId, reply: Option<AppendReply>)

  predicate From(peers: seq<NodeId>, arrivals: seq<Arrival>) {
    forall a | a in arrivals :: a.peer in peers
  }

  /** The requests of a round, all built before any reply is looked at. */
  function Requests(s: NodeState): map<NodeId, AppendRequest> {
    map p | p in s.peers :: BuildAppend(s, p)
  }

  /** What the replies do to the node, and whether the round ends without an error. */
  function Handle(s: NodeState, sent: map<NodeId, AppendRequest>, arrivals: seq<Arrival>, stop: nat): (NodeState, bool)
    requires forall a | a in arrivals :: a.peer in sent
    decreases |arrivals|
  {
    if |arrivals| == 0 then (s, true)
    else
      var peer, reply := arrivals[0].peer, arrivals[0].reply;
      if reply.None? then Handle(s, sent, arrivals[1..], stop)
      else if reply.value.term > s.term then (StepDown(s, reply.value.term), true)
      else if !KnowsPeer(s, peer) then (s, false)
      else if reply.value.success then
        var s1 := RecordSuccess(s, peer, sent[peer].Last());
        if stop > 0 && s1.commit >= stop then (s1, true) else Handle(s1, sent, arrivals[1..], stop)
      else Handle(RecordFailure(s, peer), sent, arrivals[1..], stop)
  }

  predicate KnowsAll(s: NodeState) {
    forall p | p in s.peers :: KnowsPeer(s, p)
  }

  function Replicated(s: NodeState, arrivals: seq<Arrival>, stop: nat): (NodeState, bool)
    requires From(s.peers, arrivals)
  {
    var s0 := EnsureProgress(s);
    if KnowsAll(s0) then Handle(s0, Requests(s0), arrivals, stop) else (s0, false)
  }

  /** Nothing is applied or compacted, and a commit index within the log stays within it. */
  predicate Within(s: NodeState, s': NodeState) {
    s'.applied == s.applied && s'.base == s.base && (s.commit <= |s.log| ==> s'.commit <= |s'.log|)
  }

  /** A round leaves the members and the log alone, and never takes the commit index back. */
  lemma {:induction false} HandleKeeps(s: NodeState, sent: map<NodeId, AppendRequest>, arrivals: seq<Arrival>, stop: nat)
    requires forall a | a in arrivals :: a.peer in sent
    ensures var s' := Handle(s, sent, arrivals, stop).0;
      s'.peers == s.peers && s'.log == s.log && s'.commit >= s.commit && s'.term >= s.term
      && (s'.role.Leader? ==> s.role.Leader? && s'.term == s.term) && Within(s, s')
    decreases |arrivals|
  {
    if |arrivals| > 0 {
      var peer, reply := arrivals[0].peer, arrivals[0].reply;
      if reply.None? {
        HandleKeeps(s, sent, arrivals[1..], stop);
      } else if reply.value.term <= s.term && KnowsPeer(s, peer) {
        if reply.value.success {
          HandleKeeps(RecordSuccess(s, peer, sent[peer].Last()), sent, arrivals[1..], stop);
        } else {
          HandleKeeps(RecordFailure(s, peer), sent, arrivals[1..], stop);
        }
      }
    }
  }

  lemma ReplicatedKeeps(s: NodeState, arrivals: seq<Arrival>, stop: nat)
    requires From(s.peers, arrivals)
    ensures var s' := Replicated(s, arrivals, stop).0;
      s'.peers == s.peers && s'.log == s.log && s'.commit >= s.commit && s'.term >= s.term
      && (s'.role.Leader? ==> s.role.Leader? && s'.term == s.term) && Within(s, s')
  {
    var s0 := EnsureProgress(s);
    if KnowsAll(s0) {
      HandleKeeps(s0, Requests(s0), arrivals, stop);
    }
  }

  /** Repeat rounds until the index is committed; running out of rounds is the deadline of the proposal. */
  function Awaited(s: NodeState, index: nat, rounds: seq<seq<Arrival>>): (NodeState, bool)
    requires forall r | r in rounds :: From(s.peers, r)
    decreases |rounds|
  {
    if s.commit >= index then (s, true)
    else if !s.role.Leader? || |rounds| == 0 then (s, false)
    else
      ReplicatedKeeps(s, rounds[0], index);
      var (s1, ok) := Replicated(s, rounds[0], index);
      if ok then Awaited(s1, index, rounds[1..]) else (s1, false)
  }

  /** The node after a proposal, the entry it appended and whether the proposal succeeded. */
  function Proposal(s: NodeState, command: Command, rounds: seq<seq<Arrival>>): (NodeState, Option<LogEntry>, bool)
    requires forall r | r in rounds :: From(s.peers, r)
  {
    if !s.role.Leader? || RefusesAppend(s, command) then (s, None, false)
    else
      var (s1, ok) := Awaited(AppendLocal(s, command), |s.log| + 1, rounds);
      (s1, Some(NewEntry(s, command)), ok)
  }

  lemma AppendedKeeps(s: NodeState, command: Command)
    ensures var s' := AppendLocal(s, command); s'.peers == s.peers && s'.role == s.role && s'.term == s.term
  {
  }

  lemma {:induction false} AwaitedKeeps(s: NodeState, index: nat, rounds: seq<seq<Arrival>>)
    requires forall r | r in rounds :: From(s.peers, r)
    ensures var (s', ok) := Awaited(s, index, rounds);
      && s'.peers == s.peers && s'.log == s.log && s'.term >= s.term && s'.commit >= s.commit
      && (ok ==> s'.commit >= index) && Within(s, s')
    decreases |rounds|
  {
    if s.commit < index && s.role.Leader? && |rounds| > 0 {
      ReplicatedKeeps(s, rounds[0], index);
      var (s1, ok) := Replicated(s, rounds[0], index);
      if ok {
        AwaitedKeeps(s1, index, rounds[1..]);
      }
    }
  }

  /**
    A proposal that succeeds, with no other procedure acting on the node, has
    its entry at the end of the log and within the commit index; one that fails
    may have left the entry behind.
   */
  lemma ProposalKeeps(s: NodeState, command: Command, rounds: seq<seq<Arrival>>)
    requires forall r | r in rounds :: From(s.peers, r)
    ensures var (s', entry, ok) := Proposal(s, command, rounds);
      && s'.peers == s.peers && s'.commit >= s.commit && Within(s, s')
      && (entry.Some? <==> s.role.Leader? && !RefusesAppend(s, command))
      && s'.log == (if entry.Some? then s.log + [entry.value] else s.log)
      && (ok ==> entry.Some? && s'.commit >= entry.value.index == |s'.log| && entry.value.term == s.term)
  {
    if s.role.Leader? && !RefusesAppend(s, command) {
      AwaitedKeeps(AppendLocal(s, command), |s.log| + 1, rounds);
    }
  }

  // ---- Applying ----

  /** Applying what is committed leaves nothing committed unapplied. */
  lemma {:induction false} AppliesEverything(s: NodeState, kv: Kv)
    requires s.base <= s.applied <= s.commit <= |s.log|
    ensures var s' := ApplyAll(s, kv).0; s'.applied == s'.commit >= s.commit && s'.log == s.log
    decreases |s.log| - s.applied
  {
    if CanApply(s) {
      var (s1, kv1) := ApplyNext(s, kv);
      AppliesEverything(s1, kv1);
    }
  }
}
