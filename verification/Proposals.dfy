/**
  The leader's side of replication and of client requests (raft/heartbeat.go,
  raft/proposal.go, client/http.go), run against the replies given.
 */
module Proposals {
  import opened RaftTypes
  import opened KvStore
  import opened KvStateMachines
  import opened RaftNodes
  import opened Rounds
  import opened Applying
  import M = NodeModel

  /** Builds one request per peer; none is sent if one cannot be built. */
  method BuildRequests(node: RaftNode) returns (sent: Option<map<NodeId, AppendRequest>>)
    requires node.Valid()
    ensures sent == if KnowsAll(node.Abs()) then Some(Requests(node.Abs())) else None
  {
    var requests: map<NodeId, AppendRequest> := map[];
    var i := 0;
    while i < |node.members.peers|
      invariant i <= |node.members.peers|
      invariant forall p :: p in requests <==> p in node.members.peers[..i]
      invariant forall p | p in requests :: M.KnowsPeer(node.Abs(), p) && requests[p] == M.BuildAppend(node.Abs(), p)
    {
      var peer := node.members.peers[i];
      var req := node.BuildAppendEntries(peer);
      if req.None? {
        return None;
      }
      requests := requests[peer := req.value];
      i := i + 1;
    }
    assert node.members.peers[..i] == node.members.peers;
    assert requests == Requests(node.Abs());
    return Some(requests);
  }

  /** Handles the replies of a round one by one, in the order of their arrival. */
  method HandleReplies(node: RaftNode, sent: map<NodeId, AppendRequest>, arrivals: seq<Arrival>, stop: nat)
    returns (ok: bool)
    requires node.Valid() && forall a | a in arrivals :: a.peer in sent
    modifies node
    ensures (node.Abs(), ok) == Handle(old(node.Abs()), sent, arrivals, stop)
    ensures node.Valid()
  {
    var i := 0;
    while i < |arrivals|
      invariant i <= |arrivals| && node.Valid()
      invariant Handle(node.Abs(), sent, arrivals[i..], stop) == Handle(old(node.Abs()), sent, arrivals, stop)
    {
      var arrival := arrivals[i];
      assert arrivals[i..][1..] == arrivals[i + 1..] && arrivals[i..][0] == arrival;
      i := i + 1;
      if arrival.reply.Some? {
        var reply := arrival.reply.value;
        var steppedDown := node.StepDownForHigherTerm(reply.term);
        if steppedDown {
          return true;
        }
        var known;
        if reply.success {
          known := node.RecordReplicationSuccess(arrival.peer, sent[arrival.peer].Last());
        } else {
          known := node.RecordReplicationFailure(arrival.peer);
        }
        if !known {
          return false;
        }
        if reply.success && stop > 0 && node.commitIndex >= stop {
          return true;
        }
      }
    }
    return true;
  }

  method ReplicateOnce(node: RaftNode, arrivals: seq<Arrival>, stop: nat) returns (ok: bool)
    requires node.Valid() && From(node.Abs().peers, arrivals)
    modifies node
    ensures (node.Abs(), ok) == Replicated(old(node.Abs()), arrivals, stop)
    ensures node.Valid()
  {
    node.EnsureLeaderProgress();
    var sent := BuildRequests(node);
    if sent.None? {
      return false;
    }
    ok := HandleReplies(node, sent.value, arrivals, stop);
  }

  /** Repeats rounds until the entry is committed, the node no longer leads or the rounds run out. */
  method AwaitCommit(node: RaftNode, index: nat, rounds: seq<seq<Arrival>>) returns (ok: bool)
    requires node.Valid() && forall r | r in rounds :: From(node.Abs().peers, r)
    modifies node
    ensures (node.Abs(), ok) == Awaited(old(node.Abs()), index, rounds)
    ensures node.Valid()
  {
    var i := 0;
    while node.commitIndex < index && node.lead.role.Leader? && i < |rounds|
      invariant i <= |rounds| && node.Valid()
      invariant forall r | r in rounds :: From(node.Abs().peers, r)
      invariant Awaited(node.Abs(), index, rounds[i..]) == Awaited(old(node.Abs()), index, rounds)
      decreases |rounds| - i
    {
      ReplicatedKeeps(node.Abs(), rounds[i], index);
      assert rounds[i..][1..] == rounds[i + 1..] && rounds[i..][0] == rounds[i];
      var done := ReplicateOnce(node, rounds[i], index);
      if !done {
        return false;
      }
      i := i + 1;
    }
    return node.commitIndex >= index;
  }

  /** The leader's own append; the members stay as they are. */
  method Append(node: RaftNode, command: Command) returns (entry: Option<LogEntry>)
    requires node.Valid()
    modifies node
    ensures entry.None? <==> M.RefusesAppend(old(node.Abs()), command)
    ensures entry.Some? ==> entry.value == M.NewEntry(old(node.Abs()), command)
    ensures node.Abs() == M.AppendLocal(old(node.Abs()), command) && node.Abs().peers == old(node.Abs()).peers
    ensures node.Valid()
  {
    AppendedKeeps(node.Abs(), command);
    entry := node.AppendLocal(command);
  }

  method Propose(node: RaftNode, command: Command, rounds: seq<seq<Arrival>>)
    returns (entry: Option<LogEntry>, ok: bool)
    requires node.Valid() && forall r | r in rounds :: From(node.Abs().peers, r)
    modifies node
    ensures (node.Abs(), entry, ok) == Proposal(old(node.Abs()), command, rounds)
    ensures node.Valid()
  {
    if !node.lead.role.Leader? {
      return None, false;
    }
    entry := Append(node, command);
    if entry.None? {
      return None, false;
    }
    ok := AwaitCommit(node, entry.value.index, rounds);
  }

  lemma ProposalInStep(s: M.NodeState, kv: Kv, command: Command, rounds: seq<seq<Arrival>>)
    requires InStep(s, kv) && forall r | r in rounds :: From(s.peers, r)
    ensures InStep(Proposal(s, command, rounds).0, kv)
  {
    ProposalKeeps(s, command, rounds);
    FoldAgrees(s.log, Proposal(s, command, rounds).0.log, s.applied);
  }

  /**
    The write path: propose, and on success apply everything committed. The
    store stays in step, and holds the write if it succeeded.
   */
  method ProposeAndApply(node: RaftNode, sm: KvStateMachine, command: Command, rounds: seq<seq<Arrival>>)
    returns (ok: bool)
    requires node.Valid() && sm.Valid() && forall r | r in rounds :: From(node.Abs().peers, r)
    modifies node, sm
    ensures var (s, entry, committed) := Proposal(old(node.Abs()), command, rounds);
      && ok == committed
      && (node.Abs(), sm.data) == if ok then M.ApplyAll(s, old(sm.data)) else (s, old(sm.data))
    ensures InStep(old(node.Abs()), old(sm.data)) ==>
      && InStep(node.Abs(), sm.data)
      && (ok ==> node.Abs().applied > |old(node.Abs()).log|
                 && node.Abs().log == old(node.Abs()).log + [M.NewEntry(old(node.Abs()), command)])
    ensures node.Valid() && sm.Valid()
  {
    ghost var s, kv := node.Abs(), sm.data;
    if InStep(s, kv) {
      ProposalInStep(s, kv, command, rounds);
      ProposalKeeps(s, command, rounds);
      ApplyAllInStep(Proposal(s, command, rounds).0, kv);
    }
    var entry;
    entry, ok := Propose(node, command, rounds);
    if ok {
      node.ApplyCommitted(sm);
    }
  }

  /**
    The read path: a no-op barrier, then the key is looked up. An answered read
    has applied every entry up to its own no-op and returns what the last write
    of the key among them left; one that is not answered changes no store.
   */
  method HandleGet(node: RaftNode, sm: KvStateMachine, key: string, rounds: seq<seq<Arrival>>)
    returns (ok: bool, value: Option<string>)
    requires node.Valid() && sm.Valid() && forall r | r in rounds :: From(node.Abs().peers, r)
    modifies node, sm
    ensures node.Valid() && sm.Valid()
    ensures var (s, entry, committed) := Proposal(old(node.Abs()), Noop, rounds);
      && ok == committed
      && (!ok ==> node.Abs() == s && sm.data == old(sm.data) && value == None)
      && (ok ==> (node.Abs(), sm.data) == M.ApplyAll(s, old(sm.data)) && value == Get(sm.data, key))
      && (ok && old(node.Abs()).commit <= |old(node.Abs()).log| ==> node.Abs().applied >= entry.value.index)
    ensures InStep(old(node.Abs()), old(sm.data)) ==>
      && InStep(node.Abs(), sm.data)
      && (ok ==> node.Abs().applied > |old(node.Abs()).log|
                 && IsLastWrite(value, node.Abs().log, node.Abs().applied, key))
  {
    ok, value := false, None;
    ghost var s := node.Abs();
    ProposalKeeps(s, Noop, rounds);
    if node.lead.role.Leader? {
      ok := ProposeAndApply(node, sm, Noop, rounds);
      if ok {
        value := sm.Lookup(key);
        if s.commit <= |s.log| {
          AppliesEverything(Proposal(s, Noop, rounds).0, old(sm.data));
        }
        if InStep(s, old(sm.data)) {
          LookupFindsLastWrite(node.Abs(), sm.data, key);
        }
      }
    }
  }
}
