/**
  The procedures that drive a node from outside its lock: elections
  (raft/election.go), the apply loop and the restart (cmd/node/main.go). The
  replies a procedure receives are given in the order they arrive; `None` is a
  call that failed.
 */
module Protocols {
  import opened RaftTypes
  import opened LogOps
  import opened KvStateMachines
  import opened RaftNodes
  import opened KvStore
  import opened Applying
  import M = NodeModel

  // ---- Counting votes ----

  datatype Tally = Won | Short | Overtaken(term: nat)

  /** Count replies until the votes suffice or a reply carries a later term. */
  function Count(replies: seq<Option<VoteReply>>, term: nat, votes: nat, needed: nat): Tally {
    if votes >= needed then Won
    else if |replies| == 0 then Short
    else if replies[0].None? then Count(replies[1..], term, votes, needed)
    else if replies[0].value.term > term then Overtaken(replies[0].value.term)
    else Count(replies[1..], term, votes + if replies[0].value.granted then 1 else 0, needed)
  }

  function Granted(replies: seq<Option<VoteReply>>): nat {
    if |replies| == 0 then 0
    else (if replies[0].Some? && replies[0].value.granted then 1 else 0) + Granted(replies[1..])
  }

  /** Votes suffice exactly when the replies, none of a later term, grant enough of them. */
  lemma {:induction false} CountExact(replies: seq<Option<VoteReply>>, term: nat, votes: nat, needed: nat)
    requires forall r | r in replies && r.Some? :: r.value.term <= term
    ensures Count(replies, term, votes, needed) == if votes + Granted(replies) >= needed then Won else Short
  {
    if votes < needed && |replies| > 0 {
      CountExact(replies[1..], term,
                 votes + if replies[0].Some? && replies[0].value.granted then 1 else 0, needed);
    }
  }

  /** A count never overtaken by a later term was won only with enough granted votes. */
  lemma {:induction false} WonNeedsVotes(replies: seq<Option<VoteReply>>, term: nat, votes: nat, needed: nat)
    requires Count(replies, term, votes, needed) == Won
    ensures votes + Granted(replies) >= needed
  {
    if votes < needed {
      WonNeedsVotes(replies[1..], term,
                    votes + if replies[0].Some? && replies[0].value.granted then 1 else 0, needed);
    }
  }

  function Needed(s: M.NodeState): nat {
    Majority(|s.peers| + 1)
  }

  /** The vote-counting loop: step down on a later term, stop on a majority. */
  method CountVotes(node: RaftNode, replies: seq<Option<VoteReply>>) returns (won: bool)
    requires node.Valid()
    modifies node
    ensures var s := old(node.Abs());
      match Count(replies, s.term, 1, Needed(s))
      case Won => won && node.Abs() == s
      case Short => !won && node.Abs() == s
      case Overtaken(term) => !won && node.Abs() == M.StepDown(s, term)
    ensures node.Valid()
  {
    ghost var s := node.Abs();
    var votes, needed, i := 1, Majority(|node.members.peers| + 1), 0;
    while i < |replies| && votes < needed
      invariant i <= |replies| && node.Valid() && node.Abs() == s
      invariant Count(replies, s.term, 1, needed) == Count(replies[i..], s.term, votes, needed)
    {
      assert replies[i..][1..] == replies[i + 1..];
      if replies[i].Some? {
        var steppedDown := node.StepDownForHigherTerm(replies[i].value.term);
        if steppedDown {
          return false;
        }
        if replies[i].value.granted {
          votes := votes + 1;
        }
      }
      i := i + 1;
    }
    return votes >= needed;
  }

  /** Asks before raising the term: unless a majority grants, the node stays as it is. */
  method PreVoteElection(node: RaftNode, replies: seq<Option<VoteReply>>) returns (won: bool)
    requires node.Valid()
    modifies node
    ensures var s := old(node.Abs());
      if !s.selfMember then !won && node.Abs() == s
      else match Count(replies, s.term, 1, Needed(s))
           case Won => won && node.Abs() == s
           case Short => !won && node.Abs() == s
           case Overtaken(term) => !won && node.Abs() == M.StepDown(s, term)
    ensures node.Valid()
  {
    if !node.members.selfMember {
      return false;
    }
    won := CountVotes(node, replies);
  }

  /** The node after an election in which it heard these replies, and whether it leads. */
  function Elected(s: M.NodeState, preVotes: seq<Option<VoteReply>>, votes: seq<Option<VoteReply>>): (M.NodeState, bool) {
    if !s.selfMember then (s, false)
    else match Count(preVotes, s.term, 1, Needed(s))
         case Short => (s, false)
         case Overtaken(term) => (M.StepDown(s, term), false)
         case Won =>
           var s1 := M.BecomeCandidate(s);
           match Count(votes, s1.term, 1, Needed(s1))
           case Short => (s1, false)
           case Overtaken(term) => (M.StepDown(s1, term), false)
           case Won => (M.Promote(s1, s1.term), true)
  }

  method StartElection(node: RaftNode, preVotes: seq<Option<VoteReply>>, votes: seq<Option<VoteReply>>)
    returns (won: bool)
    requires node.Valid()
    modifies node
    ensures (node.Abs(), won) == Elected(old(node.Abs()), preVotes, votes)
    ensures node.Valid()
  {
    var preVoteWon := PreVoteElection(node, preVotes);
    if !preVoteWon {
      return false;
    }
    node.BecomeCandidate();
    var elected := CountVotes(node, votes);
    if !elected {
      return false;
    }
    won := node.PromoteCandidate(node.ballot.currentTerm);
  }

  /**
    An election ends with a leader only if majorities granted both rounds, and
    raises the term only if a majority granted the first or a reply carried a
    later one.
   */
  lemma ElectionNeedsMajorities(s: M.NodeState, preVotes: seq<Option<VoteReply>>, votes: seq<Option<VoteReply>>)
    ensures var (s', won) := Elected(s, preVotes, votes);
      && (won <==> s'.role.Leader? && s'.term == s.term + 1)
      && (won ==> 1 + Granted(preVotes) >= Needed(s) && 1 + Granted(votes) >= Needed(s))
      && (s'.term > s.term && (forall r | r in preVotes && r.Some? :: r.value.term <= s.term) ==>
            1 + Granted(preVotes) >= Needed(s))
      && (won ==> s'.log == s.log && s'.votedFor == s.id)
  {
    if s.selfMember && Count(preVotes, s.term, 1, Needed(s)) == Won {
      WonNeedsVotes(preVotes, s.term, 1, Needed(s));
      if Count(votes, s.term + 1, 1, Needed(s)) == Won {
        WonNeedsVotes(votes, s.term + 1, 1, Needed(s));
      }
    } else if forall r | r in preVotes && r.Some? :: r.value.term <= s.term {
      CountExact(preVotes, s.term, 1, Needed(s));
    }
  }

  // ---- Apply loop ----

  const SNAPSHOT_THRESHOLD := 64

  /** The node once its turn has looked at the snapshot threshold. */
  function Snapshotted(s: M.NodeState, kv: Kv): M.NodeState {
    if s.applied >= s.base + SNAPSHOT_THRESHOLD then M.Compact(s, kv) else s
  }

  /**
    A turn leaves nothing committed unapplied and the store in step, fewer
    entries after the snapshot than the threshold unless it failed, and a new
    snapshot only at the threshold, of exactly the entries it replaces.
   */
  predicate TurnDone(before: M.NodeState, s: M.NodeState, kv: Kv, ok: bool) {
    && InStep(s, kv) && s.applied == s.commit >= before.commit
    && (ok ==> s.applied < s.base + SNAPSHOT_THRESHOLD)
    && (s.base > before.base ==>
          s.base >= before.base + SNAPSHOT_THRESHOLD && s.snapshot == Some(Fold(s.log[..s.base])))
  }

  /** Whether the node can be compacted when it is due. */
  predicate Compactable(s: M.NodeState) {
    s.applied >= s.base + SNAPSHOT_THRESHOLD ==> M.TermAt(s, s.applied) != 0
  }

  lemma TurnInStep(before: M.NodeState, stored: Kv)
    requires InStep(before, stored)
    ensures var (s, kv) := M.ApplyAll(before, stored); TurnDone(before, Snapshotted(s, kv), kv, Compactable(s))
  {
    ApplyAllInStep(before, stored);
    var (s, kv) := M.ApplyAll(before, stored);
    CompactInStep(s, kv);
  }

  method SnapshotWhenDue(node: RaftNode, sm: KvStateMachine) returns (ok: bool)
    requires node.Valid() && sm.Valid()
    modifies node
    ensures node.Abs() == Snapshotted(old(node.Abs()), sm.data) && ok == Compactable(old(node.Abs()))
    ensures node.Valid() && sm.Valid()
  {
    var should := node.ShouldSnapshot(SNAPSHOT_THRESHOLD);
    ok := true;
    if should {
      var snapshot := sm.Snapshot();
      ok := node.Compact(snapshot);
    }
  }

  /** One turn of the apply loop: apply what is committed, and snapshot when enough has been applied. */
  method ApplyTurn(node: RaftNode, sm: KvStateMachine) returns (ok: bool)
    requires node.Valid() && sm.Valid()
    modifies node, sm
    ensures var (s, kv) := M.ApplyAll(old(node.Abs()), old(sm.data));
      sm.data == kv && node.Abs() == Snapshotted(s, kv) && ok == Compactable(s)
    ensures InStep(old(node.Abs()), old(sm.data)) ==> TurnDone(old(node.Abs()), node.Abs(), sm.data, ok)
    ensures node.Valid() && sm.Valid()
  {
    if InStep(node.Abs(), sm.data) {
      TurnInStep(node.Abs(), sm.data);
    }
    node.ApplyCommitted(sm);
    ok := SnapshotWhenDue(node, sm);
  }

  // ---- Restart ----

  function ImageOf(s: M.NodeState): PersistentState
    requires s.base <= |s.log|
  {
    PersistentState(s.term, s.votedFor, s.peers, Some(s.selfMember), s.base, LastTerm(s.log[..s.base]), s.snapshot,
                    s.log[s.base..])
  }

  /**
    Reloading what was saved rebuilds the node as it was, but for what every
    restart resets, exactly when its peer list was not empty or the list given
    at startup is: an empty saved list is read back as absent.
   */
  lemma ReloadRebuilds(s: M.NodeState, startup: seq<NodeId>)
    requires s.base <= |s.log|
    ensures var r := Loaded(s.id, startup, ImageOf(s), s.log[..s.base]);
      && r.(peers := s.peers) == M.Restart(s)
      && (r == M.Restart(s) <==> s.peers != [] || startup == [])
  {
    assert s.log[..s.base] + s.log[s.base..] == s.log;
  }

  /** The store always holds enough to rebuild the term, the vote, the log, the snapshot and its position. */
  method Reload(node: RaftNode, startup: seq<NodeId>) returns (r: RaftNode)
    requires node.Valid()
    ensures fresh(r) && r.Valid()
    ensures r.Abs().(peers := node.Abs().peers, selfMember := node.Abs().selfMember, configured := true)
            == M.Restart(node.Abs())
    ensures node.saved.selfMember.None? && node.saved.peers == [] ==> r.Abs().peers == startup && r.Abs().selfMember
    ensures node.saved.selfMember.Some? && node.saved.peers == node.Abs().peers ==>
      (r.Abs() == M.Restart(node.Abs()) <==> node.Abs().peers != [] || startup == [])
  {
    r := new RaftNode(node.id, startup, node.saved, node.compacted);
  }

  /** The restart order: the node, then the stored map, then the snapshot over it if there is one. */
  method RestartNode(id: NodeId, startup: seq<NodeId>, stored: PersistentState, ghost discarded: Log, bucket: Kv)
    returns (node: RaftNode, sm: KvStateMachine)
    requires |discarded| == stored.lastIncludedIndex && stored.lastIncludedTerm == LastTerm(discarded)
    requires Numbered(discarded + stored.log)
    ensures fresh(node) && fresh(sm) && node.Valid() && sm.Valid()
    ensures node.Abs() == Loaded(id, startup, stored, discarded)
    ensures sm.data == if stored.snapshot.Some? then stored.snapshot.value else bucket
  {
    node := new RaftNode(id, startup, stored, discarded);
    sm := new KvStateMachine.Open(Some(bucket));
    sm.RestoreSnapshot(node.mark.snapshot);
  }
}
