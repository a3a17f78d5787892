/** Compaction is invisible: what a node answers, sends, commits and applies does not depend on its snapshot index. */
module Compaction {
  import opened RaftTypes
  import opened LogOps
  import opened LogLemmas
  import opened NodeModel

  /** The same node with another snapshot. */
  function At(s: NodeState, base: nat, snapshot: Option<Kv>): NodeState {
    s.(base := base, snapshot := snapshot)
  }

  lemma {:induction false} CommitAt(s: NodeState, base: nat, snapshot: Option<Kv>, index: nat)
    requires s.base <= s.commit && base <= s.commit
    ensures CommitFrom(At(s, base, snapshot), index) == CommitFrom(s, index)
  {
    if index > s.commit && !Committable(s, index) {
      CommitAt(s, base, snapshot, index - 1);
    }
  }

  lemma AdvanceCommitAt(s: NodeState, base: nat, snapshot: Option<Kv>)
    requires s.base <= s.commit && base <= s.commit
    ensures AdvanceCommit(At(s, base, snapshot)) == At(AdvanceCommit(s), base, snapshot)
  {
    CommitAt(s, base, snapshot, |s.log|);
  }

  lemma MembershipAt(s: NodeState, command: Command, base: nat, snapshot: Option<Kv>)
    requires s.base <= s.commit && base <= s.commit && command.IsMembership()
    ensures ApplyMembership(At(s, base, snapshot), command) == At(ApplyMembership(s, command), base, snapshot)
  {
    var s1 := s.(configured := true);
    var s2 := if command.AddPeer? then AddMember(s1, command.peer) else RemoveMember(s1, command.peer);
    AdvanceCommitAt(s2, base, snapshot);
  }

  lemma ApplyNextAt(s: NodeState, kv: Kv, base: nat, snapshot: Option<Kv>)
    requires s.base <= s.applied && base <= s.applied && CanApply(s)
    ensures CanApply(At(s, base, snapshot))
    ensures ApplyNext(At(s, base, snapshot), kv) == (At(ApplyNext(s, kv).0, base, snapshot), ApplyNext(s, kv).1)
  {
    var command := s.log[s.applied].command;
    if command.IsMembership() {
      MembershipAt(s, command, base, snapshot);
    }
  }

  /** Applying goes through the same entries, in the same order, to the same store. */
  lemma {:induction false} ApplyAllAt(s: NodeState, kv: Kv, base: nat, snapshot: Option<Kv>)
    requires s.base <= s.applied && base <= s.applied
    ensures ApplyAll(At(s, base, snapshot), kv) == (At(ApplyAll(s, kv).0, base, snapshot), ApplyAll(s, kv).1)
    decreases |s.log| - s.applied
  {
    if CanApply(s) {
      ApplyNextAt(s, kv, base, snapshot);
      var (s1, kv1) := ApplyNext(s, kv);
      ApplyAllAt(s1, kv1, base, snapshot);
    }
  }

  lemma RequestsAt(s: NodeState, base: nat, snapshot: Option<Kv>)
    requires s.base <= base
    ensures forall i: nat | i >= base :: TermAt(At(s, base, snapshot), i) == TermAt(s, i)
    ensures forall peer | Lookup(s.nextIndex, peer) > base ::
      BuildAppend(At(s, base, snapshot), peer) == BuildAppend(s, peer)
    ensures forall term :: ElectionRequest(At(s, base, snapshot), term) == ElectionRequest(s, term)
  {
  }

  /**
    A compacted node has the same last index and term, sees the same term at
    every index from its snapshot on, builds the same request for every peer it
    need not bring up from before the snapshot, stands for election with the
    same request, advances its commit index alike, and applies the same entries.
   */
  lemma CompactKeepsView(s: NodeState, snapshot: Kv, kv: Kv)
    requires s.base <= s.applied <= s.commit <= |s.log|
    ensures var s' := Compact(s, snapshot);
      && s' == At(s, s'.base, s'.snapshot) && s.base <= s'.base <= s.applied
      && (forall i: nat | i >= s'.base :: TermAt(s', i) == TermAt(s, i))
      && (forall peer | Lookup(s.nextIndex, peer) > s'.base :: BuildAppend(s', peer) == BuildAppend(s, peer))
      && (forall term :: ElectionRequest(s', term) == ElectionRequest(s, term))
      && AdvanceCommit(s') == At(AdvanceCommit(s), s'.base, s'.snapshot)
      && ApplyAll(s', kv) == (At(ApplyAll(s, kv).0, s'.base, s'.snapshot), ApplyAll(s, kv).1)
  {
    var s' := Compact(s, snapshot);
    RequestsAt(s, s'.base, s'.snapshot);
    AdvanceCommitAt(s, s'.base, s'.snapshot);
    ApplyAllAt(s, kv, s'.base, s'.snapshot);
  }

  lemma PlacedAlike(log: Log, base: nat, prev: nat, prevTerm: nat, entries: Log)
    requires base <= |log| && (prev > 0 ==> prevTerm > 0) && Accepts(log, base, prev, prevTerm)
    requires forall k | 0 <= k < |entries| && prev + k < base :: Matched(log, prev, entries, k)
    ensures Accepts(log, 0, prev, prevTerm) && Placed(log, base, prev, entries) == Placed(log, 0, prev, entries)
    ensures LastPlaced(log, base, prev, entries) == LastPlaced(log, 0, prev, entries)
  {
    CompactionInvisible(log, base, prev, prevTerm, entries);
    PlacedCases(log, base, prev, entries);
    PlacedCases(log, 0, prev, entries);
  }

  lemma AnsweredAlike(s: NodeState, req: AppendRequest)
    requires s.base <= |s.log| && AnswerAppend(s, req).1.success
    requires Accepts(s.log, 0, req.prevIndex, req.prevTerm)
    requires Placed(s.log, 0, req.prevIndex, req.entries) == Placed(s.log, s.base, req.prevIndex, req.entries)
    requires LastPlaced(s.log, 0, req.prevIndex, req.entries) == LastPlaced(s.log, s.base, req.prevIndex, req.entries)
    ensures AnswerAppend(At(s, 0, None), req) == (At(AnswerAppend(s, req).0, 0, None), AnswerAppend(s, req).1)
  {
  }

  lemma SuccessIsAccepted(s: NodeState, req: AppendRequest)
    requires s.base <= |s.log| && AnswerAppend(s, req).1.success
    ensures Accepts(s.log, s.base, req.prevIndex, req.prevTerm)
  {
  }

  /**
    An append that a compacted node accepts, the same node uncompacted accepts
    too, and both end with the same log and commit index, when the request
    agrees with the compacted entries it overlaps.
   */
  lemma AppendAt(s: NodeState, req: AppendRequest)
    requires req.WellFormed() && s.base <= |s.log| && AnswerAppend(s, req).1.success
    requires forall k | 0 <= k < |req.entries| && req.prevIndex + k < s.base :: Matched(s.log, req.prevIndex, req.entries, k)
    ensures AnswerAppend(At(s, 0, None), req) == (At(AnswerAppend(s, req).0, 0, None), AnswerAppend(s, req).1)
  {
    SuccessIsAccepted(s, req);
    PlacedAlike(s.log, s.base, req.prevIndex, req.prevTerm, req.entries);
    AnsweredAlike(s, req);
  }
}
