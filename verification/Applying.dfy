/**
  What applying the committed entries leaves: the store of exactly those
  entries, and the members they name (raft/node.go, cmd/node/main.go).
 */
module Applying {
  import opened RaftTypes
  import opened NodeModel
  import opened KvStore
  import opened MembershipChanges

  predicate InOrder(s: NodeState) {
    s.base <= s.applied <= s.commit <= |s.log|
  }

  // ---- One entry ----

  lemma MembershipInOrder(s: NodeState, command: Command)
    requires InOrder(s) && command.IsMembership()
    ensures var s' := ApplyMembership(s, command);
      InOrder(s') && s'.log == s.log && s'.applied == s.applied && s'.base == s.base && s'.commit >= s.commit
  {
  }

  lemma NextInOrder(s: NodeState, kv: Kv)
    requires InOrder(s) && CanApply(s)
    ensures var (s', kv') := ApplyNext(s, kv);
      InOrder(s') && s'.base == s.base && s'.commit >= s.commit && kv' == ApplyCommand(kv, s.log[s.applied].command)
  {
    var command := s.log[s.applied].command;
    if command.IsMembership() {
      MembershipInOrder(s, command);
    }
  }

  // ---- The store ----

  /** Replaying a stretch of a log can start with its first entry. */
  lemma {:induction false} ReplayFrom(kv: Kv, log: Log, lo: nat, hi: nat)
    requires lo < hi <= |log|
    ensures Replay(kv, log[lo..hi]) == Replay(ApplyCommand(kv, log[lo].command), log[lo + 1..hi])
    decreases hi
  {
    var all, rest := log[lo..hi], log[lo + 1..hi];
    if lo + 1 == hi {
      assert all == [log[lo]] && all[..0] == [];
    } else {
      assert all[..|all| - 1] == log[lo..hi - 1] && rest[..|rest| - 1] == log[lo + 1..hi - 1];
      assert all[|all| - 1] == log[hi - 1] == rest[|rest| - 1];
      ReplayFrom(kv, log, lo, hi - 1);
    }
  }

  /**
    Applying everything committed puts each of these entries into the store
    once and in the order of the log, and stops with nothing committed left.
   */
  lemma {:induction false} ApplyAllReplays(s: NodeState, kv: Kv)
    requires InOrder(s)
    ensures var (s', kv') := ApplyAll(s, kv);
      && InOrder(s') && s.applied <= s'.applied == s'.commit && s.commit <= s'.commit
      && s'.log == s.log && s'.base == s.base
      && kv' == Replay(kv, s.log[s.applied..s'.applied])
    decreases |s.log| - s.applied
  {
    if CanApply(s) {
      NextInOrder(s, kv);
      var (s1, kv1) := ApplyNext(s, kv);
      ApplyAllReplays(s1, kv1);
      ReplayFrom(kv, s.log, s.applied, ApplyAll(s, kv).0.applied);
    } else {
      assert s.log[s.applied..s.applied] == [];
    }
  }

  /** The node's indices are in order, and its store is the fold of what it has applied. */
  predicate InStep(s: NodeState, kv: Kv) {
    InOrder(s) && kv == Fold(s.log[..s.applied])
  }

  lemma ReplayFold(log: Log, lo: nat, hi: nat)
    requires lo <= hi <= |log|
    ensures Replay(Fold(log[..lo]), log[lo..hi]) == Fold(log[..hi])
  {
    ReplayConverges(Fold(log[..lo]), log, lo, lo, hi);
  }

  /** A store in step with its node stays so, with every committed entry in it. */
  lemma ApplyAllInStep(s: NodeState, kv: Kv)
    requires InStep(s, kv)
    ensures var (s', kv') := ApplyAll(s, kv); 
      InStep(s', kv') && s'.applied == s'.commit >= s.commit && s'.log == s.log && s'.base == s.base
  {
    ApplyAllReplays(s, kv);
    ReplayFold(s.log, s.applied, ApplyAll(s, kv).0.applied);
  }

  /** A store that is ahead of its node is in step once the applied index has reached what the store had seen. */
  lemma ApplyAllCatchesUp(s: NodeState, kv: Kv, ahead: nat)
    requires InOrder(s) && Converging(kv, s.log, s.applied, ahead) && ahead <= s.commit
    ensures var (s', kv') := ApplyAll(s, kv); InStep(s', kv') && s'.applied == s'.commit
  {
    ApplyAllReplays(s, kv);
    ReplayConverges(kv, s.log, s.applied, ahead, ApplyAll(s, kv).0.applied);
  }

  /** The value is what the last write of the key among the first `n` entries left, and none if there is none. */
  ghost predicate IsLastWrite(value: Option<string>, log: Log, n: nat, key: string)
    requires n <= |log|
  {
    && (!WrittenIn(log, 0, n, key) ==> value == None)
    && (forall k | 0 <= k < n && Writes(log[k].command, key) && !WrittenIn(log, k + 1, n, key) ::
          value == Effect(log[k].command))
  }

  /** A lookup in a store that is in step finds exactly that. */
  lemma LookupFindsLastWrite(s: NodeState, kv: Kv, key: string)
    requires InStep(s, kv)
    ensures IsLastWrite(Get(kv, key), s.log, s.applied, key)
  {
    if !WrittenIn(s.log, 0, s.applied, key) {
      UnwrittenIsAbsent(s.log, s.applied, key);
    }
    forall k: nat | k < s.applied && Writes(s.log[k].command, key) && !WrittenIn(s.log, k + 1, s.applied, key)
      ensures Get(kv, key) == Effect(s.log[k].command)
    {
      LastWriteWins(s.log, s.applied, key, k);
    }
  }

  // ---- The members ----

  /** The members after the changes in a log. */
  function MembersAfter(members: set<NodeId>, log: Log): set<NodeId> {
    if |log| == 0 then members
    else
      var before, command := MembersAfter(members, log[..|log| - 1]), log[|log| - 1].command;
      if command.AddPeer? then before + {command.peer}
      else if command.RemovePeer? then before - {command.peer}
      else before
  }

  lemma {:induction false} MembersFrom(members: set<NodeId>, log: Log, lo: nat, hi: nat)
    requires lo < hi <= |log|
    ensures MembersAfter(members, log[lo..hi]) == MembersAfter(MembersAfter(members, log[lo..lo + 1]), log[lo + 1..hi])
    decreases hi
  {
    var all, rest := log[lo..hi], log[lo + 1..hi];
    if lo + 1 == hi {
      assert rest == [];
    } else {
      assert all[..|all| - 1] == log[lo..hi - 1] && rest[..|rest| - 1] == log[lo + 1..hi - 1];
      assert all[|all| - 1] == log[hi - 1] == rest[|rest| - 1];
      MembersFrom(members, log, lo, hi - 1);
    }
  }

  lemma NextMembers(s: NodeState, kv: Kv)
    requires CanApply(s) && Distinct(s)
    ensures var s' := ApplyNext(s, kv).0;
      Distinct(s') && Members(s') == MembersAfter(Members(s), s.log[s.applied..s.applied + 1])
  {
    var command, one := s.log[s.applied].command, s.log[s.applied..s.applied + 1];
    assert one == [s.log[s.applied]] && one[..0] == [];
    if command.IsMembership() {
      ChangesOneMember(s, command);
    }
  }

  /** The members are those from before with every applied change made, in the order of the log. */
  lemma {:induction false} ApplyAllMembers(s: NodeState, kv: Kv)
    requires InOrder(s) && Distinct(s)
    ensures var s' := ApplyAll(s, kv).0;
      && s.applied <= s'.applied <= |s.log| && Distinct(s')
      && Members(s') == MembersAfter(Members(s), s.log[s.applied..s'.applied])
    decreases |s.log| - s.applied
  {
    if CanApply(s) {
      NextInOrder(s, kv);
      NextMembers(s, kv);
      var (s1, kv1) := ApplyNext(s, kv);
      ApplyAllReplays(s1, kv1);
      ApplyAllMembers(s1, kv1);
      MembersFrom(Members(s), s.log, s.applied, ApplyAll(s, kv).0.applied);
    } else {
      assert s.log[s.applied..s.applied] == [];
    }
  }

  // ---- Snapshots and restarts ----

  /** Compacting keeps the store in step and leaves a snapshot of exactly the entries discarded. */
  lemma CompactInStep(s: NodeState, kv: Kv)
    requires InStep(s, kv)
    ensures var s' := Compact(s, kv);
      InStep(s', kv) && (s'.base > s.base ==> s'.base == s.applied && s'.snapshot == Some(Fold(s.log[..s'.base])))
  {
  }

  /**
    A node that stops and starts again from its snapshot, and hears that
    everything up to an index is committed, applies its way back to the store
    of the log up to there.
   */
  lemma RestartAndApply(s: NodeState, commit: nat)
    requires InOrder(s) && s.snapshot == Some(Fold(s.log[..s.base])) && s.base <= commit <= |s.log|
    ensures var r := Restart(s).(commit := commit);
      var (s', kv') := ApplyAll(r, s.snapshot.value);
      InStep(s', kv') && s'.applied == s'.commit >= commit && s'.log == s.log
  {
    ApplyAllInStep(Restart(s).(commit := commit), s.snapshot.value);
  }
}
