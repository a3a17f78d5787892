/** One membership change at a time, and why consecutive configurations cannot disagree. */
module MembershipChanges {
  import opened RaftTypes
  import opened NodeModel
  import opened Cluster
  import opened Evolution
  import opened CommitSteps

  /** The node's configuration lists every member once and keeps itself out of the peer list. */
  predicate Distinct(s: NodeState) {
    NoDuplicates(s.peers) && s.id !in s.peers
  }

  function Members(s: NodeState): set<NodeId> {
    PeerSet(s.peers) + if s.selfMember then {s.id} else {}
  }

  lemma ClusterSizeCounts(s: NodeState)
    requires Distinct(s)
    ensures ClusterSize(s) == |Members(s)|
  {
    PeerCount(s.peers);
    assert s.id !in PeerSet(s.peers);
  }

  /** Enough for a majority is exactly more than half. */
  lemma MajorityExactly(size: nat, votes: nat)
    ensures votes >= Majority(size) <==> 2 * votes > size
  {
  }

  // ---- Serialised ----

  /**
    A membership entry is appended only when every membership entry already in
    the log, retained or compacted, is applied, hence committed.
   */
  lemma ChangesAreSerialised(s: NodeState, command: Command, i: nat)
    requires s.base <= s.applied <= s.commit
    requires command.IsMembership() && AppendLocal(s, command).log != s.log
    requires i < |s.log| && s.log[i].command.IsMembership()
    ensures i + 1 <= s.applied <= s.commit
  {
    assert i >= s.applied ==> HasPendingMembershipChange(s);
  }

  /** And a change is refused if and only if there is another that the node has not applied. */
  lemma AppendRefusedExactly(s: NodeState, command: Command)
    requires s.base <= s.applied
    ensures AppendLocal(s, command).log == s.log <==>
      command.IsMembership() && exists i | s.applied <= i < |s.log| :: s.log[i].command.IsMembership()
    ensures AppendLocal(s, command).log == s.log ==> AppendLocal(s, command) == s
  {
    assert |AppendOnly(s, command).log| > |s.log|;
  }

  /** So a log the node extended itself never holds two changes it has not applied. */
  lemma OneChangeAtATime(s: NodeState, command: Command, i: nat, j: nat)
    requires s.base <= s.applied <= s.commit
    requires command.IsMembership() && AppendLocal(s, command).log != s.log
    requires var log := AppendLocal(s, command).log;
      s.applied <= i < |log| && s.applied <= j < |log| && log[i].command.IsMembership() && log[j].command.IsMembership()
    ensures i == j
  {
    if i < |s.log| { ChangesAreSerialised(s, command, i); }
    if j < |s.log| { ChangesAreSerialised(s, command, j); }
  }

  // ---- One member at a time ----

  lemma {:induction false} WithoutRemoves(peers: seq<NodeId>, id: NodeId)
    ensures PeerSet(Without(peers, id)) == PeerSet(peers) - {id}
    ensures NoDuplicates(peers) ==> NoDuplicates(Without(peers, id))
    ensures forall q | q in Without(peers, id) :: q in peers
  {
    if |peers| > 0 {
      var rest, last := peers[..|peers| - 1], peers[|peers| - 1];
      WithoutRemoves(rest, id);
      assert PeerSet(peers) == PeerSet(rest) + {last};
      var added := if last == id then [] else [last];
      assert PeerSet(Without(rest, id) + added) == PeerSet(Without(rest, id)) + PeerSet(added);
      assert NoDuplicates(peers) ==> last !in rest;
    }
  }

  lemma AddsOne(s: NodeState, id: NodeId)
    requires Distinct(s)
    ensures Distinct(AddMember(s, id)) && Members(AddMember(s, id)) == Members(s) + {id}
  {
    if id != s.id && id !in s.peers {
      assert PeerSet(s.peers + [id]) == PeerSet(s.peers) + {id};
    }
  }

  lemma RemovesOne(s: NodeState, id: NodeId)
    requires Distinct(s)
    ensures Distinct(RemoveMember(s, id)) && Members(RemoveMember(s, id)) == Members(s) - {id}
  {
    WithoutRemoves(s.peers, id);
  }

  /** Applying a change adds or removes exactly the named member and keeps the configuration well formed. */
  lemma ChangesOneMember(s: NodeState, command: Command)
    requires Distinct(s) && command.IsMembership()
    ensures Distinct(ApplyMembership(s, command))
    ensures Members(ApplyMembership(s, command)) ==
            if command.AddPeer? then Members(s) + {command.peer} else Members(s) - {command.peer}
  {
    if command.AddPeer? {
      AddsOne(s.(configured := true), command.peer);
    } else {
      RemovesOne(s.(configured := true), command.peer);
    }
  }

  /** Majorities of two configurations that differ by one member meet. */
  lemma AdjacentMajoritiesMeet(c: set<NodeId>, c': set<NodeId>, x: NodeId, q: set<NodeId>, q': set<NodeId>)
    requires c' == c + {x} || c' == c - {x}
    requires q <= c && |q| >= Majority(|c|) && q' <= c' && |q'| >= Majority(|c'|)
    ensures q * q' != {}
  {
    Smaller(q + q', c + c');
    assert |q + q'| == |q| + |q'| - |q * q'|;
    if c' == c + {x} {
      assert c + c' == c';
      assert x in c ==> c' == c;
    } else {
      assert c + c' == c;
      assert x !in c ==> c' == c;
    }
  }

  /** A majority counted before a change and one counted after it share a member. */
  lemma ConfigurationsOverlap(s: NodeState, command: Command, q: set<NodeId>, q': set<NodeId>)
    requires Distinct(s) && command.IsMembership()
    requires q <= Members(s) && |q| >= Majority(ClusterSize(s))
    requires var s' := ApplyMembership(s, command); q' <= Members(s') && |q'| >= Majority(ClusterSize(s'))
    ensures q * q' != {}
  {
    ChangesOneMember(s, command);
    ClusterSizeCounts(s);
    ClusterSizeCounts(ApplyMembership(s, command));
    AdjacentMajoritiesMeet(Members(s), Members(ApplyMembership(s, command)), command.peer, q, q');
  }
}
