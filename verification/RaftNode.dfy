/**
  The node itself: the fields and lock-protected methods of raft/node.go,
  raft/election.go and raft/heartbeat.go, each shown to be the operation of the
  same name on the abstract node.

  The node retains only the entries after its snapshot; the ghost field
  `compacted` remembers the ones it has discarded.
 */
module RaftNodes {
  import opened RaftTypes
  import opened LogOps
  import M = NodeModel
  import opened LogLemmas
  import opened KvStateMachines

  type Progress = M.Progress

  /** What survives a restart. A never saved state has no membership flag. */
  datatype PersistentState = PersistentState(
    currentTerm: nat,
    votedFor: NodeId,
    peers: seq<NodeId>,
    selfMember: Option<bool>,
    lastIncludedIndex: nat,
    lastIncludedTerm: nat,
    snapshot: Option<Kv>,
    log: Log)

  const NEVER_SAVED := PersistentState(0, NONE, [], None, 0, 0, None, [])

  // The fields of the node, grouped by what changes together.
  datatype Membership = Membership(peers: seq<NodeId>, selfMember: bool, configured: bool)
  datatype Ballot = Ballot(currentTerm: nat, votedFor: NodeId)
  datatype Leadership = Leadership(role: Role, leaderId: NodeId, nextIndex: Progress, matchIndex: Progress)
  datatype Mark = Mark(lastIncludedIndex: nat, lastIncludedTerm: nat, snapshot: Option<Kv>)

  /** A node that knows of no leader and keeps no progress. */
  function Idle(role: Role): Leadership {
    Leadership(role, NONE, None, None)
  }

  /** The node that a persisted state, and the entries its snapshot replaced, stand for. */
  function Loaded(id: NodeId, startup: seq<NodeId>, stored: PersistentState, discarded: Log): M.NodeState {
    M.NodeState(id, if stored.peers != [] then stored.peers else startup,
              stored.selfMember.None? || stored.selfMember.value,
              |startup| > 0 || stored.peers != [] || stored.selfMember.Some?, Follower, NONE,
              stored.currentTerm, stored.votedFor, discarded + stored.log,
              stored.lastIncludedIndex, stored.snapshot,
              stored.lastIncludedIndex, stored.lastIncludedIndex, None, None)
  }

  method NormalizeEntries(start: nat, entries: Log) returns (out: Log)
    ensures out == Renumber(start, entries)
  {
    out := [];
    var i := 0;
    while i < |entries|
      invariant i <= |entries| && out == Renumber(start, entries)[..i]
    {
      out := out + [entries[i].(index := start + i)];
      i := i + 1;
    }
  }

  method DropPeer(peers: seq<NodeId>, id: NodeId) returns (out: seq<NodeId>)
    ensures out == M.Without(peers, id)
  {
    out := [];
    var i := 0;
    while i < |peers|
      invariant i <= |peers| && out == M.Without(peers[..i], id)
    {
      assert peers[..i + 1][..i] == peers[..i];
      if peers[i] != id {
        out := out + [peers[i]];
      }
      i := i + 1;
    }
    assert peers[..i] == peers;
  }

  class RaftNode {
    const id: NodeId
    var members: Membership
    var ballot: Ballot
    var lead: Leadership
    var log: Log
    var mark: Mark
    var commitIndex: nat
    var lastApplied: nat
    var saved: PersistentState
    ghost var compacted: Log

    ghost function Full(): Log
      reads this`compacted, this`log
    {
      compacted + log
    }

    /** The abstract node. */
    ghost function Abs(): M.NodeState
      reads this
    {
      M.NodeState(id, members.peers, members.selfMember, members.configured, lead.role, lead.leaderId,
                ballot.currentTerm, ballot.votedFor, Full(), mark.lastIncludedIndex, mark.snapshot,
                commitIndex, lastApplied, lead.nextIndex, lead.matchIndex)
    }

    /** The retained log continues the discarded entries. */
    ghost predicate LogSound()
      reads this`compacted, this`log, this`mark
    {
      |compacted| == mark.lastIncludedIndex && mark.lastIncludedTerm == LastTerm(compacted) && Numbered(Full())
    }

    ghost predicate Sound()
      reads this
    {
      && LogSound()
      && mark.lastIncludedIndex <= lastApplied <= commitIndex
      && (lead.nextIndex.Some? <==> lead.matchIndex.Some?)
    }

    /** The store holds the node's term, vote, log and snapshot, and its members once it was written. */
    ghost predicate Durable()
      reads this
    {
      && saved.currentTerm == ballot.currentTerm && saved.votedFor == ballot.votedFor && saved.log == log
      && saved.lastIncludedIndex == mark.lastIncludedIndex && saved.lastIncludedTerm == mark.lastIncludedTerm
      && saved.snapshot == mark.snapshot
      && (saved.selfMember.Some? ==>
            saved.selfMember.value == members.selfMember && (saved.peers == members.peers || saved.peers == []))
    }

    ghost predicate Valid()
      reads this
    {
      Sound() && Durable()
    }

    /** Loads the persisted state; an empty persisted peer list gives way to the startup list. */
    constructor (id: NodeId, startup: seq<NodeId>, stored: PersistentState, ghost discarded: Log)
      requires |discarded| == stored.lastIncludedIndex && stored.lastIncludedTerm == LastTerm(discarded)
      requires Numbered(discarded + stored.log)
      ensures Abs() == Loaded(id, startup, stored, discarded)
      ensures Valid() && saved == stored && compacted == discarded
    {
      this.id := id;
      members := Membership(if stored.peers != [] then stored.peers else startup,
                            stored.selfMember.None? || stored.selfMember.value,
                            |startup| > 0 || stored.peers != [] || stored.selfMember.Some?);
      ballot := Ballot(stored.currentTerm, stored.votedFor);
      lead := Idle(Follower);
      log := stored.log;
      mark := Mark(stored.lastIncludedIndex, stored.lastIncludedTerm, stored.snapshot);
      commitIndex, lastApplied := stored.lastIncludedIndex, stored.lastIncludedIndex;
      saved, compacted := stored, discarded;
    }

    /** What a save writes. */
    function Image(): PersistentState
      reads this
    {
      PersistentState(ballot.currentTerm, ballot.votedFor, members.peers, Some(members.selfMember),
                      mark.lastIncludedIndex, mark.lastIncludedTerm, mark.snapshot, log)
    }

    // ---- Reads ----

    function FirstLogIndex(): (r: nat)
      reads this`mark
    {
      mark.lastIncludedIndex + 1
    }

    function LastLogIndex(): (r: nat)
      reads this`compacted, this`log, this`mark
      ensures LogSound() ==> r == |Full()|
    {
      if |log| == 0 then mark.lastIncludedIndex
      else assert Full()[|Full()| - 1] == log[|log| - 1]; log[|log| - 1].index
    }

    function LastLogTerm(): (r: nat)
      requires LogSound()
      reads this`compacted, this`log, this`mark
      ensures r == LastTerm(Full())
    {
      if |log| == 0 then assert Full() == compacted; mark.lastIncludedTerm
      else assert Full()[|Full()| - 1] == log[|log| - 1]; log[|log| - 1].term
    }

    predicate ContainsLogIndex(index: nat)
      requires LogSound()
      reads this`compacted, this`log, this`mark
      ensures ContainsLogIndex(index) <==> mark.lastIncludedIndex < index <= |Full()|
    {
      FirstLogIndex() <= index <= LastLogIndex()
    }

    function LogTermAt(index: nat): (r: nat)
      requires LogSound()
      reads this`compacted, this`log, this`mark
      ensures r == VisibleTerm(Full(), mark.lastIncludedIndex, index)
    {
      if index == 0 then 0
      else if index == mark.lastIncludedIndex then
        assert Full()[index - 1] == compacted[index - 1]; mark.lastIncludedTerm
      else if !ContainsLogIndex(index) then 0
      else assert Full()[index - 1] == log[index - FirstLogIndex()]; log[index - FirstLogIndex()].term
    }

    function EntriesFrom(start: nat): (r: Log)
      requires LogSound()
      reads this`compacted, this`log, this`mark
      ensures var from := Max(start, mark.lastIncludedIndex + 1);
        r == if from <= |Full()| then Full()[from - 1..] else []
    {
      var from := if start <= mark.lastIncludedIndex then FirstLogIndex() else start;
      if from > LastLogIndex() then []
      else
        assert Full()[from - 1..] == log[from - FirstLogIndex()..];
        log[from - FirstLogIndex()..]
    }

    predicate IsMember(member: NodeId)
      reads this
      ensures IsMember(member) <==> M.IsMember(Abs(), member)
    {
      if member == id then members.selfMember
      else member in members.peers || (members.selfMember && !members.configured)
    }

    function ClusterSize(): nat
      reads this`members
    {
      |members.peers| + if members.selfMember then 1 else 0
    }

    lemma BuiltFrom(peer: NodeId, next: nat, prevTerm: nat, entries: Log)
      requires LogSound() && lead.nextIndex.Some? && peer in lead.nextIndex.value
      requires next == Max(lead.nextIndex.value[peer], mark.lastIncludedIndex + 1)
      requires prevTerm == VisibleTerm(Full(), mark.lastIncludedIndex, next - 1)
      requires entries == if next <= |Full()| then Full()[next - 1..] else []
      ensures AppendRequest(ballot.currentTerm, id, next - 1, prevTerm, entries, commitIndex)
        == M.BuildAppend(Abs(), peer)
    {
      assert next == M.SendFrom(Abs(), peer) && prevTerm == M.TermAt(Abs(), next - 1);
    }

    method BuildAppendEntries(peer: NodeId) returns (req: Option<AppendRequest>)
      requires Sound()
      ensures req.Some? <==> M.KnowsPeer(Abs(), peer)
      ensures req.Some? ==> req.value == M.BuildAppend(Abs(), peer)
    {
      if lead.nextIndex.None? || peer !in lead.nextIndex.value {
        return None;
      }
      var next := lead.nextIndex.value[peer];
      if next <= mark.lastIncludedIndex {
        next := FirstLogIndex();
      }
      var prevTerm := LogTermAt(next - 1);
      var entries := EntriesFrom(next);
      BuiltFrom(peer, next, prevTerm, entries);
      req := Some(AppendRequest(ballot.currentTerm, id, next - 1, prevTerm, entries, commitIndex));
    }

    // ---- Elections ----

    method BecomeCandidate()
      requires Valid()
      modifies this
      ensures Abs() == M.BecomeCandidate(old(Abs()))
      ensures Valid()
    {
      lead := Idle(Candidate);
      ballot := Ballot(ballot.currentTerm + 1, id);
      saved := Image();
    }

    method StepDownForHigherTerm(term: nat) returns (steppedDown: bool)
      requires Valid()
      modifies this
      ensures Abs() == M.StepDown(old(Abs()), term)
      ensures steppedDown <==> term > old(ballot.currentTerm)
      ensures Valid()
    {
      if term <= ballot.currentTerm {
        return false;
      }
      ballot := Ballot(term, NONE);
      lead := Idle(Follower);
      saved := Image();
      return true;
    }

    /** Saves only when the term or the vote was touched. */
    method RequestVote(req: VoteRequest) returns (reply: VoteReply)
      requires Valid()
      modifies this
      ensures (Abs(), reply) == M.AnswerVote(old(Abs()), req)
      ensures Valid()
    {
      reply := VoteReply(ballot.currentTerm, false);
      if req.term < ballot.currentTerm || !members.selfMember || !IsMember(req.candidate) {
        return;
      }
      var changed := false;
      if req.term > ballot.currentTerm {
        ballot := Ballot(req.term, NONE);
        lead := Idle(Follower);
        changed := true;
      }
      reply := VoteReply(ballot.currentTerm, false);
      var upToDate := IsLogAtLeastUpToDate(req.lastIndex, req.lastTerm, LastLogIndex(), LastLogTerm());
      if (ballot.votedFor == NONE || ballot.votedFor == req.candidate) && upToDate {
        ballot := ballot.(votedFor := req.candidate);
        reply := VoteReply(ballot.currentTerm, true);
        changed := true;
      }
      if changed {
        saved := Image();
      }
    }

    method PreVote(req: VoteRequest) returns (reply: VoteReply)
      requires Sound()
      ensures reply == M.AnswerPreVote(Abs(), req)
    {
      reply := VoteReply(ballot.currentTerm, false);
      if req.term < ballot.currentTerm || !members.selfMember || !IsMember(req.candidate) {
        return;
      }
      reply := VoteReply(ballot.currentTerm,
                         IsLogAtLeastUpToDate(req.lastIndex, req.lastTerm, LastLogIndex(), LastLogTerm()));
    }

    method PromoteCandidate(term: nat) returns (promoted: bool)
      requires Valid()
      modifies this
      ensures Abs() == M.Promote(old(Abs()), term)
      ensures promoted <==> M.CanPromote(old(Abs()), term)
      ensures Valid()
    {
      if !lead.role.Candidate? || ballot.currentTerm != term || !members.selfMember {
        return false;
      }
      lead := Leadership(Leader, id, lead.nextIndex, lead.matchIndex);
      InitLeaderProgress();
      saved := Image();
      return true;
    }

    // ---- Commit rule ----

    /** The nested loops: downwards over the log, and over the peers to count who holds an index. */
    method AdvanceCommit()
      requires Sound()
      modifies this`commitIndex
      ensures Abs() == M.AdvanceCommit(old(Abs()))
      ensures Sound()
    {
      if !lead.role.Leader? || !members.selfMember {
        return;
      }
      var index: nat := LastLogIndex();
      while index > commitIndex
        invariant index <= |Full()| && commitIndex == old(commitIndex)
        invariant M.CommitFrom(old(Abs()), |Full()|) == M.CommitFrom(old(Abs()), index)
      {
        if LogTermAt(index) == ballot.currentTerm {
          var replicated := CountHolders(index);
          if replicated >= Majority(ClusterSize()) {
            commitIndex := index;
            return;
          }
        }
        index := index - 1;
      }
    }

    method CountHolders(index: nat) returns (replicated: nat)
      ensures replicated == 1 + M.Holders(members.peers, lead.matchIndex, index)
    {
      replicated := 1;
      var k := 0;
      while k < |members.peers|
        invariant k <= |members.peers|
        invariant replicated == 1 + M.Holders(members.peers[..k], lead.matchIndex, index)
      {
        assert members.peers[..k + 1][..k] == members.peers[..k];
        if M.Lookup(lead.matchIndex, members.peers[k]) >= index {
          replicated := replicated + 1;
        }
        k := k + 1;
      }
      assert members.peers[..k] == members.peers;
    }

    method InitLeaderProgress()
      requires Sound()
      modifies this`lead, this`commitIndex
      ensures Abs() == M.AdvanceCommit(M.InitProgress(old(Abs())))
      ensures Sound()
    {
      var next := LastLogIndex() + 1;
      lead := lead.(nextIndex := Some(map p | p in members.peers :: next),
                    matchIndex := Some(map p | p in members.peers :: 0));
      AdvanceCommit();
    }

    // ---- Replication ----

    /** The first offset beyond the snapshot whose entry is missing or conflicts. */
    method FindCut(prev: nat, entries: Log) returns (cut: nat)
      requires LogSound()
      ensures cut == Cut(Full(), mark.lastIncludedIndex, prev, entries)
    {
      ghost var full, skip := Full(), Skipped(mark.lastIncludedIndex, prev);
      cut := 0;
      while cut < |entries|
        invariant cut <= |entries| && (prev > |full| ==> cut == 0)
        invariant prev <= |full| && skip <= cut < |entries| ==> prev + cut <= |full|
        invariant prev <= |full| && skip <= cut ==>
          FirstDifference(full, prev, entries, skip) == FirstDifference(full, prev, entries, cut)
      {
        var index := prev + 1 + cut;
        if index > mark.lastIncludedIndex {
          if !ContainsLogIndex(index) || log[index - FirstLogIndex()].term != entries[cut].term {
            return;
          }
          assert full[index - 1] == log[index - FirstLogIndex()];
          assert Matched(full, prev, entries, cut);
        }
        cut := cut + 1;
      }
    }

    /**
      Checks the previous entry, then keeps the log up to the cut and takes the
      rest of the request. A request that names term zero beyond the end of the
      log passes the check, and leaves a gap in the indices.
     */
    method AppendEntriesToLog(prev: nat, prevTerm: nat, entries: Log) returns (changed: bool, ok: bool)
      requires LogSound()
      modifies this`log
      ensures ok <==> Accepts(old(Full()), mark.lastIncludedIndex, prev, prevTerm)
      ensures !ok || |entries| == 0 ==> !changed
      ensures !changed ==> log == old(log)
      ensures !changed || prev <= |old(Full())| ==> LogSound()
      ensures ok ==> Full() == Placed(old(Full()), mark.lastIncludedIndex, prev, entries)
      ensures ok ==> LastLogIndex() == LastPlaced(old(Full()), mark.lastIncludedIndex, prev, entries)
    {
      if prev > 0 && LogTermAt(prev) != prevTerm {
        return false, false;
      }
      changed := PlaceEntries(prev, entries);
      ok := true;
    }

    method PlaceEntries(prev: nat, entries: Log) returns (changed: bool)
      requires LogSound()
      modifies this`log
      ensures |entries| == 0 ==> !changed
      ensures !changed ==> log == old(log)
      ensures !changed || prev <= |old(Full())| ==> LogSound()
      ensures Full() == Placed(old(Full()), mark.lastIncludedIndex, prev, entries)
      ensures LastLogIndex() == LastPlaced(old(Full()), mark.lastIncludedIndex, prev, entries)
    {
      ghost var full := Full();
      var cut := FindCut(prev, entries);
      PlacedAtCut(full, mark.lastIncludedIndex, prev, entries);
      if cut == |entries| {
        return false;
      }
      ReplaceFrom(prev + cut, entries[cut..]);
      PlacedNumbered(full, mark.lastIncludedIndex, prev, entries);
      return true;
    }

    /** Keep the first `length` entries, or all there are, and put the renumbered ones after them. */
    method ReplaceFrom(length: nat, entries: Log)
      requires |compacted| == mark.lastIncludedIndex <= length
      modifies this`log
      ensures Full() == PutAt(old(Full()), length, entries)
      ensures |entries| > 0 ==> LastLogIndex() == length + |entries|
    {
      var normalized := NormalizeEntries(length + 1, entries);
      log := log[..Min(length - mark.lastIncludedIndex, |log|)] + normalized;
    }

    /** Takes the term and the leader of a request from a current leader. */
    method FollowLeader(req: AppendRequest) returns (changed: bool)
      requires Sound() && req.term >= ballot.currentTerm
      modifies this`ballot, this`lead
      ensures Abs() == M.FollowLeader(old(Abs()), req)
      ensures changed <==> req.term > old(ballot.currentTerm)
      ensures Sound()
    {
      changed := req.term > ballot.currentTerm;
      if changed {
        ballot := Ballot(req.term, NONE);
        lead := Idle(lead.role);
      }
      if !lead.role.Follower? {
        lead := Idle(Follower);
      }
      lead := lead.(leaderId := req.leader);
    }

    /** Takes the entries of a request and, if they fit, the commit index it announces. */
    method TakeEntries(req: AppendRequest) returns (changed: bool, ok: bool)
      requires Sound()
      modifies this`log, this`commitIndex
      ensures ok <==> Accepts(old(Full()), mark.lastIncludedIndex, req.prevIndex, req.prevTerm)
      ensures !ok ==> Abs() == old(Abs())
      ensures !ok || |req.entries| == 0 ==> !changed
      ensures !changed ==> log == old(log)
      ensures !changed || req.prevIndex <= |old(Full())| ==> Sound()
      ensures ok ==>
        Abs() == old(Abs()).(
          log := Placed(old(Full()), mark.lastIncludedIndex, req.prevIndex, req.entries),
          commit := Max(old(commitIndex), Min(req.leaderCommit,
            LastPlaced(old(Full()), mark.lastIncludedIndex, req.prevIndex, req.entries))))
    {
      changed, ok := AppendEntriesToLog(req.prevIndex, req.prevTerm, req.entries);
      if ok && req.leaderCommit > commitIndex {
        commitIndex := Max(commitIndex, Min(req.leaderCommit, LastLogIndex()));
      }
    }

    /**
      Saves only when the term or the log was touched. A request that names
      term zero beyond the end of the log is accepted and leaves a log whose
      indices no longer are its positions.
     */
    method HandleAppendEntries(req: AppendRequest) returns (reply: AppendReply)
      requires Valid()
      modifies this
      ensures (Abs(), reply) == M.AnswerAppend(old(Abs()), req)
      ensures Durable() && (req.WellFormed() || req.prevIndex <= |old(Full())| || req.entries == [] ==> Valid())
    {
      reply := AppendReply(ballot.currentTerm, false);
      if req.term < ballot.currentTerm || !IsMember(req.leader) {
        return;
      }
      var changed := FollowLeader(req);
      var logChanged, ok := TakeEntries(req);
      reply := AppendReply(ballot.currentTerm, ok);
      if changed || logChanged {
        saved := Image();
      }
    }

    /** Appends whatever the role; refuses a membership change while another is not applied. */
    method AppendLocal(command: Command) returns (entry: Option<LogEntry>)
      requires Valid()
      modifies this
      ensures Abs() == M.AppendLocal(old(Abs()), command)
      ensures entry == if M.RefusesAppend(old(Abs()), command) then None else Some(M.NewEntry(old(Abs()), command))
      ensures Valid()
    {
      if command.IsMembership() {
        var pending := HasPendingMembershipChange();
        if pending {
          return None;
        }
      }
      var e := LogEntry(ballot.currentTerm, LastLogIndex() + 1, command);
      AppendEntry(e);
      if lead.role.Leader? {
        AdvanceCommit();
      }
      saved := Image();
      return Some(e);
    }

    method AppendEntry(e: LogEntry)
      requires LogSound() && e.index == |Full()| + 1
      modifies this`log
      ensures LogSound() && Full() == old(Full()) + [e]
    {
      log := log + [e];
      assert Full() == old(Full()) + [e];
    }

    method HasPendingMembershipChange() returns (pending: bool)
      requires LogSound()
      ensures pending <==> M.HasPendingMembershipChange(Abs())
    {
      var i := 0;
      while i < |log|
        invariant i <= |log|
        invariant forall k | 0 <= k < i :: log[k].index > lastApplied ==> !log[k].command.IsMembership()
      {
        assert Full()[mark.lastIncludedIndex + i] == log[i];
        if log[i].index > lastApplied && log[i].command.IsMembership() {
          return true;
        }
        i := i + 1;
      }
      assert forall k | mark.lastIncludedIndex <= k < |Full()| :: Full()[k] == log[k - mark.lastIncludedIndex];
      return false;
    }

    method RecordReplicationSuccess(peer: NodeId, index: nat) returns (known: bool)
      requires Valid()
      modifies this
      ensures Abs() == M.RecordSuccess(old(Abs()), peer, index)
      ensures known <==> M.KnowsPeer(old(Abs()), peer)
      ensures Valid()
    {
      if lead.nextIndex.None? || peer !in lead.nextIndex.value {
        return false;
      }
      lead := lead.(matchIndex := Some(lead.matchIndex.value[peer := index]),
                    nextIndex := Some(lead.nextIndex.value[peer := index + 1]));
      AdvanceCommit();
      return true;
    }

    method RecordReplicationFailure(peer: NodeId) returns (known: bool)
      requires Valid()
      modifies this
      ensures Abs() == M.RecordFailure(old(Abs()), peer)
      ensures known <==> M.KnowsPeer(old(Abs()), peer)
      ensures Valid()
    {
      if lead.nextIndex.None? || peer !in lead.nextIndex.value {
        return false;
      }
      var next := lead.nextIndex.value[peer];
      if next > 1 && next > mark.lastIncludedIndex + 1 {
        lead := lead.(nextIndex := Some(lead.nextIndex.value[peer := next - 1]));
      }
      return true;
    }

    // ---- Snapshot ----

    method Compact(snapshot: Kv) returns (ok: bool)
      requires Valid()
      modifies this
      ensures Abs() == M.Compact(old(Abs()), snapshot)
      ensures ok <==> old(lastApplied) <= old(mark.lastIncludedIndex) || M.TermAt(old(Abs()), old(lastApplied)) != 0
      ensures Valid()
    {
      if lastApplied <= mark.lastIncludedIndex {
        return true;
      }
      var term := LogTermAt(lastApplied);
      if term == 0 {
        return false;
      }
      ghost var full := Full();
      var keep := lastApplied - mark.lastIncludedIndex;
      compacted := full[..lastApplied];
      log := if lastApplied >= |log| + mark.lastIncludedIndex then [] else log[keep..];
      mark := Mark(lastApplied, term, Some(snapshot));
      assert Full() == full;
      saved := Image();
      return true;
    }

    method EnsureLeaderProgress()
      requires Valid()
      modifies this
      ensures Abs() == M.EnsureProgress(old(Abs()))
      ensures Valid()
    {
      if !lead.role.Leader? {
        return;
      }
      if lead.nextIndex.None? || lead.matchIndex.None? {
        InitLeaderProgress();
        return;
      }
      var i := 0;
      while i < |members.peers|
        invariant i <= |members.peers|
        invariant forall k | 0 <= k < i ::
          members.peers[k] in lead.nextIndex.value && members.peers[k] in lead.matchIndex.value
      {
        if members.peers[i] !in lead.nextIndex.value || members.peers[i] !in lead.matchIndex.value {
          InitLeaderProgress();
          return;
        }
        i := i + 1;
      }
    }

    // ---- Membership ----

    method ApplyMembershipChange(command: Command)
      requires Sound() && command.IsMembership()
      modifies this`members, this`lead, this`ballot, this`commitIndex
      ensures Abs() == M.ApplyMembership(old(Abs()), command)
      ensures Sound()
    {
      members := members.(configured := true);
      if command.AddPeer? {
        AddMember(command.peer);
      } else {
        RemoveMember(command.peer);
      }
      AdvanceCommit();
    }

    method AddMember(peer: NodeId)
      requires Sound()
      modifies this`members, this`lead
      ensures Abs() == M.AddMember(old(Abs()), peer)
      ensures Sound()
    {
      if peer == id {
        members := members.(selfMember := true);
      } else if peer !in members.peers {
        members := members.(peers := members.peers + [peer]);
        if lead.role.Leader? && lead.nextIndex.Some? && lead.matchIndex.Some? {
          lead := lead.(nextIndex := Some(lead.nextIndex.value[peer := LastLogIndex() + 1]),
                        matchIndex := Some(lead.matchIndex.value[peer := 0]));
        }
      }
    }

    method RemoveMember(peer: NodeId)
      requires Sound()
      modifies this`members, this`lead, this`ballot
      ensures Abs() == M.RemoveMember(old(Abs()), peer)
      ensures Sound()
    {
      if peer == id {
        members := members.(selfMember := false);
        lead := Idle(Follower);
        ballot := ballot.(votedFor := NONE);
      } else {
        var rest := DropPeer(members.peers, peer);
        members := members.(peers := rest);
        lead := lead.(nextIndex := M.Drop(lead.nextIndex, peer), matchIndex := M.Drop(lead.matchIndex, peer));
      }
    }

    // ---- Applying ----

    method NextCommittedEntry() returns (entry: Option<LogEntry>)
      requires Sound()
      ensures entry == if M.CanApply(Abs()) then Some(Full()[lastApplied]) else None
    {
      var next := lastApplied + 1;
      if next > commitIndex || !ContainsLogIndex(next) {
        return None;
      }
      assert Full()[lastApplied] == log[next - FirstLogIndex()];
      return Some(log[next - FirstLogIndex()]);
    }

    /** One entry: a membership change goes to the node and is saved, anything else to the state machine. */
    method ApplyEntry(entry: LogEntry, sm: KvStateMachine)
      requires Valid() && sm.Valid() && M.CanApply(Abs()) && entry == Full()[lastApplied]
      modifies this, sm
      ensures (Abs(), sm.data) == M.ApplyNext(old(Abs()), old(sm.data))
      ensures Valid() && sm.Valid()
    {
      if entry.command.IsMembership() {
        ApplyMembershipChange(entry.command);
        lastApplied := lastApplied + 1;
        saved := Image();
      } else {
        var ok := sm.Apply(entry);
        lastApplied := lastApplied + 1;
      }
    }

    method ApplyCommitted(sm: KvStateMachine)
      requires Valid() && sm.Valid()
      modifies this, sm
      ensures (Abs(), sm.data) == M.ApplyAll(old(Abs()), old(sm.data))
      ensures Valid() && sm.Valid()
    {
      var entry := NextCommittedEntry();
      while entry.Some?
        invariant Valid() && sm.Valid()
        invariant entry == if M.CanApply(Abs()) then Some(Full()[lastApplied]) else None
        invariant M.ApplyAll(Abs(), sm.data) == M.ApplyAll(old(Abs()), old(sm.data))
        decreases |Full()| - lastApplied
      {
        ApplyEntry(entry.value, sm);
        entry := NextCommittedEntry();
      }
    }

    method ShouldSnapshot(threshold: nat) returns (should: bool)
      ensures should <==> threshold > 0 && lastApplied >= mark.lastIncludedIndex + threshold
    {
      should := threshold > 0 && lastApplied >= mark.lastIncludedIndex + threshold;
    }
  }
}
