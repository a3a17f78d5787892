/**
  One node as a value, and every lock-protected operation of raft/node.go,
  raft/election.go and raft/heartbeat.go as a function on that value.

  `log` is the whole log; the node itself retains only the part after `base`,
  its snapshot index.
 */
module NodeModel {
  import opened RaftTypes
  import opened LogOps
  import opened KvStore

  type Progress = Option<map<NodeId, nat>>

  datatype NodeState = NodeState(
    id: NodeId,
    peers: seq<NodeId>,
    selfMember: bool,
    configured: bool,
    role: Role,
    leaderId: NodeId,
    term: nat,
    votedFor: NodeId,
    log: Log,
    base: nat,
    snapshot: Option<Kv>,
    commit: nat,
    applied: nat,
    nextIndex: Progress,
    matchIndex: Progress)

  function Fresh(id: NodeId, peers: seq<NodeId>): NodeState {
    NodeState(id, peers, true, |peers| > 0, Follower, NONE, 0, NONE, [], 0, None, 0, 0, None, None)
  }

  // ---- Reads ----

  predicate IsMember(s: NodeState, id: NodeId) {
    if id == s.id then s.selfMember
    else id in s.peers || (s.selfMember && !s.configured)
  }

  function ClusterSize(s: NodeState): nat {
    |s.peers| + if s.selfMember then 1 else 0
  }

  function TermAt(s: NodeState, i: nat): nat {
    VisibleTerm(s.log, s.base, i)
  }

  function Lookup(progress: Progress, id: NodeId): nat {
    if progress.Some? && id in progress.value then progress.value[id] else 0
  }

  /** Some membership entry of the log is not applied yet. */
  predicate HasPendingMembershipChange(s: NodeState) {
    exists i | Max(s.base, s.applied) <= i < |s.log| :: s.log[i].command.IsMembership()
  }

  function ElectionRequest(s: NodeState, term: nat): VoteRequest {
    VoteRequest(term, s.id, |s.log|, LastTerm(s.log))
  }

  // ---- Elections ----

  /** Enter a later term as a follower that has not voted. */
  function EnterTerm(s: NodeState, term: nat): NodeState {
    s.(term := term, votedFor := NONE, role := Follower, leaderId := NONE, nextIndex := None, matchIndex := None)
  }

  function BecomeCandidate(s: NodeState): NodeState {
    s.(term := s.term + 1, votedFor := s.id, role := Candidate, leaderId := NONE,
       nextIndex := None, matchIndex := None)
  }

  function StepDown(s: NodeState, term: nat): NodeState {
    if term <= s.term then s else EnterTerm(s, term)
  }

  predicate IsFreshEnough(s: NodeState, req: VoteRequest) {
    IsLogAtLeastUpToDate(req.lastIndex, req.lastTerm, |s.log|, LastTerm(s.log))
  }

  function AnswerVote(s: NodeState, req: VoteRequest): (NodeState, VoteReply) {
    if req.term < s.term || !s.selfMember || !IsMember(s, req.candidate) then
      (s, VoteReply(s.term, false))
    else
      var s1 := StepDown(s, req.term);
      if (s1.votedFor == NONE || s1.votedFor == req.candidate) && IsFreshEnough(s1, req) then
        (s1.(votedFor := req.candidate), VoteReply(s1.term, true))
      else
        (s1, VoteReply(s1.term, false))
  }

  function AnswerPreVote(s: NodeState, req: VoteRequest): VoteReply {
    VoteReply(s.term,
              req.term >= s.term && s.selfMember && IsMember(s, req.candidate) && IsFreshEnough(s, req))
  }

  predicate CanPromote(s: NodeState, term: nat) {
    s.role.Candidate? && s.term == term && s.selfMember
  }

  function InitProgress(s: NodeState): NodeState {
    s.(nextIndex := Some(map p | p in s.peers :: |s.log| + 1),
       matchIndex := Some(map p | p in s.peers :: 0))
  }

  function Promote(s: NodeState, term: nat): NodeState {
    if !CanPromote(s, term) then s
    else AdvanceCommit(InitProgress(s.(role := Leader, leaderId := s.id)))
  }

  // ---- Commit rule ----

  /** How many of `peers` are known to hold the log through `index`. */
  function Holders(peers: seq<NodeId>, matchIndex: Progress, index: nat): nat {
    if |peers| == 0 then 0
    else Holders(peers[..|peers| - 1], matchIndex, index)
         + if Lookup(matchIndex, peers[|peers| - 1]) >= index then 1 else 0
  }

  /** A current-term entry that a majority holds. */
  predicate Committable(s: NodeState, index: nat) {
    TermAt(s, index) == s.term && 1 + Holders(s.peers, s.matchIndex, index) >= Majority(ClusterSize(s))
  }

  function CommitFrom(s: NodeState, index: nat): (r: nat)
    ensures r == s.commit || s.commit < r <= index
  {
    if index <= s.commit then s.commit
    else if Committable(s, index) then index
    else CommitFrom(s, index - 1)
  }

  function AdvanceCommit(s: NodeState): NodeState {
    if !s.role.Leader? || !s.selfMember then s
    else s.(commit := CommitFrom(s, |s.log|))
  }

  // ---- Replication ----

  function AnswerAppend(s: NodeState, req: AppendRequest): (NodeState, AppendReply)
    requires s.base <= |s.log|
  {
    if req.term < s.term || !IsMember(s, req.leader) then
      (s, AppendReply(s.term, false))
    else
      var s1 := FollowLeader(s, req);
      if !Accepts(s.log, s.base, req.prevIndex, req.prevTerm) then
        (s1, AppendReply(s1.term, false))
      else
        (s1.(log := Placed(s.log, s.base, req.prevIndex, req.entries),
             commit := Max(s.commit, Min(req.leaderCommit, LastPlaced(s.log, s.base, req.prevIndex, req.entries)))),
         AppendReply(s1.term, true))
  }

  /** The change of term, role and leader that every request from a current leader makes. */
  function FollowLeader(s: NodeState, req: AppendRequest): NodeState {
    var s1 := if req.term > s.term then EnterTerm(s, req.term) else s;
    s1.(role := Follower, leaderId := req.leader,
        nextIndex := if s1.role.Follower? then s1.nextIndex else None,
        matchIndex := if s1.role.Follower? then s1.matchIndex else None)
  }

  function NewEntry(s: NodeState, command: Command): LogEntry {
    LogEntry(s.term, |s.log| + 1, command)
  }

  function AppendOnly(s: NodeState, command: Command): NodeState {
    s.(log := s.log + [NewEntry(s, command)])
  }

  predicate RefusesAppend(s: NodeState, command: Command) {
    command.IsMembership() && HasPendingMembershipChange(s)
  }

  function AppendLocal(s: NodeState, command: Command): NodeState {
    if RefusesAppend(s, command) then s else AdvanceCommit(AppendOnly(s, command))
  }

  /** The first index a request to a peer carries: never one the node has compacted. */
  function SendFrom(s: NodeState, peer: NodeId): nat {
    Max(Lookup(s.nextIndex, peer), s.base + 1)
  }

  function BuildAppend(s: NodeState, peer: NodeId): AppendRequest {
    var next := SendFrom(s, peer);
    AppendRequest(s.term, s.id, next - 1, TermAt(s, next - 1),
                  if next <= |s.log| then s.log[next - 1..] else [], s.commit)
  }

  /** A leader that finds a peer without progress starts counting afresh. */
  function EnsureProgress(s: NodeState): NodeState {
    if s.role.Leader? && (s.nextIndex.None? || s.matchIndex.None?
                          || exists q | q in s.peers :: q !in s.nextIndex.value || q !in s.matchIndex.value)
    then AdvanceCommit(InitProgress(s))
    else s
  }

  predicate KnowsPeer(s: NodeState, peer: NodeId) {
    s.nextIndex.Some? && peer in s.nextIndex.value
  }

  function RecordMatch(s: NodeState, peer: NodeId, index: nat): NodeState {
    if KnowsPeer(s, peer) && s.matchIndex.Some? then
      s.(matchIndex := Some(s.matchIndex.value[peer := index]),
         nextIndex := Some(s.nextIndex.value[peer := index + 1]))
    else s
  }

  function RecordSuccess(s: NodeState, peer: NodeId, index: nat): NodeState {
    if KnowsPeer(s, peer) then AdvanceCommit(RecordMatch(s, peer, index)) else s
  }

  function RecordFailure(s: NodeState, peer: NodeId): NodeState {
    var next := Lookup(s.nextIndex, peer);
    if KnowsPeer(s, peer) && next > 1 && next > s.base + 1 then
      s.(nextIndex := Some(s.nextIndex.value[peer := next - 1]))
    else s
  }

  // ---- Apply, snapshot, restart ----

  predicate CanApply(s: NodeState) {
    s.applied + 1 <= s.commit && s.base <= s.applied < |s.log|
  }

  function MarkApplied(s: NodeState): NodeState {
    s.(applied := s.applied + 1)
  }

  /** Fails, leaving the node alone, when the applied entry is not in the log. */
  function Compact(s: NodeState, snapshot: Kv): NodeState {
    if s.applied <= s.base || TermAt(s, s.applied) == 0 then s
    else s.(base := s.applied, snapshot := Some(snapshot))
  }

  /** A crash loses everything but the term, the vote, the members, the log and the snapshot. */
  function Restart(s: NodeState): NodeState {
    s.(role := Follower, leaderId := NONE, configured := true, commit := s.base, applied := s.base,
       nextIndex := None, matchIndex := None)
  }

  // ---- Membership ----

  function Without(peers: seq<NodeId>, id: NodeId): seq<NodeId> {
    if |peers| == 0 then []
    else Without(peers[..|peers| - 1], id)
         + if peers[|peers| - 1] == id then [] else [peers[|peers| - 1]]
  }

  function Drop(progress: Progress, id: NodeId): Progress {
    if progress.Some? then Some(progress.value - {id}) else None
  }

  function AddMember(s: NodeState, id: NodeId): NodeState {
    if id == s.id then s.(selfMember := true)
    else if id in s.peers then s
    else
      var s1 := s.(peers := s.peers + [id]);
      if s.role.Leader? && s.nextIndex.Some? && s.matchIndex.Some? then
        s1.(nextIndex := Some(s.nextIndex.value[id := |s.log| + 1]),
            matchIndex := Some(s.matchIndex.value[id := 0]))
      else s1
  }

  function RemoveMember(s: NodeState, id: NodeId): NodeState {
    if id == s.id then
      s.(selfMember := false, role := Follower, leaderId := NONE, votedFor := NONE,
         nextIndex := None, matchIndex := None)
    else
      s.(peers := Without(s.peers, id), nextIndex := Drop(s.nextIndex, id), matchIndex := Drop(s.matchIndex, id))
  }

  function ApplyMembership(s: NodeState, command: Command): NodeState
    requires command.IsMembership()
  {
    var s1 := s.(configured := true);
    AdvanceCommit(if command.AddPeer? then AddMember(s1, command.peer) else RemoveMember(s1, command.peer))
  }

  // ---- Applying everything committed ----

  /** The next entry: a membership change goes to the node, anything else to the store. */
  function ApplyNext(s: NodeState, kv: Kv): (r: (NodeState, Kv))
    requires CanApply(s)
    ensures r.0.log == s.log && r.0.applied == s.applied + 1
  {
    var command := s.log[s.applied].command;
    if command.IsMembership() then (MarkApplied(ApplyMembership(s, command)), kv)
    else (MarkApplied(s), ApplyCommand(kv, command))
  }

  /** Apply entries until none is left. */
  function ApplyAll(s: NodeState, kv: Kv): (NodeState, Kv)
    decreases |s.log| - s.applied
  {
    if !CanApply(s) then (s, kv)
    else
      var (s1, kv1) := ApplyNext(s, kv);
      ApplyAll(s1, kv1)
  }
}
