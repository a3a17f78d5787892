/** Entries, messages and roles exchanged by the Raft nodes (raft/types.go). */
module RaftTypes {

  type NodeId = string

  /** The empty identifier: no vote cast, no known leader. */
  const NONE: NodeId := ""

  datatype Option<+T> = None | Some(value: T)

  datatype Command =
    | Noop
    | Put(key: string, value: string)
    | Delete(key: string)
    | AddPeer(peer: NodeId)
    | RemovePeer(peer: NodeId)
  {
    predicate IsMembership() {
      AddPeer? || RemovePeer?
    }
  }

  datatype LogEntry = LogEntry(term: nat, index: nat, command: Command)

  type Log = seq<LogEntry>

  /** Contents of the key-value store; also what a snapshot holds. */
  type Kv = map<string, string>

  datatype Role = Follower | Candidate | Leader

  /** RequestVote and PreVote carry the same four fields. */
  datatype VoteRequest = VoteRequest(term: nat, candidate: NodeId, lastIndex: nat, lastTerm: nat)

  datatype VoteReply = VoteReply(term: nat, granted: bool)

  datatype AppendRequest = AppendRequest(
    term: nat, leader: NodeId, prevIndex: nat, prevTerm: nat, entries: Log, leaderCommit: nat)
  {
    /** The index of the last entry the request covers; a successful reply sets matchIndex to it. */
    function Last(): nat {
      prevIndex + |entries|
    }

    /** A request that names a previous entry names its term too: log terms are never zero. */
    predicate WellFormed() {
      prevIndex > 0 ==> prevTerm > 0
    }
  }

  datatype AppendReply = AppendReply(term: nat, success: bool)

  predicate IsLogAtLeastUpToDate(candidateIndex: nat, candidateTerm: nat, localIndex: nat, localTerm: nat) {
    if candidateTerm != localTerm then candidateTerm > localTerm else candidateIndex >= localIndex
  }

  function Majority(size: nat): nat {
    size / 2 + 1
  }

  function Min(a: nat, b: nat): nat {
    if a <= b then a else b
  }

  function Max(a: nat, b: nat): nat {
    if a <= b then b else a
  }
}
