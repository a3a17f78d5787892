/**
  The whole cluster: nodes, a network that may delay, reorder, repeat and lose
  messages (sent messages are never removed and may be used any number of
  times), and a history of what has happened. The history is only ever
  written; no node reads it.
 */
module Cluster {
  import opened RaftTypes
  import opened NodeModel

  datatype VoteRecord = VoteRecord(voter: NodeId, req: VoteRequest, reply: VoteReply)
  datatype AppendMsg = AppendMsg(to: NodeId, req: AppendRequest)
  datatype AppendRecord = AppendRecord(from: NodeId, req: AppendRequest, reply: AppendReply)

  datatype Network = Network(
    preVoteReqs: set<VoteRequest>,
    preVoteReps: set<VoteRecord>,
    voteReqs: set<VoteRequest>,
    voteReps: set<VoteRecord>,
    appends: set<AppendMsg>,
    appendReps: set<AppendRecord>)

  /**
    votes:     who voted for whom in which term
    leaders:   who was promoted in which term
    logs:      the longest log the leader of a term has had in that term
    acked:     how much of the log of a term's leader a node has stored in that term
    committed: how far the leader of a term has committed by the majority rule
    clog:      the longest log any leader has committed
    wins:      how many pre-votes were won
    spent:     how many of those wins were followed by a candidacy
    tokens:    pre-votes won and not followed up yet
   */
  datatype History = History(
    votes: map<(NodeId, nat), NodeId>,
    leaders: map<nat, NodeId>,
    logs: map<nat, Log>,
    acked: map<(NodeId, nat), nat>,
    committed: map<nat, nat>,
    clog: Log,
    wins: nat,
    spent: nat,
    tokens: multiset<NodeId>)

  type Nodes = map<NodeId, NodeState>

  datatype State = State(nodes: Nodes, net: Network, h: History)

  function Ack(h: History, p: NodeId, term: nat): nat {
    if (p, term) in h.acked then h.acked[(p, term)] else 0
  }

  function PeerSet(peers: seq<NodeId>): set<NodeId> {
    set p | p in peers
  }

  predicate NoDuplicates(peers: seq<NodeId>) {
    forall i, j | 0 <= i < j < |peers| :: peers[i] != peers[j]
  }

  /** Fixed membership: every node lists exactly the others, each once. */
  predicate Configured(nodes: Nodes, p: NodeId)
    requires p in nodes
  {
    && p != NONE
    && nodes[p].id == p
    && nodes[p].selfMember
    && NoDuplicates(nodes[p].peers)
    && PeerSet(nodes[p].peers) == nodes.Keys - {p}
  }

  predicate Init(c: State) {
    && |c.nodes| > 0
    && (forall p | p in c.nodes :: Configured(c.nodes, p) && c.nodes[p] == Fresh(p, c.nodes[p].peers))
    && c.net == Network({}, {}, {}, {}, {}, {})
    && c.h == History(map[], map[], map[], map[], map[], [], 0, 0, multiset{})
  }

  /** A reply whose term its receiver looks at. */
  datatype Heard = HeardPreVote(pre: VoteRecord) | HeardVote(vote: VoteRecord) | HeardAppend(app: AppendRecord) {
    function Term(): nat {
      match this
      case HeardPreVote(r) => r.reply.term
      case HeardVote(r) => r.reply.term
      case HeardAppend(r) => r.reply.term
    }

    predicate SentTo(net: Network, p: NodeId) {
      match this
      case HeardPreVote(r) => r in net.preVoteReps && r.req.candidate == p
      case HeardVote(r) => r in net.voteReps && r.req.candidate == p
      case HeardAppend(r) => r in net.appendReps && r.req.leader == p
    }
  }

  datatype Step =
    | AskPreVote(p: NodeId)
    | GivePreVote(p: NodeId, req: VoteRequest)
    | WinPreVote(p: NodeId, req: VoteRequest, granters: set<NodeId>)
    | StandForElection(p: NodeId)
    | AskVotes(p: NodeId)
    | GiveVote(p: NodeId, req: VoteRequest)
    | WinElection(p: NodeId, req: VoteRequest, granters: set<NodeId>)
    | LoseTerm(p: NodeId, heard: Heard)
    | Propose(p: NodeId, command: Command)
    | SendAppend(p: NodeId, to: NodeId)
    | ReceiveAppend(msg: AppendMsg)
    | ReceiveReply(p: NodeId, rec: AppendRecord)
    | Apply(p: NodeId)
    | TakeSnapshot(p: NodeId, snapshot: Kv)
    | CrashAndRestart(p: NodeId)
  {
    /** The node whose state the step may change. */
    function Actor(): NodeId {
      if ReceiveAppend? then msg.to else p
    }
  }

  /** The asker and its granters are a majority of the asker's cluster. */
  predicate WinsVotes(s: NodeState, replies: set<VoteRecord>, req: VoteRequest, granters: set<NodeId>) {
    && req.candidate == s.id
    && granters <= PeerSet(s.peers)
    && |granters| + 1 >= Majority(|s.peers| + 1)
    && forall q | q in granters :: exists r | r in replies :: r.voter == q && r.req == req && r.reply.granted
  }

  predicate Enabled(c: State, step: Step) {
    && step.Actor() in c.nodes
    && match step
       case AskPreVote(p) => !c.nodes[p].role.Leader?  // the election timer of a leader starts no election
       case GivePreVote(p, req) => req in c.net.preVoteReqs
       case WinPreVote(p, req, granters) => WinsVotes(c.nodes[p], c.net.preVoteReps, req, granters)
       case StandForElection(p) => p in c.h.tokens
       case AskVotes(p) => true
       case GiveVote(p, req) => req in c.net.voteReqs
       case WinElection(p, req, granters) =>
         req in c.net.voteReqs && WinsVotes(c.nodes[p], c.net.voteReps, req, granters)
       case LoseTerm(p, heard) => heard.SentTo(c.net, p)
       case Propose(p, command) => c.nodes[p].role.Leader? && !command.IsMembership()
       case SendAppend(p, to) => KnowsPeer(c.nodes[p], to)
       case ReceiveAppend(msg) =>
         msg in c.net.appends && msg.req.WellFormed() && c.nodes[msg.to].base <= |c.nodes[msg.to].log|
       case ReceiveReply(p, rec) =>
         && rec in c.net.appendReps && rec.req.leader == p && rec.reply.term <= c.nodes[p].term
         // a success is not counted by a node that has come to lead a later term
         && (rec.reply.success && c.nodes[p].role.Leader? ==> c.nodes[p].term == rec.req.term)
       case Apply(p) => CanApply(c.nodes[p])
       case TakeSnapshot(p, snapshot) => true
       case CrashAndRestart(p) => true
  }

  /** Note in the history what a leader has just committed. */
  function NoteCommit(h: History, s: NodeState): History
    requires s.commit <= |s.log|
  {
    h.(committed := h.committed[s.term := Max(s.commit, if s.term in h.committed then h.committed[s.term] else 0)],
       clog := if s.commit > |h.clog| then s.log[..s.commit] else h.clog)
  }

  /** The commit rule run by node p. */
  function AdvanceAt(c: State, p: NodeId): State
    requires p in c.nodes
  {
    var s := AdvanceCommit(c.nodes[p]);
    if s.commit == c.nodes[p].commit then c
    else c.(nodes := c.nodes[p := s], h := NoteCommit(c.h, s))
  }

  function DoAskPreVote(c: State, p: NodeId): State
    requires p in c.nodes
  {
    c.(net := c.net.(preVoteReqs := c.net.preVoteReqs + {ElectionRequest(c.nodes[p], c.nodes[p].term + 1)}))
  }

  function DoGivePreVote(c: State, p: NodeId, req: VoteRequest): State
    requires p in c.nodes
  {
    var rec := VoteRecord(p, req, AnswerPreVote(c.nodes[p], req));
    c.(net := c.net.(preVoteReps := c.net.preVoteReps + {rec}))
  }

  function DoWinPreVote(c: State, p: NodeId): State {
    c.(h := c.h.(wins := c.h.wins + 1, tokens := c.h.tokens + multiset{p}))
  }

  function DoStandForElection(c: State, p: NodeId): State
    requires p in c.nodes
  {
    var s := BecomeCandidate(c.nodes[p]);
    c.(nodes := c.nodes[p := s],
       h := c.h.(votes := c.h.votes[(p, s.term) := p],
                 spent := c.h.spent + 1, tokens := c.h.tokens - multiset{p}))
  }

  function DoAskVotes(c: State, p: NodeId): State
    requires p in c.nodes
  {
    c.(net := c.net.(voteReqs := c.net.voteReqs + {ElectionRequest(c.nodes[p], c.nodes[p].term)}))
  }

  function DoGiveVote(c: State, p: NodeId, req: VoteRequest): State
    requires p in c.nodes
  {
    var (s, reply) := AnswerVote(c.nodes[p], req);
    c.(nodes := c.nodes[p := s],
       net := c.net.(voteReps := c.net.voteReps + {VoteRecord(p, req, reply)}),
       h := if reply.granted then c.h.(votes := c.h.votes[(p, req.term) := req.candidate]) else c.h)
  }

  /** Node p has just won the election of its current term. */
  function Promoted(c: State, p: NodeId): State
    requires p in c.nodes
  {
    var s := c.nodes[p];
    c.(nodes := c.nodes[p := InitProgress(s.(role := Leader, leaderId := s.id))],
       h := c.h.(leaders := c.h.leaders[s.term := p], logs := c.h.logs[s.term := s.log],
                 acked := c.h.acked[(p, s.term) := |s.log|]))
  }

  function DoWinElection(c: State, p: NodeId, term: nat): State
    requires p in c.nodes
  {
    if CanPromote(c.nodes[p], term) then AdvanceAt(Promoted(c, p), p) else c
  }

  function DoLoseTerm(c: State, p: NodeId, term: nat): State
    requires p in c.nodes
  {
    c.(nodes := c.nodes[p := StepDown(c.nodes[p], term)])
  }

  /** Leader p has just added an entry to its log. */
  function Extended(c: State, p: NodeId, command: Command): State
    requires p in c.nodes
  {
    var s := AppendOnly(c.nodes[p], command);
    c.(nodes := c.nodes[p := s],
       h := c.h.(logs := c.h.logs[s.term := s.log], acked := c.h.acked[(p, s.term) := |s.log|]))
  }

  function DoPropose(c: State, p: NodeId, command: Command): State
    requires p in c.nodes
  {
    AdvanceAt(Extended(c, p, command), p)
  }

  function DoSendAppend(c: State, p: NodeId, to: NodeId): State
    requires p in c.nodes
  {
    c.(net := c.net.(appends := c.net.appends + {AppendMsg(to, BuildAppend(c.nodes[p], to))}))
  }

  function DoReceiveAppend(c: State, msg: AppendMsg): State
    requires msg.to in c.nodes && msg.req.WellFormed() && c.nodes[msg.to].base <= |c.nodes[msg.to].log|
  {
    var (s, reply) := AnswerAppend(c.nodes[msg.to], msg.req);
    c.(nodes := c.nodes[msg.to := s],
       net := c.net.(appendReps := c.net.appendReps + {AppendRecord(msg.to, msg.req, reply)}),
       h := if !reply.success then c.h
            else c.h.(acked := c.h.acked[(msg.to, msg.req.term) := Max(Ack(c.h, msg.to, msg.req.term), msg.req.Last())]))
  }

  function DoReceiveReply(c: State, p: NodeId, rec: AppendRecord): State
    requires p in c.nodes
  {
    if !KnowsPeer(c.nodes[p], rec.from) then c
    else if rec.reply.success then
      AdvanceAt(c.(nodes := c.nodes[p := RecordMatch(c.nodes[p], rec.from, rec.req.Last())]), p)
    else
      c.(nodes := c.nodes[p := RecordFailure(c.nodes[p], rec.from)])
  }

  function Local(c: State, p: NodeId, s: NodeState): State {
    c.(nodes := c.nodes[p := s])
  }

  function Exec(c: State, step: Step): State
    requires Enabled(c, step)
  {
    match step
    case AskPreVote(p) => DoAskPreVote(c, p)
    case GivePreVote(p, req) => DoGivePreVote(c, p, req)
    case WinPreVote(p, req, granters) => DoWinPreVote(c, p)
    case StandForElection(p) => DoStandForElection(c, p)
    case AskVotes(p) => DoAskVotes(c, p)
    case GiveVote(p, req) => DoGiveVote(c, p, req)
    case WinElection(p, req, granters) => DoWinElection(c, p, req.term)
    case LoseTerm(p, heard) => DoLoseTerm(c, p, heard.Term())
    case Propose(p, command) => DoPropose(c, p, command)
    case SendAppend(p, to) => DoSendAppend(c, p, to)
    case ReceiveAppend(msg) => DoReceiveAppend(c, msg)
    case ReceiveReply(p, rec) => DoReceiveReply(c, p, rec)
    case Apply(p) => Local(c, p, MarkApplied(c.nodes[p]))
    case TakeSnapshot(p, snapshot) => Local(c, p, Compact(c.nodes[p], snapshot))
    case CrashAndRestart(p) =>
      Local(c, p, Restart(c.nodes[p])).(h := c.h.(tokens := c.h.tokens[p := 0]))
  }
}
