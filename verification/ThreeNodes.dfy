/** Elections, proposals, appends and replies among three nodes, each described by what changes. */
module ThreeNodes {
  import opened RaftTypes
  import opened LogOps
  import opened NodeModel
  import opened Cluster
  import opened KvStore
  import opened Service
  import opened Scenarios

  // ---- Describing three nodes ----

  datatype View = View(term: nat, log: Log, base: nat, commit: nat, applied: nat, leads: bool)

  const BLANK := View(0, [], 0, 0, 0, false)

  /** A node that does not lead, and a leader, that have committed nothing. */
  function At(term: nat, log: Log): View {
    View(term, log, 0, 0, 0, false)
  }

  function Head(term: nat, log: Log): View {
    View(term, log, 0, 0, 0, true)
  }

  /** A member that lists the two others. */
  predicate Lists(s: NodeState, p: NodeId, q: NodeId, r: NodeId) {
    s.id == p && s.selfMember && |s.peers| == 2 && PeerSet(s.peers) == {q, r}
  }

  predicate Shows(s: NodeState, v: View) {
    && s.term == v.term && s.log == v.log && s.base == v.base && s.commit == v.commit && s.applied == v.applied
    && s.role.Leader? == v.leads
  }

  predicate Three(w: World, p: NodeId, q: NodeId, r: NodeId) {
    p != q && q != r && p != r && w.c.nodes.Keys == {p, q, r}
  }

  predicate Cast(w: World, p: NodeId, q: NodeId, r: NodeId, vp: View, vq: View, vr: View) {
    && Three(w, p, q, r)
    && Lists(w.c.nodes[p], p, q, r) && Lists(w.c.nodes[q], q, p, r) && Lists(w.c.nodes[r], r, p, q)
    && Shows(w.c.nodes[p], vp) && Shows(w.c.nodes[q], vq) && Shows(w.c.nodes[r], vr)
  }

  /** A leader with this progress for its two peers. */
  predicate Rules(s: NodeState, q: NodeId, r: NodeId, nextQ: nat, matchQ: nat, nextR: nat, matchR: nat) {
    && s.role.Leader? && s.nextIndex == Some(map[q := nextQ, r := nextR])
    && s.matchIndex == Some(map[q := matchQ, r := matchR])
  }

  /** No request and no reply is forgotten. */
  predicate Remembers(w: World, w': World) {
    w.c.net.appends <= w'.c.net.appends && w.c.net.appendReps <= w'.c.net.appendReps
  }

  /** Clients see nothing, the stores stay as they are, and so does one node. */
  predicate Silent(w: World, w': World, r: NodeId) {
    && w'.ops == w.ops && w'.c.h.clog == w.c.h.clog && w'.kv == w.kv && Remembers(w, w')
    && r in w.c.nodes && r in w'.c.nodes && w'.c.nodes[r] == w.c.nodes[r]
  }

  /** The same but for the operations. */
  predicate Served(w: World, w': World, r: NodeId) {
    && w'.c.h.clog == w.c.h.clog && w'.kv == w.kv && Remembers(w, w')
    && r in w.c.nodes && r in w'.c.nodes && w'.c.nodes[r] == w.c.nodes[r]
  }

  lemma ListsTurned(s: NodeState, p: NodeId, q: NodeId, r: NodeId)
    requires Lists(s, p, q, r)
    ensures Lists(s, p, r, q)
  {
    assert {q, r} == {r, q};
  }

  /** The same three nodes, the first and the third, or the last two, exchanged. */
  lemma Turn(w: World, p: NodeId, q: NodeId, r: NodeId, vp: View, vq: View, vr: View)
    requires Cast(w, p, q, r, vp, vq, vr)
    ensures Cast(w, r, q, p, vr, vq, vp) && Cast(w, p, r, q, vp, vr, vq)
  {
    ListsTurned(w.c.nodes[p], p, q, r);
    ListsTurned(w.c.nodes[q], q, p, r);
    ListsTurned(w.c.nodes[r], r, p, q);
    assert {p, q, r} == {r, q, p} == {p, r, q};
  }

  lemma RulesTurned(s: NodeState, q: NodeId, r: NodeId, nextQ: nat, matchQ: nat, nextR: nat, matchR: nat)
    requires Rules(s, q, r, nextQ, matchQ, nextR, matchR) && q != r
    ensures Rules(s, r, q, nextR, matchR, nextQ, matchQ)
  {
    assert map[q := nextQ, r := nextR] == map[r := nextR, q := nextQ];
    assert map[q := matchQ, r := matchR] == map[r := matchR, q := matchQ];
  }

  // ---- The commit rule of three nodes ----

  lemma HoldersOfTwo(peers: seq<NodeId>, q: NodeId, r: NodeId, matched: Progress, index: nat)
    requires |peers| == 2 && PeerSet(peers) == {q, r} && q != r
    ensures Holders(peers, matched, index)
      == (if Lookup(matched, q) >= index then 1 else 0) + (if Lookup(matched, r) >= index then 1 else 0)
  {
    assert peers[0] in PeerSet(peers) && peers[1] in PeerSet(peers);
    assert q in PeerSet(peers) && r in PeerSet(peers);
    assert peers == [q, r] || peers == [r, q];
    assert Holders(peers[..1][..0], matched, index) == 0;
    assert peers[..1][0] == peers[0];
  }

  /** Nothing is committed that neither peer holds. */
  lemma {:induction false} NothingNew(s: NodeState, q: NodeId, r: NodeId, index: nat)
    requires Lists(s, s.id, q, r) && q != r
    requires Lookup(s.matchIndex, q) <= s.commit && Lookup(s.matchIndex, r) <= s.commit
    ensures CommitFrom(s, index) == s.commit
  {
    if index > s.commit {
      HoldersOfTwo(s.peers, q, r, s.matchIndex, index);
      NothingNew(s, q, r, index - 1);
    }
  }

  /** A whole log that ends in the leader's term and that one peer holds is committed. */
  lemma AllCommits(s: NodeState, q: NodeId, r: NodeId)
    requires s.role.Leader? && Lists(s, s.id, q, r) && q != r && s.base <= s.commit <= |s.log|
    requires 0 < |s.log| && LastTerm(s.log) == s.term && Lookup(s.matchIndex, q) >= |s.log|
    ensures AdvanceCommit(s).commit == |s.log|
  {
    HoldersOfTwo(s.peers, q, r, s.matchIndex, |s.log|);
  }

  // ---- Elections ----

  predicate Fresh2(vp: View, vq: View) {
    IsLogAtLeastUpToDate(|vp.log|, LastTerm(vp.log), |vq.log|, LastTerm(vq.log))
  }

  lemma BecomesCandidate(R: iset<World>, w: World, p: NodeId, q: NodeId, r: NodeId, vp: View, vq: View, vr: View)
    returns (w': World)
    requires In(R, w) && Cast(w, p, q, r, vp, vq, vr) && Fresh2(vp, vq) && vq.term <= vp.term && !vp.leads
    ensures In(R, w') && Silent(w, w', r) && w'.c.nodes == w.c.nodes[p := BecomeCandidate(w.c.nodes[p])]
  {
    var req := ElectionRequest(w.c.nodes[p], w.c.nodes[p].term + 1);
    var rec := VoteRecord(q, req, AnswerPreVote(w.c.nodes[q], req));
    assert p in PeerSet(w.c.nodes[q].peers) && q in PeerSet(w.c.nodes[p].peers);
    var w1 := Asks(R, w, p, true);
    var w2 := GivesPreVote(R, w1, q, req);
    assert rec in w2.c.net.preVoteReps && rec.reply.granted;
    var w3 := WinsPreVote(R, w2, p, req, q);
    w' := Stands(R, w3, p);
  }

  function Promotion(s: NodeState): NodeState {
    InitProgress(s.(role := Leader, leaderId := s.id))
  }

  lemma PromotionRules(s: NodeState, q: NodeId, r: NodeId)
    requires Lists(s, s.id, q, r) && q != r
    ensures Rules(Promotion(s), q, r, |s.log| + 1, 0, |s.log| + 1, 0)
    ensures AdvanceCommit(Promotion(s)) == Promotion(s)
  {
    var peers, n := s.peers, |s.log| + 1;
    assert forall p :: p in peers <==> p in PeerSet(peers);
    assert (map p | p in peers :: n) == map[q := n, r := n];
    assert (map p | p in peers :: 0) == map[q := 0, r := 0];
    NothingNew(Promotion(s), q, r, |s.log|);
  }

  lemma BecomesLeader(R: iset<World>, w: World, p: NodeId, q: NodeId, r: NodeId, vp: View, vq: View, vr: View)
    returns (w': World)
    requires In(R, w) && Cast(w, p, q, r, vp, vq, vr) && Fresh2(vp, vq) && vq.term < vp.term
    requires w.c.nodes[p].role.Candidate?
    ensures In(R, w') && Silent(w, w', r)
    ensures w'.c.nodes == w.c.nodes[q := EnterTerm(w.c.nodes[q], vp.term).(votedFor := p)][p := Promotion(w.c.nodes[p])]
  {
    var req := ElectionRequest(w.c.nodes[p], w.c.nodes[p].term);
    assert p in PeerSet(w.c.nodes[q].peers) && q in PeerSet(w.c.nodes[p].peers);
    var w1 := Asks(R, w, p, false);
    var w2 := GivesVote(R, w1, q, req);
    assert VoteRecord(q, req, VoteReply(req.term, true)) in w2.c.net.voteReps;
    PromotionRules(w.c.nodes[p], q, r);
    w' := WinsElection(R, w2, p, req, q);
  }

  /** A node that asks for a pre-vote learns the other's later term. */
  lemma LearnsTerm(R: iset<World>, w: World, p: NodeId, q: NodeId, r: NodeId, vp: View, vq: View, vr: View)
    returns (w': World)
    requires In(R, w) && Cast(w, p, q, r, vp, vq, vr) && !vp.leads
    ensures In(R, w') && Silent(w, w', r) && w'.c.nodes == w.c.nodes[p := StepDown(w.c.nodes[p], vq.term)]
    ensures Cast(w', p, q, r, vp.(term := Max(vp.term, vq.term)), vq, vr)
  {
    var req := ElectionRequest(w.c.nodes[p], w.c.nodes[p].term + 1);
    var rec := VoteRecord(q, req, AnswerPreVote(w.c.nodes[q], req));
    var w1 := Asks(R, w, p, true);
    var w2 := GivesPreVote(R, w1, q, req);
    w' := LosesTerm(R, w2, p, HeardPreVote(rec));
  }

  lemma Stood(w: World, w': World, p: NodeId, q: NodeId, r: NodeId, vp: View, vq: View, vr: View)
    requires Cast(w, p, q, r, vp, vq, vr) && !vp.leads
    requires w'.c.nodes == w.c.nodes[p := BecomeCandidate(w.c.nodes[p])]
    ensures Cast(w', p, q, r, vp.(term := vp.term + 1), vq, vr) && w'.c.nodes[p].role.Candidate?
  {
  }

  lemma Won(w: World, w': World, p: NodeId, q: NodeId, r: NodeId, vp: View, vq: View, vr: View)
    requires Cast(w, p, q, r, vp, vq, vr)
    requires w'.c.nodes == w.c.nodes[q := EnterTerm(w.c.nodes[q], vp.term).(votedFor := p)][p := Promotion(w.c.nodes[p])]
    ensures Cast(w', p, q, r, vp.(leads := true), vq.(term := vp.term, leads := false), vr)
    ensures Rules(w'.c.nodes[p], q, r, |vp.log| + 1, 0, |vp.log| + 1, 0)
  {
    PromotionRules(w.c.nodes[p], q, r);
  }

  function Elected(v: View, term: nat): View {
    v.(term := term, leads := true)
  }

  function Voted(v: View, term: nat): View {
    v.(term := term, leads := false)
  }

  /** A node learns the term, is elected with the vote of a node whose log is no fresher, and leads. */
  lemma Leads(R: iset<World>, w: World, p: NodeId, q: NodeId, r: NodeId, vp: View, vq: View, vr: View)
    returns (w': World, term: nat)
    requires In(R, w) && Cast(w, p, q, r, vp, vq, vr) && Fresh2(vp, vq) && !vp.leads
    ensures In(R, w') && Silent(w, w', r) && term == Max(vp.term, vq.term) + 1
    ensures Cast(w', p, q, r, Elected(vp, term), Voted(vq, term), vr)
    ensures Rules(w'.c.nodes[p], q, r, |vp.log| + 1, 0, |vp.log| + 1, 0)
  {
    term := Max(vp.term, vq.term) + 1;
    var v1, v2 := vp.(term := term - 1), vp.(term := term);
    var w1 := LearnsTerm(R, w, p, q, r, vp, vq, vr);
    var w2 := BecomesCandidate(R, w1, p, q, r, v1, vq, vr);
    Stood(w1, w2, p, q, r, v1, vq, vr);
    w' := BecomesLeader(R, w2, p, q, r, v2, vq, vr);
    Won(w2, w', p, q, r, v2, vq, vr);
  }

  /** From the start, a node leads term 1 with the vote of another. */
  lemma LeadsFirst(R: iset<World>, w: World, p: NodeId, q: NodeId, r: NodeId) returns (w': World)
    requires In(R, w) && Cast(w, p, q, r, BLANK, BLANK, BLANK)
    ensures In(R, w') && Silent(w, w', r) && Cast(w', r, q, p, BLANK, At(1, []), Head(1, []))
    ensures Rules(w'.c.nodes[p], q, r, 1, 0, 1, 0)
  {
    var w1, t := Leads(R, w, p, q, r, BLANK, BLANK, BLANK);
    Turn(w1, p, q, r, Head(1, []), At(1, []), BLANK);
    w' := w1;
  }

  // ---- Proposals ----

  function Appended(v: View, command: Command): View {
    v.(log := v.log + [LogEntry(v.term, |v.log| + 1, command)])
  }

  lemma AppendsQuietly(s: NodeState, command: Command, q: NodeId, r: NodeId)
    requires s.role.Leader? && Lists(s, s.id, q, r) && q != r
    requires Lookup(s.matchIndex, q) <= s.commit && Lookup(s.matchIndex, r) <= s.commit
    ensures AdvanceCommit(AppendOnly(s, command)) == AppendOnly(s, command)
  {
    NothingNew(AppendOnly(s, command), q, r, |s.log| + 1);
  }

  lemma ProposedNodes(c: State, p: NodeId, command: Command)
    requires p in c.nodes && AdvanceCommit(AppendOnly(c.nodes[p], command)) == AppendOnly(c.nodes[p], command)
    ensures var c' := DoPropose(c, p, command);
      c'.nodes == c.nodes[p := AppendOnly(c.nodes[p], command)] && c'.h.clog == c.h.clog && c'.net == c.net
  {
  }

  lemma HasAppended(w: World, w': World, p: NodeId, q: NodeId, r: NodeId, vp: View, vq: View, vr: View, command: Command)
    requires Cast(w, p, q, r, vp, vq, vr) && w'.c.nodes == w.c.nodes[p := AppendOnly(w.c.nodes[p], command)]
    ensures Cast(w', p, q, r, Appended(vp, command), vq, vr)
    ensures forall nq, mq, nr, mr | Rules(w.c.nodes[p], q, r, nq, mq, nr, mr) ::
      Rules(w'.c.nodes[p], q, r, nq, mq, nr, mr)
  {
  }

  /** A leader whose peers hold nothing beyond the commit index appends a command. */
  lemma Proposes(R: iset<World>, w: World, p: NodeId, q: NodeId, r: NodeId, vp: View, vq: View, vr: View, command: Command)
    returns (w': World)
    requires In(R, w) && Cast(w, p, q, r, vp, vq, vr) && !command.IsMembership() && w.c.nodes[p].role.Leader?
    requires Lookup(w.c.nodes[p].matchIndex, q) <= vp.commit && Lookup(w.c.nodes[p].matchIndex, r) <= vp.commit
    ensures In(R, w') && Silent(w, w', r) && Cast(w', p, q, r, Appended(vp, command), vq, vr)
    ensures forall nq, mq, nr, mr | Rules(w.c.nodes[p], q, r, nq, mq, nr, mr) ::
      Rules(w'.c.nodes[p], q, r, nq, mq, nr, mr)
  {
    AppendsQuietly(w.c.nodes[p], command, q, r);
    ProposedNodes(w.c, p, command);
    w' := ProposesPlain(R, w, p, command);
    HasAppended(w, w', p, q, r, vp, vq, vr, command);
  }

  /** The same on behalf of a client. */
  lemma TakesOp(R: iset<World>, w: World, p: NodeId, q: NodeId, r: NodeId, vp: View, vq: View, vr: View,
                op: nat, command: Command) returns (w': World)
    requires In(R, w) && Cast(w, p, q, r, vp, vq, vr) && !command.IsMembership() && w.c.nodes[p].role.Leader?
    requires Lookup(w.c.nodes[p].matchIndex, q) <= vp.commit && Lookup(w.c.nodes[p].matchIndex, r) <= vp.commit
    requires op !in w.ops
    ensures In(R, w') && Served(w, w', r) && Cast(w', p, q, r, Appended(vp, command), vq, vr)
    ensures w'.c.nodes[q] == w.c.nodes[q]
    ensures forall nq, mq, nr, mr | Rules(w.c.nodes[p], q, r, nq, mq, nr, mr) ::
      Rules(w'.c.nodes[p], q, r, nq, mq, nr, mr)
    ensures w'.ops == w.ops[op := Proposed(p, |w.c.h.clog|, vp.term, |vp.log| + 1, command)]
  {
    AppendsQuietly(w.c.nodes[p], command, q, r);
    ProposedNodes(w.c, p, command);
    var w1 := Begins(R, w, op, p);
    w' := ProposesOp(R, w1, op, command);
    HasAppended(w, w', p, q, r, vp, vq, vr, command);
  }

  /** A node is elected and appends a command. */
  lemma LeadsAndProposes(R: iset<World>, w: World, p: NodeId, q: NodeId, r: NodeId, vp: View, vq: View, vr: View,
                         command: Command) returns (w': World, term: nat)
    requires In(R, w) && Cast(w, p, q, r, vp, vq, vr) && Fresh2(vp, vq) && !vp.leads && !command.IsMembership()
    ensures In(R, w') && Silent(w, w', r) && term == Max(vp.term, vq.term) + 1
    ensures Cast(w', p, q, r, Appended(Elected(vp, term), command), Voted(vq, term), vr)
    ensures Rules(w'.c.nodes[p], q, r, |vp.log| + 1, 0, |vp.log| + 1, 0)
  {
    var w1, t := Leads(R, w, p, q, r, vp, vq, vr);
    term := t;
    w' := Proposes(R, w1, p, q, r, Elected(vp, t), Voted(vq, t), vr, command);
  }

  /** A node is elected and appends a client's command. */
  lemma LeadsAndTakesOp(R: iset<World>, w: World, p: NodeId, q: NodeId, r: NodeId, vp: View, vq: View, vr: View,
                        op: nat, command: Command) returns (w': World, term: nat)
    requires In(R, w) && Cast(w, p, q, r, vp, vq, vr) && Fresh2(vp, vq) && !vp.leads
    requires !command.IsMembership() && op !in w.ops
    ensures In(R, w') && Served(w, w', r) && term == Max(vp.term, vq.term) + 1
    ensures Cast(w', p, q, r, Appended(Elected(vp, term), command), Voted(vq, term), vr)
    ensures Rules(w'.c.nodes[p], q, r, |vp.log| + 1, 0, |vp.log| + 1, 0)
    ensures w'.ops == w.ops[op := Proposed(p, |w.c.h.clog|, term, |vp.log| + 1, command)]
  {
    var w1, t := Leads(R, w, p, q, r, vp, vq, vr);
    term := t;
    w' := TakesOp(R, w1, p, q, r, Elected(vp, t), Voted(vq, t), vr, op, command);
  }

  // ---- Requests ----

  lemma Builds(s: NodeState, q: NodeId, prev: nat)
    requires s.base <= prev <= |s.log| && Lookup(s.nextIndex, q) == prev + 1
    ensures BuildAppend(s, q) == AppendRequest(s.term, s.id, prev, TermIn(s.log, prev), s.log[prev..], s.commit)
  {
    assert prev == |s.log| ==> s.log[prev..] == [];
  }

  /** Sending a request and delivering it, whatever the answer. */
  lemma Delivers(R: iset<World>, w: World, p: NodeId, q: NodeId, r: NodeId, req: AppendRequest,
                 s: NodeState, reply: AppendReply) returns (w': World)
    requires In(R, w) && p in w.c.nodes && q in w.c.nodes && r in w.c.nodes && p != q && q != r
    requires KnowsPeer(w.c.nodes[p], q)
    requires req == BuildAppend(w.c.nodes[p], q) && req.WellFormed() && w.c.nodes[q].base <= |w.c.nodes[q].log|
    requires AnswerAppend(w.c.nodes[q], req) == (s, reply)
    ensures In(R, w') && Silent(w, w', r) && w'.c.nodes == w.c.nodes[q := s]
    ensures AppendRecord(q, req, reply) in w'.c.net.appendReps
  {
    var w1 := Sends(R, w, p, q);
    w' := Receives(R, w1, AppendMsg(q, req));
  }

  lemma RefusesMissing(s: NodeState, req: AppendRequest)
    requires s.term <= req.term && IsMember(s, req.leader) && req.WellFormed() && s.base <= |s.log|
    requires !Accepts(s.log, s.base, req.prevIndex, req.prevTerm)
    ensures AnswerAppend(s, req) == (FollowLeader(s, req), AppendReply(req.term, false))
  {
  }

  // ---- A leader that is overtaken ----

  /** A leader whose request reaches a node of a later term steps down. */
  lemma Overtaken(R: iset<World>, w: World, p: NodeId, q: NodeId, r: NodeId, vp: View, vq: View, vr: View, prev: nat)
    returns (w': World)
    requires In(R, w) && Cast(w, p, q, r, vp, vq, vr) && vp.term < vq.term && vq.base <= |vq.log|
    requires KnowsPeer(w.c.nodes[p], q) && Lookup(w.c.nodes[p].nextIndex, q) == prev + 1
    requires vp.base <= prev <= |vp.log| && (prev > 0 ==> TermIn(vp.log, prev) > 0)
    ensures In(R, w') && Silent(w, w', r) && Cast(w', p, q, r, Voted(vp, vq.term), vq, vr)
    ensures w'.c.nodes[p].role.Follower? && w'.c.nodes[q] == w.c.nodes[q]
  {
    var req := BuildAppend(w.c.nodes[p], q);
    Builds(w.c.nodes[p], q, prev);
    var reply := AppendReply(vq.term, false);
    assert AnswerAppend(w.c.nodes[q], req) == (w.c.nodes[q], reply);
    var w1 := Delivers(R, w, p, q, r, req, w.c.nodes[q], reply);
    assert w1.c.nodes == w.c.nodes;
    w' := LosesTerm(R, w1, p, HeardAppend(AppendRecord(q, req, reply)));
    FirstChanges(w, w', p, q, r, vp, vq, vr, EnterTerm(w.c.nodes[p], vq.term), Voted(vp, vq.term));
  }

  // ---- A refused append ----

  lemma BacksUp(s: NodeState, q: NodeId, r: NodeId, k: nat, mq: nat, nr: nat, mr: nat)
    requires Rules(s, q, r, k, mq, nr, mr) && q != r && s.base + 1 < k
    ensures Rules(RecordFailure(s, q), q, r, k - 1, mq, nr, mr)
    ensures RecordFailure(s, q) == s.(nextIndex := Some(map[q := k - 1, r := nr]))
  {
    assert map[q := k, r := nr][q := k - 1] == map[q := k - 1, r := nr];
  }

  lemma Follows(w: World, w': World, p: NodeId, q: NodeId, r: NodeId, vp: View, vq: View, vr: View,
                s: NodeState, v: View)
    requires Cast(w, p, q, r, vp, vq, vr) && w'.c.nodes == w.c.nodes[q := s]
    requires s.id == q && s.peers == w.c.nodes[q].peers && s.selfMember && Shows(s, v)
    ensures Cast(w', p, q, r, vp, v, vr) && w'.c.nodes[p] == w.c.nodes[p] && w'.c.nodes[r] == w.c.nodes[r]
  {
  }

  lemma HearsRefusal(R: iset<World>, w: World, p: NodeId, q: NodeId, r: NodeId, vp: View, vq: View, vr: View,
                     k: nat, mq: nat, nr: nat, mr: nat, req: AppendRequest) returns (w': World)
    requires In(R, w) && Cast(w, p, q, r, vp, vq, vr) && Rules(w.c.nodes[p], q, r, k, mq, nr, mr)
    requires vp.base + 1 < k && req.leader == p && req.term == vp.term
    requires AppendRecord(q, req, AppendReply(vp.term, false)) in w.c.net.appendReps
    ensures In(R, w') && Silent(w, w', r) && Cast(w', p, q, r, vp, vq, vr)
    ensures Rules(w'.c.nodes[p], q, r, k - 1, mq, nr, mr)
  {
    BacksUp(w.c.nodes[p], q, r, k, mq, nr, mr);
    w' := HearsReply(R, w, p, AppendRecord(q, req, AppendReply(vp.term, false)));
  }

  /** The leader's request does not fit the peer's log; the leader hears of it and backs up. */
  lemma Refuses(R: iset<World>, w: World, p: NodeId, q: NodeId, r: NodeId, vp: View, vq: View, vr: View,
                k: nat, mq: nat, nr: nat, mr: nat) returns (w': World)
    requires In(R, w) && Cast(w, p, q, r, vp, vq, vr) && Rules(w.c.nodes[p], q, r, k, mq, nr, mr)
    requires vp.base + 1 < k <= |vp.log| + 1 && TermIn(vp.log, k - 1) > 0
    requires vq.term <= vp.term && vq.base <= |vq.log| && !Accepts(vq.log, vq.base, k - 1, TermIn(vp.log, k - 1))
    ensures In(R, w') && Silent(w, w', r) && Cast(w', p, q, r, vp, Voted(vq, vp.term), vr)
    ensures Rules(w'.c.nodes[p], q, r, k - 1, mq, nr, mr)
  {
    var req := BuildAppend(w.c.nodes[p], q);
    Builds(w.c.nodes[p], q, k - 1);
    assert p in PeerSet(w.c.nodes[q].peers);
    RefusesMissing(w.c.nodes[q], req);
    var s := FollowLeader(w.c.nodes[q], req);
    var w1 := Delivers(R, w, p, q, r, req, s, AppendReply(vp.term, false));
    Follows(w, w1, p, q, r, vp, vq, vr, s, Voted(vq, vp.term));
    w' := HearsRefusal(R, w1, p, q, r, vp, Voted(vq, vp.term), vr, k, mq, nr, mr, req);
  }

  // ---- An accepted append ----

  function Taken(vp: View, vq: View): View {
    Voted(vq, vp.term).(log := vp.log, commit := Max(vq.commit, Min(vp.commit, |vp.log|)))
  }

  /** The peer's log agrees with the leader's up to the entry before `k` and has nothing of the leader's beyond. */
  predicate Fits(vp: View, vq: View, k: nat) {
    && vp.base < k <= |vp.log| && Numbered(vp.log) && (k > 1 ==> TermIn(vp.log, k - 1) > 0)
    && vq.term <= vp.term && vq.base < k && Agree(vq.log, vp.log, k - 1)
    && (|vq.log| == k - 1 || vq.log[k - 1].term != vp.log[k - 1].term)
  }

  /** A log that agrees up to `prev` and has none of the entries after it becomes the other. */
  lemma PlacesRest(log: Log, g: Log, base: nat, prev: nat)
    requires base <= prev < |g| && Numbered(g) && Agree(log, g, prev)
    requires |log| == prev || log[prev].term != g[prev].term
    ensures base <= |log| && Accepts(log, base, prev, TermIn(g, prev))
    ensures Placed(log, base, prev, g[prev..]) == g && LastPlaced(log, base, prev, g[prev..]) == |g|
  {
    var entries := g[prev..];
    if prev > 0 {
      AgreeAt(log, g, prev, prev - 1);
    }
    assert !Matched(log, prev, entries, 0);
    assert FirstDifference(log, prev, entries, 0) == 0;
    assert entries[0..] == entries == g[prev..|g|] && g[..|g|] == g;
    SpliceFollows(log, g, prev, |g|);
    PlacedCases(log, base, prev, entries);
  }

  lemma AnswerPlaces(t: NodeState, req: AppendRequest, g: Log)
    requires t.term <= req.term && IsMember(t, req.leader) && t.base <= |t.log|
    requires Accepts(t.log, t.base, req.prevIndex, req.prevTerm)
    requires Placed(t.log, t.base, req.prevIndex, req.entries) == g
    requires LastPlaced(t.log, t.base, req.prevIndex, req.entries) == |g|
    ensures AnswerAppend(t, req)
      == (FollowLeader(t, req).(log := g, commit := Max(t.commit, Min(req.leaderCommit, |g|))), AppendReply(req.term, true))
  {
  }

  lemma TakesRest(t: NodeState, req: AppendRequest, vp: View, vq: View, prev: nat)
    requires Shows(t, vq) && Fits(vp, vq, prev + 1) && IsMember(t, req.leader)
    requires req.term == vp.term && req.prevIndex == prev && req.prevTerm == TermIn(vp.log, prev)
    requires req.entries == vp.log[prev..] && req.leaderCommit == vp.commit
    ensures t.base <= |t.log|
    ensures AnswerAppend(t, req)
      == (FollowLeader(t, req).(log := vp.log, commit := Taken(vp, vq).commit), AppendReply(vp.term, true))
  {
    PlacesRest(vq.log, vp.log, vq.base, prev);
    AnswerPlaces(t, req, vp.log);
  }

  lemma AcceptsRest(s: NodeState, t: NodeState, q: NodeId, vp: View, vq: View, prev: nat)
    returns (req: AppendRequest, t': NodeState)
    requires Shows(s, vp) && Shows(t, vq) && Lookup(s.nextIndex, q) == prev + 1 && Fits(vp, vq, prev + 1)
    requires IsMember(t, s.id)
    ensures req == BuildAppend(s, q) && req.WellFormed() && t.base <= |t.log|
    ensures req.Last() == |vp.log| && req.leader == s.id && req.term == vp.term
    ensures AnswerAppend(t, req) == (t', AppendReply(vp.term, true))
    ensures Shows(t', Taken(vp, vq)) && t'.id == t.id && t'.peers == t.peers && t'.selfMember == t.selfMember
  {
    Builds(s, q, prev);
    req := AppendRequest(vp.term, s.id, prev, TermIn(vp.log, prev), vp.log[prev..], vp.commit);
    TakesRest(t, req, vp, vq, prev);
    t' := FollowLeader(t, req).(log := vp.log, commit := Taken(vp, vq).commit);
  }

  /** The leader's request brings the peer to the leader's log; the answer is under way. */
  lemma Stores(R: iset<World>, w: World, p: NodeId, q: NodeId, r: NodeId, vp: View, vq: View, vr: View, k: nat)
    returns (w': World, req: AppendRequest)
    requires In(R, w) && Cast(w, p, q, r, vp, vq, vr) && KnowsPeer(w.c.nodes[p], q)
    requires Lookup(w.c.nodes[p].nextIndex, q) == k && Fits(vp, vq, k)
    ensures In(R, w') && Silent(w, w', r) && Cast(w', p, q, r, vp, Taken(vp, vq), vr)
    ensures w'.c.nodes[p] == w.c.nodes[p] && w'.c.nodes[r] == w.c.nodes[r]
    ensures req.leader == p && req.term == vp.term && req.Last() == |vp.log|
    ensures AppendRecord(q, req, AppendReply(vp.term, true)) in w'.c.net.appendReps
  {
    assert p in PeerSet(w.c.nodes[q].peers);
    var built, s := AcceptsRest(w.c.nodes[p], w.c.nodes[q], q, vp, vq, k - 1);
    req := built;
    w' := Delivers(R, w, p, q, r, req, s, AppendReply(vp.term, true));
    Follows(w, w', p, q, r, vp, vq, vr, s, Taken(vp, vq));
  }

  // ---- A counted success ----

  lemma Records(s: NodeState, q: NodeId, r: NodeId, k: nat, mq: nat, nr: nat, mr: nat, n: nat)
    requires Rules(s, q, r, k, mq, nr, mr) && q != r
    ensures KnowsPeer(s, q) && Rules(RecordMatch(s, q, n), q, r, n + 1, n, nr, mr)
    ensures RecordMatch(s, q, n)
      == s.(nextIndex := Some(map[q := n + 1, r := nr]), matchIndex := Some(map[q := n, r := mr]))
  {
    assert map[q := k, r := nr][q := n + 1] == map[q := n + 1, r := nr];
    assert map[q := mq, r := mr][q := n] == map[q := n, r := mr];
  }

  lemma CountedNodes(c: State, p: NodeId, rec: AppendRecord, s: NodeState)
    requires p in c.nodes && KnowsPeer(c.nodes[p], rec.from) && rec.reply.success
    requires s == AdvanceCommit(RecordMatch(c.nodes[p], rec.from, rec.req.Last())) && s.commit <= |s.log|
    ensures var c' := DoReceiveReply(c, p, rec);
      && c'.nodes == c.nodes[p := s] && c'.net == c.net
      && c'.h.clog == if s.commit > c.nodes[p].commit && s.commit > |c.h.clog| then s.log[..s.commit] else c.h.clog
  {
    var c1 := c.(nodes := c.nodes[p := RecordMatch(c.nodes[p], rec.from, rec.req.Last())]);
    assert s.commit == c.nodes[p].commit ==> s == c1.nodes[p];
  }

  /** The leader hears that a peer holds its whole log, and commits it. */
  lemma Hears(R: iset<World>, w: World, p: NodeId, q: NodeId, r: NodeId, vp: View, vq: View, vr: View,
              k: nat, mq: nat, nr: nat, mr: nat, req: AppendRequest) returns (w': World)
    requires In(R, w) && Cast(w, p, q, r, vp, vq, vr) && Rules(w.c.nodes[p], q, r, k, mq, nr, mr)
    requires req.leader == p && req.term == vp.term && req.Last() == |vp.log|
    requires AppendRecord(q, req, AppendReply(vp.term, true)) in w.c.net.appendReps
    requires vp.base <= vp.commit <= |vp.log| && 0 < |vp.log| && LastTerm(vp.log) == vp.term
    ensures In(R, w') && Cast(w', p, q, r, vp.(commit := |vp.log|), vq, vr)
    ensures Rules(w'.c.nodes[p], q, r, |vp.log| + 1, |vp.log|, nr, mr)
    ensures w'.ops == w.ops && w'.kv == w.kv && Remembers(w, w')
    ensures w'.c.nodes[q] == w.c.nodes[q] && w'.c.nodes[r] == w.c.nodes[r]
    ensures w'.c.h.clog == if |vp.log| > vp.commit && |vp.log| > |w.c.h.clog| then vp.log else w.c.h.clog
  {
    var rec := AppendRecord(q, req, AppendReply(vp.term, true));
    Records(w.c.nodes[p], q, r, k, mq, nr, mr, |vp.log|);
    var s := RecordMatch(w.c.nodes[p], q, |vp.log|);
    AllCommits(s, q, r);
    CountedNodes(w.c, p, rec, AdvanceCommit(s));
    w' := HearsReply(R, w, p, rec);
    FirstChanges(w, w', p, q, r, vp, vq, vr, AdvanceCommit(s), vp.(commit := |vp.log|));
    assert vp.log[..|vp.log|] == vp.log;
  }

  /** The same, the two peers exchanged afterwards. */
  lemma HearsAndTurns(R: iset<World>, w: World, p: NodeId, q: NodeId, r: NodeId, vp: View, vq: View, vr: View,
                      k: nat, mq: nat, nr: nat, mr: nat, req: AppendRequest) returns (w': World)
    requires In(R, w) && Cast(w, p, q, r, vp, vq, vr) && Rules(w.c.nodes[p], q, r, k, mq, nr, mr)
    requires req.leader == p && req.term == vp.term && req.Last() == |vp.log|
    requires AppendRecord(q, req, AppendReply(vp.term, true)) in w.c.net.appendReps
    requires vp.base <= vp.commit <= |vp.log| && 0 < |vp.log| && LastTerm(vp.log) == vp.term
    ensures In(R, w') && Cast(w', p, r, q, vp.(commit := |vp.log|), vr, vq)
    ensures Rules(w'.c.nodes[p], r, q, nr, mr, |vp.log| + 1, |vp.log|)
    ensures w'.ops == w.ops && w'.kv == w.kv
    ensures w'.c.h.clog == if |vp.log| > vp.commit && |vp.log| > |w.c.h.clog| then vp.log else w.c.h.clog
  {
    w' := Hears(R, w, p, q, r, vp, vq, vr, k, mq, nr, mr, req);
    Turn(w', p, q, r, vp.(commit := |vp.log|), vq, vr);
    RulesTurned(w'.c.nodes[p], q, r, |vp.log| + 1, |vp.log|, nr, mr);
  }

  // ---- Applying and compacting ----

  lemma FirstChanges(w: World, w': World, p: NodeId, q: NodeId, r: NodeId, vp: View, vq: View, vr: View,
                     s: NodeState, v: View)
    requires Cast(w, p, q, r, vp, vq, vr) && w'.c.nodes == w.c.nodes[p := s]
    requires s.id == p && s.peers == w.c.nodes[p].peers && s.selfMember && Shows(s, v)
    ensures Cast(w', p, q, r, v, vq, vr)
  {
  }

  /** The first node applies its next entry. */
  lemma Applies(R: iset<World>, w: World, p: NodeId, q: NodeId, r: NodeId, vp: View, vq: View, vr: View)
    returns (w': World)
    requires In(R, w) && Cast(w, p, q, r, vp, vq, vr) && vp.base <= vp.applied < vp.commit <= |vp.log|
    ensures In(R, w') && Cast(w', p, q, r, vp.(applied := vp.applied + 1), vq, vr)
    ensures w'.ops == w.ops && w'.c.h.clog == w.c.h.clog && Remembers(w, w')
    ensures w'.kv == w.kv[p := ApplyCommand(w.kv[p], vp.log[vp.applied].command)]
    ensures w'.c.nodes == w.c.nodes[p := MarkApplied(w.c.nodes[p])]
  {
    w' := AppliesNext(R, w, p);
    FirstChanges(w, w', p, q, r, vp, vq, vr, MarkApplied(w.c.nodes[p]), vp.(applied := vp.applied + 1));
  }

  /** The first node compacts what it has applied. */
  lemma Compacts(R: iset<World>, w: World, p: NodeId, q: NodeId, r: NodeId, vp: View, vq: View, vr: View)
    returns (w': World)
    requires In(R, w) && Cast(w, p, q, r, vp, vq, vr) && vp.base < vp.applied && TermIn(vp.log, vp.applied) > 0
    ensures In(R, w') && Silent(w, w', r) && Cast(w', p, q, r, vp.(base := vp.applied), vq, vr)
    ensures w'.c.nodes == w.c.nodes[p := Compact(w.c.nodes[p], w.kv[p])]
  {
    w' := Snapshots(R, w, p);
    FirstChanges(w, w', p, q, r, vp, vq, vr, Compact(w.c.nodes[p], w.kv[p]), vp.(base := vp.applied));
  }

  // ---- The start ----

  function StartWorld(a: NodeId, b: NodeId, c: NodeId): World {
    var nodes := map[a := Fresh(a, [b, c]), b := Fresh(b, [a, c]), c := Fresh(c, [a, b])];
    World(State(nodes, Network({}, {}, {}, {}, {}, {}), History(map[], map[], map[], map[], map[], [], 0, 0, multiset{})),
          map[a := map[], b := map[], c := map[]], map[a := 0, b := 0, c := 0], map[])
  }

  predicate ThreeIds(a: NodeId, b: NodeId, c: NodeId) {
    a != b && b != c && a != c && NONE !in {a, b, c}
  }

  lemma FreshIsConfigured(nodes: Nodes, p: NodeId, q: NodeId, r: NodeId)
    requires p != q && q != r && p != r && p != NONE && nodes.Keys == {p, q, r} && nodes[p] == Fresh(p, [q, r])
    ensures Configured(nodes, p)
  {
    assert PeerSet([q, r]) == {q, r} == nodes.Keys - {p};
  }

  lemma StartNodes(a: NodeId, b: NodeId, c: NodeId)
    requires ThreeIds(a, b, c)
    ensures var nodes := StartWorld(a, b, c).c.nodes;
      && nodes.Keys == {a, b, c} && nodes[a] == Fresh(a, [b, c]) && nodes[b] == Fresh(b, [a, c])
      && nodes[c] == Fresh(c, [a, b]) && Configured(nodes, a) && Configured(nodes, b) && Configured(nodes, c)
  {
    var nodes := StartWorld(a, b, c).c.nodes;
    FreshIsConfigured(nodes, a, b, c);
    FreshIsConfigured(nodes, b, a, c);
    FreshIsConfigured(nodes, c, a, b);
  }

  lemma ThreeAreInit(s: State, a: NodeId, b: NodeId, c: NodeId)
    requires s.nodes.Keys == {a, b, c}
    requires forall p | p in {a, b, c} :: Configured(s.nodes, p) && s.nodes[p] == Fresh(p, s.nodes[p].peers)
    requires s.net == Network({}, {}, {}, {}, {}, {})
    requires s.h == History(map[], map[], map[], map[], map[], [], 0, 0, multiset{})
    ensures Init(s)
  {
    assert a in s.nodes;
  }

  lemma StartIsInit(a: NodeId, b: NodeId, c: NodeId)
    requires ThreeIds(a, b, c)
    ensures Init(StartWorld(a, b, c).c)
  {
    StartNodes(a, b, c);
    ThreeAreInit(StartWorld(a, b, c).c, a, b, c);
  }

  lemma StartIsInitial(a: NodeId, b: NodeId, c: NodeId)
    requires ThreeIds(a, b, c)
    ensures Initial(StartWorld(a, b, c))
  {
    StartIsInit(a, b, c);
    assert StartWorld(a, b, c).c.nodes.Keys == {a, b, c};
  }

  lemma StartCast(a: NodeId, b: NodeId, c: NodeId)
    requires ThreeIds(a, b, c)
    ensures var w := StartWorld(a, b, c);
      && Cast(w, a, b, c, BLANK, BLANK, BLANK) && w.kv.Keys == w.c.nodes.Keys && w.ahead.Keys == w.c.nodes.Keys
      && w.ops == map[] && w.c.h.clog == [] && w.kv[a] == map[]
  {
    assert PeerSet([b, c]) == {b, c} && PeerSet([a, c]) == {a, c} && PeerSet([a, b]) == {a, b};
  }

  /** A closed set to build a run in, and where the run starts. */
  lemma Begin(a: NodeId, b: NodeId, c: NodeId) returns (R: iset<World>, w: World)
    requires ThreeIds(a, b, c)
    ensures R == iset x | Reaches(w, x)
    ensures Initial(w) && In(R, w) && Cast(w, a, b, c, BLANK, BLANK, BLANK) && w.ops == map[] && w.c.h.clog == []
    ensures w.kv[a] == map[]
  {
    w := StartWorld(a, b, c);
    R := iset x | Reaches(w, x);
    StartIsInitial(a, b, c);
    StartCast(a, b, c);
    ReachesIsClosed(w);
    ReachesSelf(w);
  }
}
