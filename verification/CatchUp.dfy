/**
  Bringing a follower up to date: the leader backs up one entry per refused
  request until the follower accepts (raft/node.go, raft/heartbeat.go).
 */
module CatchUp {
  import opened RaftTypes
  import opened LogOps
  import opened NodeModel

  /** The length of the longest common prefix, from k on. */
  function AgreedFrom(a: Log, b: Log, k: nat): (m: nat)
    requires Agree(a, b, k)
    ensures k <= m && Agree(a, b, m) && (m < |a| && m < |b| ==> a[m] != b[m])
    decreases |a| - k
  {
    if k < |a| && k < |b| && a[k] == b[k] then
      assert a[..k + 1] == a[..k] + [a[k]] && b[..k + 1] == b[..k] + [b[k]];
      AgreedFrom(a, b, k + 1)
    else k
  }

  function Agreed(a: Log, b: Log): (m: nat)
    ensures Agree(a, b, m) && (m < |a| && m < |b| ==> a[m] != b[m])
  {
    AgreedFrom(a, b, 0)
  }

  /** Logs that agree through m agree at least that far. */
  lemma AgreedIsLongest(a: Log, b: Log, m: nat)
    requires Agree(a, b, m)
    ensures m <= Agreed(a, b)
  {
    AgreeAt(a, b, m, Agreed(a, b));
  }

  /**
    A leader and a follower of its cluster: the follower may follow, their logs
    match, they agree on what the follower has committed, and the leader's
    progress for it lies within its log.
   */
  ghost predicate Pair(l: NodeState, f: NodeState, q: NodeId) {
    && l.role.Leader? && l.nextIndex.Some? && l.matchIndex.Some? && q in l.nextIndex.value
    && 1 <= l.nextIndex.value[q] <= |l.log| + 1 && l.base <= |l.log|
    && f.term <= l.term && IsMember(f, l.id)
    && Numbered(l.log) && (forall i | 0 <= i < |l.log| :: l.log[i].term > 0)
    && LogMatching(f.log, l.log)
    && f.base <= f.commit && Agree(f.log, l.log, f.commit)
  }

  /** The index of the entry before those the next request carries. */
  function Probe(l: NodeState, q: NodeId): nat {
    SendFrom(l, q) - 1
  }

  lemma RequestShape(l: NodeState, f: NodeState, q: NodeId)
    requires Pair(l, f, q)
    ensures var req, p := BuildAppend(l, q), Probe(l, q);
      && l.base <= p <= |l.log| && req.prevIndex == p && req.prevTerm == TermIn(l.log, p)
      && req.entries == l.log[p..|l.log|] && req.Last() == |l.log| && req.WellFormed()
      && f.base <= |f.log|
  {
    BuiltShape(l, q);
    var p := Probe(l, q);
    assert p > 0 ==> l.log[p - 1].term > 0;
  }

  lemma BuiltShape(l: NodeState, q: NodeId)
    requires l.nextIndex.Some? && q in l.nextIndex.value
    requires 1 <= l.nextIndex.value[q] <= |l.log| + 1 && l.base <= |l.log|
    ensures var req, p := BuildAppend(l, q), Probe(l, q);
      && l.base <= p <= |l.log| && req.prevIndex == p && req.prevTerm == TermIn(l.log, p)
      && req.entries == l.log[p..|l.log|] && req.Last() == |l.log|
  {
  }

  /** The follower accepts exactly from the start, or from a point it still holds and agrees on. */
  lemma AcceptedExactly(l: NodeState, f: NodeState, q: NodeId)
    requires Pair(l, f, q)
    ensures BuildAppend(l, q).WellFormed() && f.base <= |f.log|
    ensures AnswerAppend(f, BuildAppend(l, q)).1.success <==>
            Probe(l, q) == 0 || f.base <= Probe(l, q) <= Agreed(f.log, l.log)
  {
    RequestShape(l, f, q);
    var p, a := Probe(l, q), Agreed(f.log, l.log);
    if 0 < p <= a {
      AgreeAt(f.log, l.log, a, p - 1);
    } else if p > 0 && TermIn(f.log, p) == TermIn(l.log, p) {
      assert f.log[p - 1].term == l.log[p - 1].term;
      AgreedIsLongest(f.log, l.log, p);
    }
  }

  /** Once it accepts, the follower agrees with the leader through the leader's last entry. */
  lemma AcceptedCatchesUp(l: NodeState, f: NodeState, q: NodeId)
    requires Pair(l, f, q)
    requires BuildAppend(l, q).WellFormed() && f.base <= |f.log| && AnswerAppend(f, BuildAppend(l, q)).1.success
    ensures Agree(AnswerAppend(f, BuildAppend(l, q)).0.log, l.log, |l.log|)
  {
    RequestShape(l, f, q);
    AcceptedExactly(l, f, q);
    var p := Probe(l, q);
    AcceptedPosition(f.log, f.base, p, TermIn(l.log, p));
    PlacedCases(f.log, f.base, p, l.log[p..|l.log|]);
    AgreeShorter(f.log, l.log, f.commit, Min(f.base, |l.log|));
    MergeFollowsLeader(f.log, l.log, f.base, p, |l.log|);
  }

  /** A refusal backs the leader up by one entry, down to its own snapshot. */
  lemma RefusedBacksUp(l: NodeState, f: NodeState, q: NodeId)
    requires Pair(l, f, q)
    requires BuildAppend(l, q).WellFormed() && f.base <= |f.log| && !AnswerAppend(f, BuildAppend(l, q)).1.success
    ensures var l', f' := RecordFailure(l, q), AnswerAppend(f, BuildAppend(l, q)).0;
      && Pair(l', f', q) && l'.log == l.log && l'.base == l.base && f'.log == f.log && f'.base == f.base
      && (Probe(l, q) > l.base ==>
            Probe(l', q) == Probe(l, q) - 1 && l'.nextIndex.value[q] == l.nextIndex.value[q] - 1)
      && (Probe(l, q) == l.base ==> l' == l)
  {
  }

  /** Requests and refusals until one is accepted; nothing if the leader can back up no further. */
  datatype Outcome = Caught(refusals: nat, leader: NodeState, follower: NodeState) | Stuck

  function Exchange(l: NodeState, f: NodeState, q: NodeId): Outcome
    requires Pair(l, f, q)
    decreases Probe(l, q)
  {
    AcceptedExactly(l, f, q);
    var (f', reply) := AnswerAppend(f, BuildAppend(l, q));
    if reply.success then
      Caught(0, RecordSuccess(l, q, BuildAppend(l, q).Last()), f')
    else
      RefusedBacksUp(l, f, q);
      var l' := RecordFailure(l, q);
      if l' == l then Stuck
      else
        match Exchange(l', f', q)
        case Stuck => Stuck
        case Caught(n, l'', f'') => Caught(n + 1, l'', f'')
  }

  /** The leader has a point to offer that the follower holds, agrees on and can still check. */
  ghost predicate CanCatchUp(l: NodeState, f: NodeState, q: NodeId) {
    l.base == 0 || (l.base <= Agreed(f.log, l.log) && f.base <= Probe(l, q))
  }

  /** How far the leader has to back up. */
  ghost function Distance(l: NodeState, f: NodeState, q: NodeId): nat {
    var p, a := Probe(l, q), Agreed(f.log, l.log);
    if p < f.base then p else if p > a then p - a else 0
  }

  lemma CommittedIsAgreed(l: NodeState, f: NodeState, q: NodeId)
    requires Pair(l, f, q)
    ensures f.base <= Agreed(f.log, l.log)
  {
    AgreedIsLongest(f.log, l.log, f.commit);
  }

  /**
    The exchange ends exactly when the leader has not compacted past the last
    point of agreement and has not backed up behind the follower's snapshot, or
    has compacted nothing. It then takes exactly the distance in refusals, at
    most the initial nextIndex, and leaves the follower agreeing with the
    leader through the leader's last entry, with matchIndex recording it.
   */
  lemma {:induction false} CatchUpExact(l: NodeState, f: NodeState, q: NodeId)
    requires Pair(l, f, q)
    ensures var r := Exchange(l, f, q);
      && (r.Caught? <==> CanCatchUp(l, f, q))
      && (r.Caught? ==>
            && r.refusals == Distance(l, f, q) < l.nextIndex.value[q]
            && r.leader.log == l.log && Agree(r.follower.log, l.log, |l.log|)
            && Lookup(r.leader.matchIndex, q) == |l.log|)
    decreases Probe(l, q)
  {
    RequestShape(l, f, q);
    AcceptedExactly(l, f, q);
    CommittedIsAgreed(l, f, q);
    var (f', reply) := AnswerAppend(f, BuildAppend(l, q));
    if reply.success {
      AcceptedCatchesUp(l, f, q);
    } else {
      RefusedBacksUp(l, f, q);
      if RecordFailure(l, q) != l {
        CatchUpExact(RecordFailure(l, q), f', q);
      }
    }
  }

  // ---- With other activity between requests ----

  lemma AgreedGrows(a: Log, b: Log, b': Log)
    requires b <= b'
    ensures Agreed(a, b) <= Agreed(a, b')
    ensures Agreed(a, b) < |b| ==> Agreed(a, b') == Agreed(a, b)
  {
    var m, m' := Agreed(a, b), Agreed(a, b');
    assert b[..m] == b'[..m];
    AgreedIsLongest(a, b', m);
    assert m < |b| ==> b'[m] == b[m];
    AgreeAt(a, b', m', m);
  }

  /**
    What may happen to the two nodes between requests: the leader appends,
    commits, applies, compacts and hears other peers; the follower commits,
    applies and compacts.
   */
  ghost predicate Between(l: NodeState, f: NodeState, l': NodeState, f': NodeState, q: NodeId) {
    && Pair(l, f, q) && Pair(l', f', q)
    && l.log <= l'.log && l.base <= l'.base && l'.nextIndex.value[q] == l.nextIndex.value[q]
    && f'.log == f.log && f.base <= f'.base
  }

  ghost predicate Refused(l: NodeState, f: NodeState, q: NodeId) {
    && Pair(l, f, q) && BuildAppend(l, q).WellFormed() && f.base <= |f.log|
    && !AnswerAppend(f, BuildAppend(l, q)).1.success
  }

  /** A request is refused, and then other things happen before the next one. */
  ghost predicate RefusedThen(l: NodeState, f: NodeState, l': NodeState, f': NodeState, q: NodeId) {
    Refused(l, f, q) && Between(RecordFailure(l, q), AnswerAppend(f, BuildAppend(l, q)).0, l', f', q)
  }

  /** Each refusal brings a pair that can catch up closer, whatever else happens. */
  lemma RefusedGetsCloser(l: NodeState, f: NodeState, l': NodeState, f': NodeState, q: NodeId)
    requires RefusedThen(l, f, l', f', q) && CanCatchUp(l, f, q) && CanCatchUp(l', f', q)
    ensures Distance(l', f', q) < Distance(l, f, q)
  {
    AcceptedExactly(l, f, q);
    RefusedBacksUp(l, f, q);
    AgreedGrows(f.log, l.log, l'.log);
    CommittedIsAgreed(l, f, q);
    CommittedIsAgreed(l', f', q);
  }

  /**
    Requests 0 to n of one leader to one follower, with anything in between,
    the first n of them refused: as long as the pair can catch up, n is at most
    the distance at the first request, which is below its nextIndex.
   */
  lemma {:induction false} RefusalsAreBounded(ls: seq<NodeState>, fs: seq<NodeState>, q: NodeId, n: nat)
    requires n < |ls| == |fs| && Pair(ls[0], fs[0], q) && forall k | 0 <= k <= n :: CanCatchUp(ls[k], fs[k], q)
    requires forall k | 0 <= k < n :: RefusedThen(ls[k], fs[k], ls[k + 1], fs[k + 1], q)
    ensures n + Distance(ls[n], fs[n], q) <= Distance(ls[0], fs[0], q) < ls[0].nextIndex.value[q]
  {
    if n == 0 {
      CatchUpExact(ls[0], fs[0], q);
    } else {
      RefusalsAreBounded(ls, fs, q, n - 1);
      RefusedGetsCloser(ls[n - 1], fs[n - 1], ls[n], fs[n], q);
    }
  }

  /** A pair that can catch up is refused exactly as long as there is a distance left. */
  lemma RefusedAtADistance(l: NodeState, f: NodeState, q: NodeId)
    requires Pair(l, f, q) && CanCatchUp(l, f, q)
    ensures Refused(l, f, q) <==> Distance(l, f, q) > 0
  {
    AcceptedExactly(l, f, q);
    CommittedIsAgreed(l, f, q);
  }

  /**
    A pair that cannot catch up comes to be able to exactly when the leader,
    still holding the last point of agreement, compacts up to the follower's
    snapshot.
   */
  lemma StuckUntilCompaction(l: NodeState, f: NodeState, l': NodeState, f': NodeState, q: NodeId)
    requires Between(l, f, l', f', q) && !CanCatchUp(l, f, q)
    ensures CanCatchUp(l', f', q) <==>
      l.base <= Agreed(f.log, l.log) && f'.base <= l'.base <= Agreed(f'.log, l'.log)
  {
    AgreedGrows(f.log, l.log, l'.log);
  }
}
