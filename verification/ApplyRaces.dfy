/**
  Calls of ApplyCommitted at one node, interleaved as the lock allows
  (raft/node.go): each takes the next committed entry, hands it to the state
  machine and marks it applied, in three separate steps.
 */
module ApplyRaces {
  import opened RaftTypes
  import opened KvStore

  /** Where a call stands. */
  datatype Call = Ready | Took(index: nat) | Handed(index: nat)

  /** `log` is what is committed. */
  datatype Shared = Shared(log: Log, applied: nat, kv: Kv, calls: map<nat, Call>)

  datatype Move = Take(call: nat) | Hand(call: nat) | Mark(call: nat)

  predicate Enabled(s: Shared, move: Move) {
    && move.call in s.calls
    && match move
       case Take(c) => s.calls[c].Ready? && s.applied < |s.log|
       case Hand(c) => s.calls[c].Took? && 0 < s.calls[c].index <= |s.log|
       case Mark(c) => s.calls[c].Handed?
  }

  function Do(s: Shared, move: Move): Shared
    requires Enabled(s, move)
  {
    match move
    case Take(c) => s.(calls := s.calls[c := Took(s.applied + 1)])
    case Hand(c) =>
      var index := s.calls[c].index;
      s.(kv := ApplyCommand(s.kv, s.log[index - 1].command), calls := s.calls[c := Handed(index)])
    case Mark(c) => s.(applied := Max(s.applied, s.calls[c].index), calls := s.calls[c := Ready])
  }

  /** The moves lead from the one state to the other. */
  predicate Leads(s: Shared, moves: seq<Move>, s': Shared)
    decreases |moves|
  {
    if |moves| == 0 then s == s'
    else Enabled(s, moves[0]) && Leads(Do(s, moves[0]), moves[1..], s')
  }

  // ---- One call at a time ----

  /** The store of a node with one call under way is the fold of what is applied, and of the entry handed over. */
  predicate Exact(s: Shared, c: nat) {
    && s.calls.Keys == {c} && s.applied <= |s.log|
    && match s.calls[c]
       case Ready => s.kv == Fold(s.log[..s.applied])
       case Took(index) => index == s.applied + 1 <= |s.log| && s.kv == Fold(s.log[..s.applied])
       case Handed(index) => index == s.applied + 1 <= |s.log| && s.kv == Fold(s.log[..index])
  }

  lemma MoveKeepsExact(s: Shared, c: nat, move: Move)
    requires Exact(s, c) && Enabled(s, move)
    ensures Exact(Do(s, move), c)
  {
    assert move.call == c;
    if move.Hand? { FoldStep(s.log, s.applied); }
  }

  /** However one call after the other proceeds, the store stays exact. */
  lemma {:induction false} SerialCallsAreExact(s: Shared, c: nat, moves: seq<Move>, s': Shared)
    requires Exact(s, c) && Leads(s, moves, s')
    ensures Exact(s', c)
    decreases |moves|
  {
    if |moves| > 0 {
      MoveKeepsExact(s, c, moves[0]);
      SerialCallsAreExact(Do(s, moves[0]), c, moves[1..], s');
    }
  }

  // ---- Two calls that overlap ----

  lemma {:induction false} LeadsOn(s: Shared, moves: seq<Move>, s': Shared, more: seq<Move>, s'': Shared)
    requires Leads(s, moves, s') && Leads(s', more, s'')
    ensures Leads(s, moves + more, s'')
    decreases |moves|
  {
    if |moves| == 0 {
      assert moves + more == more;
    } else {
      LeadsOn(Do(s, moves[0]), moves[1..], s', more, s'');
      assert (moves + more)[1..] == moves[1..] + more;
    }
  }

  /** One call applies the next entry. */
  lemma AppliesOne(s: Shared, c: nat) returns (moves: seq<Move>)
    requires c in s.calls && s.calls[c].Ready? && s.applied < |s.log|
    ensures Leads(s, moves, s.(applied := s.applied + 1, kv := ApplyCommand(s.kv, s.log[s.applied].command)))
  {
    moves := [Take(c), Hand(c), Mark(c)];
    var s1 := Do(s, Take(c));
    var s2 := Do(s1, Hand(c));
    var s3 := Do(s2, Mark(c));
    assert s3.calls == s.calls;
    assert Leads(s2, [Mark(c)], s3);
    assert moves[1..] == [Hand(c), Mark(c)] && moves[1..][1..] == [Mark(c)];
  }

  /** One call applies all entries up to an index. */
  lemma {:induction false} AppliesUpTo(s: Shared, c: nat, n: nat) returns (moves: seq<Move>)
    requires c in s.calls && s.calls[c].Ready? && s.applied <= n <= |s.log| && s.kv == Fold(s.log[..s.applied])
    ensures Leads(s, moves, s.(applied := n, kv := Fold(s.log[..n])))
    decreases n
  {
    if n == s.applied {
      moves := [];
    } else {
      var before := AppliesUpTo(s, c, n - 1);
      var s1 := s.(applied := n - 1, kv := Fold(s.log[..n - 1]));
      var last := AppliesOne(s1, c);
      FoldStep(s.log, n - 1);
      LeadsOn(s, before, s1, last, s.(applied := n, kv := Fold(s.log[..n])));
      moves := before + last;
    }
  }

  /** A node with two calls, nothing applied. */
  function Fresh(log: Log): Shared {
    Shared(log, 0, map[], map[0 := Ready, 1 := Ready])
  }

  /** A call hands over an entry that was applied in the meantime. */
  lemma HandsLate(s: Shared, c: nat) returns (moves: seq<Move>)
    requires c in s.calls && s.calls[c].Took? && 0 < s.calls[c].index <= |s.log| == s.applied
    ensures var command := s.log[s.calls[c].index - 1].command;
      Leads(s, moves, s.(kv := ApplyCommand(s.kv, command), calls := s.calls[c := Ready]))
  {
    moves := [Hand(c), Mark(c)];
    var s1 := Do(s, Hand(c));
    assert Do(s1, Mark(c)).calls == s.calls[c := Ready];
    assert Leads(s1, [Mark(c)], Do(s1, Mark(c)));
    assert moves[1..] == [Mark(c)];
  }

  /** Two calls: the first takes entry `i`, the second applies everything, and the first hands its entry over late. */
  lemma OverlapRun(log: Log, i: nat) returns (moves: seq<Move>, s: Shared)
    requires i < |log|
    ensures Leads(Fresh(log), moves, s) && s.applied == |log| && s.calls == Fresh(log).calls
    ensures s.kv == ApplyCommand(Fold(log), log[i].command)
  {
    assert log[..0] == [] && log[..|log|] == log;
    var before := AppliesUpTo(Fresh(log), 0, i);
    var s1 := Fresh(log).(applied := i, kv := Fold(log[..i]));
    var s2 := Do(s1, Take(0));
    assert Leads(s1, [Take(0)], s2);
    var rest := AppliesUpTo(s2, 1, |log|);
    var s3 := s2.(applied := |log|, kv := Fold(log));
    var late := HandsLate(s3, 0);
    s := s3.(kv := ApplyCommand(Fold(log), log[i].command), calls := s3.calls[0 := Ready]);
    assert s.calls == Fresh(log).calls;
    LeadsOn(s2, rest, s3, late, s);
    LeadsOn(s1, [Take(0)], s2, rest + late, s);
    LeadsOn(Fresh(log), before, s1, [Take(0)] + (rest + late), s);
    moves := before + ([Take(0)] + (rest + late));
  }

  /**
    For any committed log in which a key is written twice with different
    effects, the second write being the key's last, there is a run of two
    overlapping calls after which everything is applied and the store is not
    the fold of the log.
   */
  lemma OverlapCanSpoilStore(log: Log, i: nat, k: nat, key: string)
    requires i < k < |log| && Writes(log[i].command, key) && Writes(log[k].command, key)
    requires !WrittenIn(log, k + 1, |log|, key) && Effect(log[k].command) != Effect(log[i].command)
    ensures exists moves, s ::
      Leads(Fresh(log), moves, s) && s.applied == |log| && s.calls == Fresh(log).calls && s.kv != Fold(log)
  {
    var moves, s := OverlapRun(log, i);
    assert log[..|log|] == log;
    LateApplyExactly(log, |log|, i, key);
  }
}
