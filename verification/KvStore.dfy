/** The key-value state machine: folding a log, and replaying one over a state that is ahead of it. */
module KvStore {
  import opened RaftTypes

  function ApplyCommand(kv: Kv, command: Command): Kv {
    match command
    case Put(key, value) => kv[key := value]
    case Delete(key) => kv - {key}
    case _ => kv
  }

  function Replay(kv: Kv, log: Log): Kv {
    if |log| == 0 then kv
    else ApplyCommand(Replay(kv, log[..|log| - 1]), log[|log| - 1].command)
  }

  /** The state after applying the whole log to an empty store. */
  function Fold(log: Log): Kv {
    Replay(map[], log)
  }

  function Get(kv: Kv, key: string): Option<string> {
    if key in kv then Some(kv[key]) else None
  }

  predicate Writes(command: Command, key: string) {
    (command.Put? || command.Delete?) && command.key == key
  }

  predicate WrittenIn(log: Log, lo: nat, hi: nat, key: string)
    requires hi <= |log|
  {
    exists i | lo <= i < hi :: Writes(log[i].command, key)
  }

  /**
    The store has applied the first `applied` entries of `log`, possibly on top
    of a state that had already seen the first `ahead`: a key may hold a later
    value only if an entry yet to be replayed writes it again.
   */
  ghost predicate Converging(kv: Kv, log: Log, applied: nat, ahead: nat) {
    && applied <= |log| && ahead <= |log|
    && forall key :: WrittenIn(log, applied, ahead, key) || Get(kv, key) == Get(Fold(log[..applied]), key)
  }

  lemma FoldStep(log: Log, n: nat)
    requires n < |log|
    ensures Fold(log[..n + 1]) == ApplyCommand(Fold(log[..n]), log[n].command)
  {
    assert log[..n + 1][..n] == log[..n];
  }

  lemma ApplyGet(a: Kv, b: Kv, command: Command, key: string)
    requires Get(a, key) == Get(b, key) || Writes(command, key)
    ensures Get(ApplyCommand(a, command), key) == Get(ApplyCommand(b, command), key)
  {
  }

  /** Applying the next entry keeps the store converging. */
  lemma ConvergingApply(kv: Kv, log: Log, applied: nat, ahead: nat)
    requires Converging(kv, log, applied, ahead) && applied < |log|
    ensures Converging(ApplyCommand(kv, log[applied].command), log, applied + 1, ahead)
  {
    var command := log[applied].command;
    FoldStep(log, applied);
    forall key
      ensures WrittenIn(log, applied + 1, ahead, key)
        || Get(ApplyCommand(kv, command), key) == Get(Fold(log[..applied + 1]), key)
    {
      if !WrittenIn(log, applied + 1, ahead, key) {
        assert forall i | applied < i < ahead :: !Writes(log[i].command, key);
        ApplyGet(kv, Fold(log[..applied]), command, key);
      }
    }
  }

  /** A key that no entry writes is absent. */
  lemma {:induction false} UnwrittenIsAbsent(log: Log, n: nat, key: string)
    requires n <= |log| && !WrittenIn(log, 0, n, key)
    ensures Get(Fold(log[..n]), key) == None
  {
    if n > 0 {
      FoldStep(log, n - 1);
      assert !Writes(log[n - 1].command, key);
      assert !WrittenIn(log, 0, n - 1, key) by {
        assert forall i | 0 <= i < n :: !Writes(log[i].command, key);
      }
      UnwrittenIsAbsent(log, n - 1, key);
    }
  }

  /** What a writing command leaves at its key. */
  function Effect(command: Command): Option<string> {
    if command.Put? then Some(command.value) else None
  }

  /** A key holds what the last entry that writes it put there, and nothing if that entry deletes it. */
  lemma {:induction false} LastWriteWins(log: Log, n: nat, key: string, i: nat)
    requires i < n <= |log| && Writes(log[i].command, key) && !WrittenIn(log, i + 1, n, key)
    ensures Get(Fold(log[..n]), key) == Effect(log[i].command)
  {
    FoldStep(log, n - 1);
    if i < n - 1 {
      assert !Writes(log[n - 1].command, key);
      assert !WrittenIn(log, i + 1, n - 1, key) by {
        assert forall k | i + 1 <= k < n :: !Writes(log[k].command, key);
      }
      LastWriteWins(log, n - 1, key, i);
    }
  }

  lemma {:induction false} LastWriter(log: Log, lo: nat, hi: nat, key: string) returns (k: nat)
    requires hi <= |log| && WrittenIn(log, lo, hi, key)
    ensures lo <= k < hi && Writes(log[k].command, key) && !WrittenIn(log, k + 1, hi, key)
    decreases hi
  {
    if Writes(log[hi - 1].command, key) {
      k := hi - 1;
    } else {
      k := LastWriter(log, lo, hi - 1, key);
    }
  }

  lemma ApplyAgain(kv: Kv, command: Command, key: string)
    requires Writes(command, key)
    ensures ApplyCommand(kv, command) == kv <==> Get(kv, key) == Effect(command)
  {
    assert Get(ApplyCommand(kv, command), key) == Effect(command);
  }

  /**
    Applying entry i of a log once more, after the first n, changes the store
    if and only if the last of the entries after it that write its key has
    another effect: this is what a late one of two overlapping applications does.
   */
  lemma LateApplyExactly(log: Log, n: nat, i: nat, key: string)
    requires i < n <= |log| && Writes(log[i].command, key)
    ensures ApplyCommand(Fold(log[..n]), log[i].command) != Fold(log[..n]) <==>
      exists k | i < k < n :: Writes(log[k].command, key) && !WrittenIn(log, k + 1, n, key)
        && Effect(log[k].command) != Effect(log[i].command)
  {
    ApplyAgain(Fold(log[..n]), log[i].command, key);
    if WrittenIn(log, i + 1, n, key) {
      var k := LastWriter(log, i + 1, n, key);
      LastWriteWins(log, n, key, k);
      assert forall m | i < m < n && Writes(log[m].command, key) && !WrittenIn(log, m + 1, n, key) :: m == k;
    } else {
      LastWriteWins(log, n, key, i);
    }
  }

  /** Losing the applied index, but not the store, leaves the store converging from the start. */
  lemma ConvergingFromStart(kv: Kv, log: Log, applied: nat, ahead: nat)
    requires Converging(kv, log, applied, ahead)
    ensures Converging(kv, log, 0, Max(applied, ahead))
  {
    var top := Max(applied, ahead);
    forall key ensures WrittenIn(log, 0, top, key) || Get(kv, key) == Get(Fold(log[..0]), key) {
      if !WrittenIn(log, 0, top, key) {
        assert forall i | 0 <= i < top :: !Writes(log[i].command, key);
        assert !WrittenIn(log, applied, ahead, key);
        UnwrittenIsAbsent(log, applied, key);
      }
    }
  }

  lemma {:induction false} FoldAgrees(log: Log, log': Log, n: nat)
    requires log <= log' && n <= |log|
    ensures Fold(log[..n]) == Fold(log'[..n])
  {
    assert log[..n] == log'[..n];
  }

  lemma ConvergingGrows(kv: Kv, log: Log, log': Log, applied: nat, ahead: nat, ahead': nat)
    requires Converging(kv, log, applied, ahead) && log <= log' && ahead <= ahead' <= |log'|
    ensures Converging(kv, log', applied, ahead')
  {
    FoldAgrees(log, log', applied);
    forall key ensures WrittenIn(log', applied, ahead', key) || Get(kv, key) == Get(Fold(log'[..applied]), key) {
      if WrittenIn(log, applied, ahead, key) {
        var i: nat :| applied <= i < ahead && Writes(log[i].command, key);
        assert Writes(log'[i].command, key);
      }
    }
  }

  /** A key that no entry between two points writes has one value at both. */
  lemma {:induction false} UnwrittenIsKept(log: Log, lo: nat, hi: nat, key: string)
    requires lo <= hi <= |log| && !WrittenIn(log, lo, hi, key)
    ensures Get(Fold(log[..lo]), key) == Get(Fold(log[..hi]), key)
    decreases hi
  {
    if lo < hi {
      assert forall i | lo <= i < hi :: !Writes(log[i].command, key);
      FoldStep(log, hi - 1);
      UnwrittenIsKept(log, lo, hi - 1, key);
    }
  }

  /** A store that has caught up is exactly the fold of the log. */
  lemma ConvergedIsExact(kv: Kv, log: Log, applied: nat, ahead: nat)
    requires Converging(kv, log, applied, ahead) && ahead <= applied
    ensures kv == Fold(log[..applied])
  {
    var fold := Fold(log[..applied]);
    forall key ensures key in kv <==> key in fold
      ensures key in kv ==> kv[key] == fold[key]
    {
      assert Get(kv, key) == Get(fold, key);
    }
  }

  /**
    Replaying entries applied+1..m over a store that had already seen the first
    `ahead` of them gives the fold of the first m, for every m that reaches both.
   */
  lemma {:induction false} ReplayConverges(kv: Kv, log: Log, applied: nat, ahead: nat, m: nat)
    requires Converging(kv, log, applied, ahead) && Max(applied, ahead) <= m <= |log|
    ensures Replay(kv, log[applied..m]) == Fold(log[..m])
  {
    ReplayKeepsConverging(kv, log, applied, ahead, m);
    ConvergedIsExact(Replay(kv, log[applied..m]), log, m, ahead);
  }

  lemma {:induction false} ReplayKeepsConverging(kv: Kv, log: Log, applied: nat, ahead: nat, m: nat)
    requires Converging(kv, log, applied, ahead) && applied <= m <= |log|
    ensures Converging(Replay(kv, log[applied..m]), log, m, ahead)
    decreases m
  {
    if applied < m {
      ReplayKeepsConverging(kv, log, applied, ahead, m - 1);
      assert log[applied..m][..m - 1 - applied] == log[applied..m - 1];
      ConvergingApply(Replay(kv, log[applied..m - 1]), log, m - 1, ahead);
    }
  }

  /**
    A snapshot taken after the first `a` entries but stored with index `b`
    restores the right store, at every later index, if and only if the entries
    between the two indices leave the store as it is.
   */
  lemma SnapshotRestoresExactly(log: Log, a: nat, b: nat)
    requires a <= |log| && b <= |log|
    ensures (forall m | b <= m <= |log| :: Replay(Fold(log[..a]), log[b..m]) == Fold(log[..m]))
      <==> Fold(log[..a]) == Fold(log[..b])
  {
    assert log[b..b] == [];
    if Fold(log[..a]) == Fold(log[..b]) {
      forall m | b <= m <= |log| ensures Replay(Fold(log[..a]), log[b..m]) == Fold(log[..m]) {
        ReplayConverges(Fold(log[..a]), log, b, b, m);
      }
    } else {
      assert Replay(Fold(log[..a]), log[b..b]) != Fold(log[..b]);
    }
  }

  // ---- While a restarted store catches up ----

  lemma {:induction false} ReplayedValue(kv: Kv, log: Log, n: nat, key: string)
    requires n <= |log|
    ensures Get(Replay(kv, log[..n]), key)
      == if WrittenIn(log, 0, n, key) then Get(Fold(log[..n]), key) else Get(kv, key)
  {
    if n > 0 {
      var command := log[n - 1].command;
      assert log[..n][..n - 1] == log[..n - 1];
      ReplayedValue(kv, log, n - 1, key);
      FoldStep(log, n - 1);
      assert WrittenIn(log, 0, n, key) <==> WrittenIn(log, 0, n - 1, key) || Writes(command, key);
      if WrittenIn(log, 0, n, key) {
        ApplyGet(Replay(kv, log[..n - 1]), Fold(log[..n - 1]), command, key);
      }
    }
  }

  /**
    A store that had seen the first `ahead` entries and replays them from the
    start shows, after the first n, the value its key has there exactly when
    one of those entries writes the key or the key is absent after all `ahead`.
   */
  lemma ReplayIsExactAt(log: Log, ahead: nat, n: nat, key: string)
    requires n <= ahead <= |log|
    ensures Get(Replay(Fold(log[..ahead]), log[..n]), key) == Get(Fold(log[..n]), key) <==>
      WrittenIn(log, 0, n, key) || Get(Fold(log[..ahead]), key) == None
  {
    ReplayedValue(Fold(log[..ahead]), log, n, key);
    if !WrittenIn(log, 0, n, key) {
      UnwrittenIsAbsent(log, n, key);
    }
  }
}
