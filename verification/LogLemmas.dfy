/** What merging a request into a log guarantees, whatever the request. */
module LogLemmas {
  import opened RaftTypes
  import opened LogOps

  /** If every entry from offset j on is matched, there is no difference to find. */
  lemma {:induction false} AllMatched(log: Log, prev: nat, entries: Log, j: nat)
    requires j <= |entries| ==> prev + j <= |log|
    requires forall k | j <= k < |entries| :: Matched(log, prev, entries, k)
    ensures FirstDifference(log, prev, entries, j) == |entries|
    decreases |entries| - j
  {
    if j < |entries| {
      assert Matched(log, prev, entries, j);
      AllMatched(log, prev, entries, j + 1);
    }
  }

  lemma SpliceNumbered(log: Log, cut: nat, entries: Log)
    requires cut <= |log| && Numbered(log)
    ensures Numbered(Splice(log, cut, entries))
  {
  }

  /** A merge keeps indices contiguous. */
  lemma MergeNumbered(log: Log, base: nat, prev: nat, entries: Log)
    requires base <= |log| && prev <= |log| && Numbered(log)
    ensures Numbered(Merge(log, base, prev, entries))
  {
    var d := FirstDifference(log, prev, entries, Skipped(base, prev));
    if d < |entries| {
      SpliceNumbered(log, prev + d, entries[d..]);
    }
  }

  /** Indices stay positions exactly if the request does not start beyond the end of the log or carries nothing. */
  lemma PlacedNumbered(log: Log, base: nat, prev: nat, entries: Log)
    requires base <= |log| && Numbered(log)
    ensures Numbered(Placed(log, base, prev, entries)) <==> prev <= |log| || |entries| == 0
  {
    PlacedCases(log, base, prev, entries);
    if prev <= |log| {
      MergeNumbered(log, base, prev, entries);
    } else if |entries| > 0 {
      assert (log + Renumber(prev + 1, entries))[|log|].index == prev + 1;
    } else {
      assert log + Renumber(prev + 1, entries) == log;
    }
  }

  /** After a merge the log holds the request's entries, where it could look, with their terms. */
  lemma MergedTerms(log: Log, base: nat, prev: nat, entries: Log, k: nat)
    requires base <= |log| && prev <= |log| && Skipped(base, prev) <= k < |entries|
    ensures Matched(Merge(log, base, prev, entries), prev, entries, k)
  {
    var d := FirstDifference(log, prev, entries, Skipped(base, prev));
    if d < |entries| && k >= d {
      assert Splice(log, prev + d, entries[d..])[prev + k].term == entries[d..][k - d].term;
    } else {
      assert Matched(log, prev, entries, k);
    }
  }

  /** Receiving the same request twice changes nothing the second time. */
  lemma MergeIdempotent(log: Log, base: nat, prev: nat, entries: Log)
    requires base <= |log| && prev <= |log|
    ensures var r := Merge(log, base, prev, entries);
      base <= |r| && prev <= |r| && Merge(r, base, prev, entries) == r
  {
    var r, skip := Merge(log, base, prev, entries), Skipped(base, prev);
    forall k | skip <= k < |entries| ensures Matched(r, prev, entries, k) {
      MergedTerms(log, base, prev, entries, k);
    }
    AllMatched(r, prev, entries, skip);
  }

  /** An older, shorter request of the same leader removes nothing a newer one added. */
  lemma StaleRequestKeeps(log: Log, g: Log, base: nat, prev: nat, older: nat, newer: nat)
    requires base <= |log| && prev <= |log| && prev <= older <= newer && Agree(log, g, newer)
    ensures Merge(log, base, prev, g[prev..older]) == log
  {
    var entries := g[prev..older];
    forall k | 0 <= k < |entries| ensures Matched(log, prev, entries, k) {
      AgreeAt(log, g, newer, prev + k);
    }
    AllMatched(log, prev, entries, Skipped(base, prev));
  }

  /**
    Acceptance means that the node still holds the previous entry, exactly for
    requests that name a nonzero term or an entry the node does hold: a request
    that names term zero passes the check wherever the node has no entry.
   */
  lemma AcceptedIsHeldExactly(log: Log, base: nat, prev: nat, prevTerm: nat)
    requires base <= |log|
    ensures (Accepts(log, base, prev, prevTerm) ==> prev == 0 || base <= prev <= |log|) <==>
      prevTerm > 0 || prev == 0 || base <= prev <= |log|
  {
    if prevTerm > 0 && Accepts(log, base, prev, prevTerm) {
      AcceptedPosition(log, base, prev, prevTerm);
    }
  }

  // ---- Compaction ----

  /** Scanning may start later if everything before matches. */
  lemma {:induction false} ScanFrom(log: Log, prev: nat, entries: Log, j: nat, k: nat)
    requires j <= k && (j < |entries| ==> prev + j <= |log|) && (k < |entries| ==> prev + k <= |log|)
    requires forall i | j <= i < k && i < |entries| :: Matched(log, prev, entries, i)
    ensures FirstDifference(log, prev, entries, j) == FirstDifference(log, prev, entries, k)
    decreases k - j
  {
    if j < k && j < |entries| {
      assert Matched(log, prev, entries, j);
      ScanFrom(log, prev, entries, j + 1, k);
    }
  }

  /**
    Compaction is invisible to replication: a request that a compacted node
    accepts, an uncompacted one accepts too; and when the request agrees with
    the compacted entries it overlaps, both end with the same log.
   */
  lemma CompactionInvisible(log: Log, base: nat, prev: nat, prevTerm: nat, entries: Log)
    requires base <= |log| && (prev > 0 ==> prevTerm > 0) && Accepts(log, base, prev, prevTerm)
    requires forall k | 0 <= k < |entries| && prev + k < base :: Matched(log, prev, entries, k)
    ensures prev <= |log| && Accepts(log, 0, prev, prevTerm)
    ensures Merge(log, base, prev, entries) == Merge(log, 0, prev, entries)
  {
    AcceptedPosition(log, base, prev, prevTerm);
    ScanFrom(log, prev, entries, 0, Skipped(base, prev));
  }
}
