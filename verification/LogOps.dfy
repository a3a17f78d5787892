/**
  What an AppendEntries request does to a log, as a function of the whole log.

  A node keeps only the entries after its snapshot index `base`; the functions
  here take the whole log and hide the first `base` entries where the node
  cannot see them.
 */
module LogOps {
  import opened RaftTypes

  function LastTerm(log: Log): nat {
    if |log| == 0 then 0 else log[|log| - 1].term
  }

  /** The term at index `i` (counted from 1) of a whole log; zero outside it. */
  function TermIn(log: Log, i: nat): nat {
    if 0 < i <= |log| then log[i - 1].term else 0
  }

  /** The term a node sees at index `i` once entries before `base` are compacted. */
  function VisibleTerm(log: Log, base: nat, i: nat): nat {
    if i < base then 0 else TermIn(log, i)
  }

  function Renumber(start: nat, entries: Log): (r: Log)
    ensures |r| == |entries|
  {
    seq(|entries|, j requires 0 <= j < |entries| => entries[j].(index := start + j))
  }

  predicate Agree(a: Log, b: Log, m: nat) {
    m <= |a| && m <= |b| && a[..m] == b[..m]
  }

  /** Entry number k of the log carries index k. */
  predicate Numbered(log: Log) {
    forall i | 0 <= i < |log| :: log[i].index == i + 1
  }

  /** Two logs that hold the same term at an index agree on everything up to it. */
  predicate LogMatching(a: Log, b: Log) {
    forall i | 0 <= i < |a| && i < |b| && a[i].term == b[i].term :: a[..i + 1] == b[..i + 1]
  }

  /** The consistency check on the entry before the new ones. */
  predicate Accepts(log: Log, base: nat, prev: nat, prevTerm: nat) {
    prev == 0 || VisibleTerm(log, base, prev) == prevTerm
  }

  /** The log holds an entry of the same term where the request's entry number k belongs. */
  predicate Matched(log: Log, prev: nat, entries: Log, k: nat) {
    k < |entries| && prev + k < |log| && log[prev + k].term == entries[k].term
  }

  /** The first offset, from `j` on, whose entry the log lacks or holds with another term. */
  function FirstDifference(log: Log, prev: nat, entries: Log, j: nat): (d: nat)
    requires j < |entries| ==> prev + j <= |log|
    ensures d <= |entries|
    ensures j <= |entries| ==> j <= d
    ensures d < |entries| ==> prev + d <= |log|
    ensures forall k | j <= k < d :: Matched(log, prev, entries, k)
    ensures !Matched(log, prev, entries, d)
    decreases |entries| - j
  {
    if j >= |entries| then |entries|
    else if Matched(log, prev, entries, j) then
      FirstDifference(log, prev, entries, j + 1)
    else j
  }

  /** The first `cut` entries of the log, then the given ones, numbered onwards. */
  function Splice(log: Log, cut: nat, entries: Log): (r: Log)
    requires cut <= |log|
    ensures |r| == cut + |entries|
    ensures forall i | 0 <= i < cut :: r[i] == log[i]
    ensures forall i | cut <= i < |r| :: r[i] == entries[i - cut].(index := i + 1)
  {
    log[..cut] + Renumber(cut + 1, entries)
  }

  /** The offset of the first entry beyond the snapshot. */
  function Skipped(base: nat, prev: nat): nat {
    if prev < base then base - prev else 0
  }

  /**
    Keep the log up to the first missing or conflicting entry beyond the
    snapshot, then take the rest of the request.
   */
  function Merge(log: Log, base: nat, prev: nat, entries: Log): Log
    requires base <= |log| && prev <= |log|
  {
    var d := FirstDifference(log, prev, entries, Skipped(base, prev));
    if d == |entries| then log else Splice(log, prev + d, entries[d..])
  }

  // ---- Requests beyond the end of the log ----

  /** Where the scan stops: nothing is matched beyond the end of the log. */
  function Cut(log: Log, base: nat, prev: nat, entries: Log): (d: nat)
    requires base <= |log|
    ensures d <= |entries| && (d < |entries| ==> base <= prev + d)
  {
    if prev <= |log| then FirstDifference(log, prev, entries, Skipped(base, prev)) else 0
  }

  /** The entries go to position `length`, or to the end of the log, numbered from `length` on either way. */
  function PutAt(log: Log, length: nat, entries: Log): Log {
    if length <= |log| then Splice(log, length, entries) else log + Renumber(length + 1, entries)
  }

  function Placed(log: Log, base: nat, prev: nat, entries: Log): Log
    requires base <= |log|
  {
    var d := Cut(log, base, prev, entries);
    if d == |entries| then log else PutAt(log, prev + d, entries[d..])
  }

  /** The index of the last entry, once they are placed. */
  function LastPlaced(log: Log, base: nat, prev: nat, entries: Log): nat
    requires base <= |log|
  {
    if prev <= |log| then |Placed(log, base, prev, entries)|
    else if |entries| == 0 then |log| else prev + |entries|
  }

  /** Within the log this is the merge; beyond it, a gap is left. */
  lemma PlacedCases(log: Log, base: nat, prev: nat, entries: Log)
    requires base <= |log|
    ensures prev <= |log| ==>
      && Placed(log, base, prev, entries) == Merge(log, base, prev, entries)
      && LastPlaced(log, base, prev, entries) == |Merge(log, base, prev, entries)|
    ensures prev > |log| ==> Placed(log, base, prev, entries) == log + Renumber(prev + 1, entries)
  {
    if prev > |log| {
      assert entries[0..] == entries;
      assert |entries| == 0 ==> log + Renumber(prev + 1, entries) == log;
    }
  }

  lemma PlacedAtCut(log: Log, base: nat, prev: nat, entries: Log)
    requires base <= |log|
    ensures var d := Cut(log, base, prev, entries);
      && (d == |entries| ==> Placed(log, base, prev, entries) == log && LastPlaced(log, base, prev, entries) == |log|)
      && (d < |entries| ==> Placed(log, base, prev, entries) == PutAt(log, prev + d, entries[d..]))
      && (d < |entries| && prev > |log| ==> LastPlaced(log, base, prev, entries) == prev + d + |entries[d..]|)
  {
  }

  lemma AcceptedPosition(log: Log, base: nat, prev: nat, prevTerm: nat)
    requires base <= |log|
    requires prev > 0 ==> prevTerm > 0
    requires Accepts(log, base, prev, prevTerm)
    ensures prev == 0 || base <= prev <= |log|
  {
  }

  /** Splicing the leader's entries onto a log that agrees with it gives the leader's log. */
  lemma SpliceFollows(log: Log, g: Log, cut: nat, m: nat)
    requires Agree(log, g, cut) && cut <= m <= |g| && Numbered(g)
    ensures Splice(log, cut, g[cut..m]) == g[..m]
  {
    var r := Splice(log, cut, g[cut..m]);
    forall i | 0 <= i < m ensures r[i] == g[i] {
      AgreeAt(log, g, cut, i);
      assert i >= cut ==> r[i] == g[cut..m][i - cut];
    }
  }

  lemma AgreeShorter(a: Log, b: Log, m: nat, k: nat)
    requires Agree(a, b, m) && k <= m
    ensures Agree(a, b, k)
  {
    assert a[..k] == a[..m][..k];
    assert b[..k] == b[..m][..k];
  }

  /** The two logs agree up to the point where the merge cuts. */
  lemma MergeAgreesBeforeCut(log: Log, g: Log, base: nat, prev: nat, m: nat, cut: nat)
    requires base <= |log| && prev <= |log| && prev <= m <= |g|
    requires LogMatching(log, g) && Agree(log, g, Min(base, m))
    requires prev == 0 || (base <= prev && TermIn(log, prev) == TermIn(g, prev))
    requires Max(prev, Min(base, m)) <= cut <= |log| && cut <= m
    requires forall i | Max(prev, base) <= i < cut :: log[i].term == g[i].term
    ensures Agree(log, g, cut)
  {
    if cut > Max(prev, base) {
      assert log[cut - 1].term == g[cut - 1].term;
    } else if prev == cut && prev > 0 {
      assert log[prev - 1].term == g[prev - 1].term;
    } else {
      assert cut == Min(base, m);
    }
  }

  /** Up to the cut, the request's entries match the log's terms. */
  lemma SpanBeforeCut(log: Log, g: Log, base: nat, prev: nat, m: nat)
    requires base <= |log| && prev <= |log| && prev <= m <= |g|
    ensures var d := FirstDifference(log, prev, g[prev..m], Skipped(base, prev));
      && prev + d <= m
      && (d < m - prev ==> prev + d <= |log|)
      && (d == m - prev && base < m ==> m <= |log|)
      && forall i | Max(prev, base) <= i < prev + d :: i < |log| && log[i].term == g[i].term
  {
    var entries := g[prev..m];
    var d := FirstDifference(log, prev, entries, Skipped(base, prev));
    forall i | Max(prev, base) <= i < prev + d ensures i < |log| && log[i].term == g[i].term {
      assert Matched(log, prev, entries, i - prev);
      assert entries[i - prev] == g[i];
    }
    if d == m - prev && base < m && prev < m {
      assert Matched(log, prev, entries, d - 1);
    }
  }

  lemma SliceRest(g: Log, prev: nat, m: nat, d: nat)
    requires prev + d <= m <= |g|
    ensures g[prev..m][d..] == g[prev + d..m]
  {
  }

  lemma MergeIsSplice(log: Log, base: nat, prev: nat, entries: Log, d: nat)
    requires base <= |log| && prev <= |log|
    requires d == FirstDifference(log, prev, entries, Skipped(base, prev)) && d < |entries|
    ensures prev + d <= |log| && Merge(log, base, prev, entries) == Splice(log, prev + d, entries[d..])
  {
  }

  lemma MergeAtCut(log: Log, g: Log, base: nat, prev: nat, m: nat, d: nat)
    requires base <= |log| && prev <= |log| && prev <= m <= |g| && Numbered(g)
    requires d == FirstDifference(log, prev, g[prev..m], Skipped(base, prev)) && d < m - prev && Agree(log, g, prev + d)
    ensures Merge(log, base, prev, g[prev..m]) == g[..m]
  {
    MergeIsSplice(log, base, prev, g[prev..m], d);
    SliceRest(g, prev, m, d);
    SpliceFollows(log, g, prev + d, m);
  }

  /**
    A request that carries entries prev+1..m of the leader's log `g`, accepted
    by a node whose log matches `g` and which agrees with it on the compacted
    part, leaves the node agreeing with `g` through m.
   */
  lemma MergeFollowsLeader(log: Log, g: Log, base: nat, prev: nat, m: nat)
    requires base <= |log| && prev <= |log| && prev <= m <= |g| && Numbered(g)
    requires LogMatching(log, g) && Agree(log, g, Min(base, m))
    requires prev == 0 || (base <= prev && TermIn(log, prev) == TermIn(g, prev))
    ensures var r := Merge(log, base, prev, g[prev..m]);
      Agree(r, g, m) && (r == log || r == g[..m])
  {
    SpanBeforeCut(log, g, base, prev, m);
    var entries := g[prev..m];
    var d := FirstDifference(log, prev, entries, Skipped(base, prev));
    if d < |entries| {
      MergeAgreesBeforeCut(log, g, base, prev, m, prev + d);
      MergeAtCut(log, g, base, prev, m, d);
    } else if base < m {
      MergeAgreesBeforeCut(log, g, base, prev, m, m);
    }
  }

  lemma AgreeAt(a: Log, b: Log, m: nat, i: nat)
    requires Agree(a, b, m)
    ensures i < m ==> a[i] == b[i]
  {
    if i < m {
      assert a[i] == a[..m][i];
    }
  }

  /** A merge never removes what the log already shares with the leader. */
  lemma MergeKeepsAgreement(log: Log, g: Log, base: nat, prev: nat, m: nat, k: nat)
    requires base <= |log| && prev <= |log| && prev <= m <= |g|
    requires Agree(log, g, k)
    ensures Agree(Merge(log, base, prev, g[prev..m]), log, k)
  {
    var entries := g[prev..m];
    var d := FirstDifference(log, prev, entries, Skipped(base, prev));
    AgreeAt(log, g, k, prev + d);
    assert !Matched(log, prev, entries, d);
  }
}
