/** Commit advancement: the sorted-position rule of maybeCommit refines
    counting which indexes a majority has reached. */
module Commit {
  import opened Basics
  import opened RaftNode

  // ---- sorting and counting ----

  function Insert(x: int, s: seq<int>): seq<int> {
    if s == [] || x <= s[0] then [x] + s else [s[0]] + Insert(x, s[1..])
  }

  /** sort.Ints. */
  function SortInts(s: seq<int>): seq<int> {
    if s == [] then [] else Insert(s[0], SortInts(s[1..]))
  }

  ghost predicate Ascending(s: seq<int>) {
    forall i, j | 0 <= i < j < |s| :: s[i] <= s[j]
  }

  /** How many of `s` have reached `k`. */
  function Reached(s: seq<int>, k: int): nat {
    if s == [] then 0 else (if s[0] >= k then 1 else 0) + Reached(s[1..], k)
  }

  lemma {:induction false} InsertBounded(x: int, s: seq<int>, lo: int)
    requires lo <= x && forall i | 0 <= i < |s| :: lo <= s[i]
    ensures forall i | 0 <= i < |Insert(x, s)| :: lo <= Insert(x, s)[i]
  {
    if s != [] && x > s[0] { InsertBounded(x, s[1..], lo); }
  }

  lemma {:induction false} InsertAscends(x: int, s: seq<int>)
    requires Ascending(s)
    ensures Ascending(Insert(x, s))
  {
    if s != [] && x > s[0] {
      InsertAscends(x, s[1..]);
      InsertBounded(x, s[1..], s[0]);
    }
  }

  lemma {:induction false} InsertPermutes(x: int, s: seq<int>)
    ensures multiset(Insert(x, s)) == multiset([x] + s)
  {
    if s != [] && x > s[0] {
      InsertPermutes(x, s[1..]);
      assert s == [s[0]] + s[1..];
    }
  }

  lemma {:induction false} SortIntsSorts(s: seq<int>)
    ensures Ascending(SortInts(s)) && multiset(SortInts(s)) == multiset(s) && |SortInts(s)| == |s|
  {
    if s == [] {
    } else {
      SortIntsSorts(s[1..]);
      InsertAscends(s[0], SortInts(s[1..]));
      InsertPermutes(s[0], SortInts(s[1..]));
      assert s == [s[0]] + s[1..];
    }
    assert |multiset(SortInts(s))| == |SortInts(s)| && |multiset(s)| == |s|;
  }

  lemma {:induction false} ReachedAfterInsert(x: int, s: seq<int>, k: int)
    ensures Reached(Insert(x, s), k) == Reached([x] + s, k)
  {
    if s != [] && x > s[0] {
      ReachedAfterInsert(x, s[1..], k);
      assert Insert(x, s)[1..] == Insert(x, s[1..]);
      assert ([x] + s[1..])[1..] == s[1..] && ([x] + s)[1..] == s;
    }
  }

  lemma {:induction false} ReachedAfterSort(s: seq<int>, k: int)
    ensures Reached(SortInts(s), k) == Reached(s, k)
  {
    if s == [] {
    } else {
      ReachedAfterSort(s[1..], k);
      ReachedAfterInsert(s[0], SortInts(s[1..]), k);
      assert ([s[0]] + SortInts(s[1..]))[1..] == SortInts(s[1..]);
    }
  }

  lemma {:induction false} ReachedBounds(s: seq<int>, k: int)
    ensures Reached(s, k) <= |s|
    ensures (forall i | 0 <= i < |s| :: s[i] >= k) ==> Reached(s, k) == |s|
    ensures (forall i | 0 <= i < |s| :: s[i] < k) ==> Reached(s, k) == 0
  {
    if s == [] {
    } else {
      ReachedBounds(s[1..], k);
    }
  }

  lemma {:induction false} ReachedSplit(s: seq<int>, i: nat, k: int)
    requires i <= |s|
    ensures Reached(s, k) == Reached(s[..i], k) + Reached(s[i..], k)
  {
    if i > 0 {
      ReachedSplit(s[1..], i - 1, k);
      assert s[..i][1..] == s[1..][..i - 1] && s[i..] == s[1..][i - 1..];
    } else {
      assert s[0..] == s;
    }
  }

  // ---- the threshold ----

  /** The value maybeCommit picks out of the sorted match indexes. */
  function Threshold(matches: seq<int>): int
    requires |matches| > 0
  {
    SortIntsSorts(matches);
    SortInts(matches)[|matches| - Majority(|matches| - 1)]
  }

  /** The threshold is the greatest index a majority has reached: an index is
      reached by a majority exactly when it is at most the threshold. */
  lemma ThresholdIsMajorityIndex(matches: seq<int>, k: int)
    requires |matches| > 0
    ensures 2 * Reached(matches, k) > |matches| <==> k <= Threshold(matches)
  {
    SortIntsSorts(matches);
    ReachedAfterSort(matches, k);
    hide Reached, SortInts;
    var s, p := SortInts(matches), |matches| - Majority(|matches| - 1);
    if k <= s[p] {
      ReachedSplit(s, p, k);
      ReachedBounds(s[p..], k);
    } else {
      ReachedSplit(s, p + 1, k);
      ReachedBounds(s[..p + 1], k);
      ReachedBounds(s[p + 1..], k);
    }
  }

  lemma ThresholdWithin(matches: seq<int>, bound: int)
    requires |matches| > 0 && forall i | 0 <= i < |matches| :: matches[i] <= bound
    ensures Threshold(matches) <= bound
  {
    ThresholdIsMajorityIndex(matches, Threshold(matches));
    if Threshold(matches) > bound {
      ReachedBounds(matches, Threshold(matches));
    }
  }

  // ---- maybeCommit ----

  /** `matches` is the leader's own last index followed by each peer's match index. */
  function MaybeCommit(s: NodeState, matches: seq<int>): NodeState
    requires |matches| > 0
  {
    var threshold := Threshold(matches);
    if s.role != Leader || threshold <= s.commitIndex then s
    else if threshold > 0 && (EntryAt(s, threshold) == None || EntryAt(s, threshold).value.term != s.term) then s
    else s.(commitIndex := threshold)
  }

  /** A current-term entry at `k` that a majority has reached. */
  ghost predicate Committable(s: NodeState, matches: seq<int>, k: int)
    requires |matches| > 0
  {
    && k > s.commitIndex
    && 2 * Reached(matches, k) > |matches|
    && EntryAt(s, k).Some? && EntryAt(s, k).value.term == s.term
  }

  ghost predicate AscendingTerms(log: seq<Entry>, bound: int) {
    && (forall i, j | 0 <= i < j < |log| :: log[i].term <= log[j].term)
    && (forall i | 0 <= i < |log| :: log[i].term <= bound)
  }

  /** maybeCommit moves commitIndex to the greatest committable index, or, when
      there is none, leaves it alone; so it never moves back. */
  lemma MaybeCommitIsGreatest(s: NodeState, matches: seq<int>)
    requires s.role == Leader && s.commitIndex >= 0
    requires |matches| > 0 && forall i | 0 <= i < |matches| :: matches[i] <= LastIndex(s)
    requires AscendingTerms(s.log, s.term)
    ensures var c := MaybeCommit(s, matches).commitIndex;
            && c >= s.commitIndex
            && (c == s.commitIndex <==> forall k :: !Committable(s, matches, k))
            && (c != s.commitIndex ==> Committable(s, matches, c) && forall k :: Committable(s, matches, k) ==> k <= c)
  {
    var t := Threshold(matches);
    ThresholdIsMajorityIndex(matches, t);
    ThresholdWithin(matches, LastIndex(s));
    forall k | Committable(s, matches, k)
      ensures k <= t && MaybeCommit(s, matches).commitIndex == t
    {
      ThresholdIsMajorityIndex(matches, k);
      assert s.log[k - s.base - 1].term <= s.log[t - s.base - 1].term;
    }
    if MaybeCommit(s, matches).commitIndex != s.commitIndex {
      assert Committable(s, matches, t);
    }
  }
}
