/** Exactness of the follower-side merge, for any compaction base. */
module MergeExactness {
  import opened Basics
  import opened RaftNode

  /** The first `n` retained entries are the sender's entries. */
  ghost predicate AgreesAbove(log: seq<Entry>, base: nat, full: seq<Entry>, n: int) {
    forall j | 0 <= j < n && j < |log| :: base + j < |full| && log[j] == full[base + j]
  }

  /** The retained log (entries above `base`) obeys log matching with `full`,
      the sender's whole log: a shared index and term means a shared prefix. */
  ghost predicate MatchesAbove(log: seq<Entry>, base: nat, full: seq<Entry>) {
    forall k | 0 <= k < |log| && base + k < |full| && log[k].term == full[base + k].term ::
      AgreesAbove(log, base, full, k + 1)
  }

  lemma GraftAgrees(log: seq<Entry>, base: nat, full: seq<Entry>, k: nat, tail: seq<Entry>)
    requires k <= |log| && AgreesAbove(log, base, full, k)
    requires base + k + |tail| <= |full| && tail == full[base + k..base + k + |tail|]
    ensures AgreesAbove(log[..k] + tail, base, full, k + |tail|)
  {}

  lemma MatchAgrees(log: seq<Entry>, base: nat, full: seq<Entry>, k: nat)
    requires k < |log| && base + k < |full| && log[k].term == full[base + k].term && MatchesAbove(log, base, full)
    ensures AgreesAbove(log, base, full, k + 1)
  {}

  lemma AgreesDown(log: seq<Entry>, base: nat, full: seq<Entry>, n: int, m: int)
    requires AgreesAbove(log, base, full, n) && (m <= n || m <= 0)
    ensures AgreesAbove(log, base, full, m)
  {}

  lemma {:induction false} MergeFromExact(log: seq<Entry>, base: nat, prev: nat, entries: seq<Entry>, i: nat,
                                          full: seq<Entry>)
    requires i <= |entries| && prev + |entries| <= |full|
    requires entries == full[prev..prev + |entries|]
    requires MatchesAbove(log, base, full)
    requires AgreesAbove(log, base, full, prev + i - base)
    requires prev + i <= base + |log| <= Max(prev + |entries|, base)
    ensures var r := MergeFrom(log, base, prev, entries, i); AgreesAbove(r, base, full, |r|)
    decreases |entries| - i
  {
    hide MatchesAbove, AgreesAbove;
    if i == |entries| {
      AgreesDown(log, base, full, prev + i - base, |log|);
    } else {
      var k := prev + i - base;
      if k < 0 {
        AgreesDown(log, base, full, k, k + 1);
        MergeFromExact(log, base, prev, entries, i + 1, full);
      } else if k < |log| && log[k].term == entries[i].term {
        MatchAgrees(log, base, full, k);
        MergeFromExact(log, base, prev, entries, i + 1, full);
      } else {
        assert entries[i..] == full[base + k..base + k + |entries| - i];
        assert log[..k] + entries[i..] == MergeFrom(log, base, prev, entries, i);
        GraftAgrees(log, base, full, k, entries[i..]);
      }
    }
  }

  lemma CutMatches(log: seq<Entry>, base: nat, full: seq<Entry>, end: int)
    requires MatchesAbove(log, base, full)
    ensures MatchesAbove(CutStale(log, base, end), base, full)
  {
    var cut := CutStale(log, base, end);
    forall k | 0 <= k < |cut| && base + k < |full| && cut[k].term == full[base + k].term
      ensures AgreesAbove(cut, base, full, k + 1)
    {
      assert AgreesAbove(log, base, full, k + 1);
    }
  }

  /** The length half holds of every accepted request with a plausible
      position, whatever the sender's log looks like. */
  lemma {:induction false} MergeFromLength(log: seq<Entry>, base: nat, prev: int, entries: seq<Entry>, i: nat)
    requires i <= |entries|
    requires prev + i <= base + |log| <= Max(prev + |entries|, base)
    ensures base + |MergeFrom(log, base, prev, entries, i)| == Max(prev + |entries|, base)
    decreases |entries| - i
  {
    if i < |entries| {
      var idx := prev + 1 + i;
      if idx <= base || (idx <= base + |log| && log[idx - base - 1].term == entries[i].term) {
        MergeFromLength(log, base, prev, entries, i + 1);
      }
    }
  }

  lemma AcceptedMergeLength(s: NodeState, req: AppendRequest)
    requires CheckPrevLog(s, req.prevLogIndex, req.prevLogTerm)
    ensures s.base + |Merge(s.log, s.base, req.prevLogIndex, req.entries)|
            == Max(req.prevLogIndex + |req.entries|, s.base)
  {
    MergeFromLength(CutStale(s.log, s.base, req.prevLogIndex + |req.entries|), s.base, req.prevLogIndex, req.entries, 0);
  }

  /** After an accepted request the last index is
      max(prevLogIndex + len(entries), base), and if the log obeyed log
      matching with the sender's log, every retained entry is the sender's. */
  lemma AcceptedMergeIsExact(s: NodeState, req: AppendRequest, full: seq<Entry>)
    requires CheckPrevLog(s, req.prevLogIndex, req.prevLogTerm)
    requires 0 <= req.prevLogIndex && req.prevLogIndex + |req.entries| <= |full|
    requires req.entries == full[req.prevLogIndex..req.prevLogIndex + |req.entries|]
    requires req.prevLogIndex > 0 ==> req.prevLogTerm == full[req.prevLogIndex - 1].term >= 0
    requires MatchesAbove(s.log, s.base, full)
    ensures var r := Merge(s.log, s.base, req.prevLogIndex, req.entries);
            && s.base + |r| == Max(req.prevLogIndex + |req.entries|, s.base)
            && forall j | 0 <= j < |r| :: s.base + j < |full| && r[j] == full[s.base + j]
  {
    var prev, base, entries := req.prevLogIndex, s.base, req.entries;
    var cut := CutStale(s.log, base, prev + |entries|);
    if prev > base {
      assert s.log[prev - base - 1].term == full[base + (prev - base - 1)].term;
      assert AgreesAbove(s.log, base, full, prev - base);
    }
    CutMatches(s.log, base, full, prev + |entries|);
    assert AgreesAbove(cut, base, full, prev - base);
    MergeFromExact(cut, base, prev, entries, 0, full);
    AcceptedMergeLength(s, req);
  }

  lemma {:induction false} UnchangedFrom(log: seq<Entry>, base: nat, prev: int, entries: seq<Entry>, i: nat)
    requires i <= |entries| && !MergeChanges(log, base, prev, entries, i)
    ensures MergeFrom(log, base, prev, entries, i) == log
    decreases |entries| - i
  {
    if i < |entries| {
      UnchangedFrom(log, base, prev, entries, i + 1);
    }
  }

  /** A merge that reports no change really leaves the log alone: the reported
      flag decides whether the log is saved before the reply. */
  lemma UnreportedMergeKeepsLog(log: seq<Entry>, base: nat, prev: int, entries: seq<Entry>)
    requires !Merged(log, base, prev, entries)
    ensures Merge(log, base, prev, entries) == log
  {
    UnchangedFrom(log, base, prev, entries, 0);
  }

  lemma {:induction false} ChangedFrom(log: seq<Entry>, base: nat, prev: int, entries: seq<Entry>, i: nat)
    requires i <= |entries| && MergeChanges(log, base, prev, entries, i) && prev + i <= base + |log|
    ensures MergeFrom(log, base, prev, entries, i) != log
    decreases |entries| - i
  {
    var idx := prev + 1 + i;
    if idx <= base || (idx <= base + |log| && log[idx - base - 1].term == entries[i].term) {
      ChangedFrom(log, base, prev, entries, i + 1);
    } else if idx <= base + |log| {
      assert MergeFrom(log, base, prev, entries, i)[idx - base - 1] == entries[i];
    }
  }

  /** The reported flag is exact: a change is reported if and only if the log
      changes, except that a request ending before the base of an empty log is
      reported for nothing. */
  lemma MergeReportedExactly(log: seq<Entry>, base: nat, prev: int, entries: seq<Entry>)
    requires prev <= base + |log|
    ensures Merged(log, base, prev, entries) <==>
              Merge(log, base, prev, entries) != log || (log == [] && prev + |entries| < base)
  {
    if !Merged(log, base, prev, entries) {
      UnreportedMergeKeepsLog(log, base, prev, entries);
    } else if prev + |entries| < base + |log| {
      var cut := CutStale(log, base, prev + |entries|);
      MergeFromLength(cut, base, prev, entries, 0);
    } else {
      ChangedFrom(log, base, prev, entries, 0);
    }
  }

  /** What an append does to the log, in one line per outcome. */
  lemma DecideAppendShape(s: NodeState, req: AppendRequest)
    ensures var out := DecideAppend(s, req);
            && out.resp.success == (req.term >= s.term && CheckPrevLog(s, req.prevLogIndex, req.prevLogTerm))
            && out.resp.term == out.state.term == Max(s.term, req.term)
            && out.state.base == s.base && out.state.baseTerm == s.baseTerm
            && out.state.log == (if out.resp.success then Merge(s.log, s.base, req.prevLogIndex, req.entries) else s.log)
  {
    var s1 := FollowSender(s, req);
    assert CheckPrevLog(s1, req.prevLogIndex, req.prevLogTerm) == CheckPrevLog(s, req.prevLogIndex, req.prevLogTerm);
  }

  /** What an accepted append does to commitIndex. It follows the leader, never
      past it. It falls exactly when a short request that carries a newer commit
      index has cut the log below the old one. If it was within the log, it
      still is unless such a cut came with nothing newer to commit. */
  lemma AcceptedCommit(s: NodeState, req: AppendRequest)
    requires req.term >= s.term && CheckPrevLog(s, req.prevLogIndex, req.prevLogTerm)
    ensures var (c, end) := (DecideAppend(s, req).state.commitIndex, Max(req.prevLogIndex + |req.entries|, s.base));
            && LastIndex(DecideAppend(s, req).state) == end
            && c <= Max(s.commitIndex, req.leaderCommit)
            && (s.commitIndex < req.leaderCommit ==> c == Min(req.leaderCommit, end))
            && (c < s.commitIndex <==> end < s.commitIndex < req.leaderCommit)
            && (req.leaderCommit <= s.commitIndex ==> c == s.commitIndex)
            && (s.commitIndex < req.leaderCommit ==> c <= end)
            && (s.commitIndex <= LastIndex(s) ==> (c <= end <==> s.commitIndex <= end || s.commitIndex < req.leaderCommit))
  {
    hide Merge, Merged;
    var s1 := FollowSender(s, req);
    assert CheckPrevLog(s1, req.prevLogIndex, req.prevLogTerm);
    AcceptedMergeLength(s1, req);
  }

  /** A request built by a leader whose commit index is within its log takes a
      follower's commit index to the leader's, or leaves it where it is if that is
      higher. It leaves one beyond the log if and only if the request ends before
      it. So only late requests, shorter than what has since been committed, do
      that; and lowering takes a leader already beyond its log. */
  lemma BuiltRequestCommit(l: NodeState, next: int, s: NodeState)
    requires next >= l.base + 1 && l.commitIndex <= LastIndex(l)
    requires var req := BuildAppend(l, next);
             req.term >= s.term && CheckPrevLog(s, req.prevLogIndex, req.prevLogTerm)
    ensures var (req, r) := (BuildAppend(l, next), DecideAppend(s, BuildAppend(l, next)).state);
            && r.commitIndex == Max(s.commitIndex, l.commitIndex)
            && (r.commitIndex > LastIndex(r) <==> s.commitIndex > Max(req.prevLogIndex + |req.entries|, s.base))
  {
    hide DecideAppend, CheckPrevLog, TermAt;
    AcceptedCommit(s, BuildAppend(l, next));
  }
}
