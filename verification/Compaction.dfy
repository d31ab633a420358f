/** Compaction is transparent: a node whose log has been compacted at applied
    indexes behaves exactly like its twin that never compacted. */
module Compaction {
  import opened Basics
  import opened Commands
  import opened RaftNode
  import opened Commit

  /** What can happen to a node, and what it answers. */
  datatype Op =
    | Vote(vreq: VoteRequest)
    | AppendEntries(areq: AppendRequest)
    | Campaign
    | Conclude(asked: VoteRequest, votes: nat)
    | StepDown(term: int)
    | Submit(cmd: Command)
    | Ship(next: int)                       // build the request for a peer
    | Advance(matches: seq<int>)            // maybeCommit
    | Applied                               // the apply loop moves one entry on
    | Compact(index: int, indexTerm: int)

  datatype Answer =
    | Silent
    | Voted(vresp: VoteResponse)
    | Appended(aresp: AppendResponse, save: bool)
    | Solicited(vreq: VoteRequest)
    | Shipped(areq: AppendRequest)
    | Applying(entry: Option<Entry>)

  function Exec(s: NodeState, op: Op): (NodeState, Answer) {
    match op
    case Vote(req) => var (s1, resp) := DecideVote(s, req); (s1, Voted(resp))
    case AppendEntries(req) => var out := DecideAppend(s, req); (out.state, Appended(out.resp, out.changed))
    case Campaign => var s1 := BecomeCandidate(s); (s1, Solicited(SolicitRequest(s1)))
    case Conclude(asked, votes) => (ConcludeElection(s, asked, votes), Silent)
    case StepDown(term) => (BecomeFollower(s, term, None), Silent)
    case Submit(cmd) => (if s.role == Leader then AppendOwn(s, cmd) else s, Silent)
    case Ship(next) => (s, if next >= s.base + 1 then Shipped(BuildAppend(s, next)) else Silent)
    case Advance(matches) => (if |matches| > 0 then MaybeCommit(s, matches) else s, Silent)
    case Applied =>
      if s.lastApplied >= s.commitIndex then (s, Silent)
      else (s.(lastApplied := s.lastApplied + 1), Applying(EntryAt(s, s.lastApplied + 1)))
    case Compact(index, term) => (CompactLog(s, index, term), Silent)
  }

  /** The twin does everything but compact. */
  function TwinExec(u: NodeState, op: Op): (NodeState, Answer) {
    if op.Compact? then (u, Silent) else Exec(u, op)
  }

  /** `c` is `u` with the first `c.base` entries compacted away. The dirty flag
      is exempt: compaction itself sets it. */
  ghost predicate Related(c: NodeState, u: NodeState) {
    && u.base == 0 && u.baseTerm == 0
    && c.base <= |u.log|
    && c == u.(log := u.log[c.base..], base := c.base, dirty := c.dirty,
               baseTerm := if c.base == 0 then 0 else u.log[c.base - 1].term)
    && c.base <= c.lastApplied && c.base <= c.commitIndex
  }

  /** Operations that concern the retained part of the log: appends at or above
      the base, requests above it, and compaction at an applied index with that
      index's true term. Everything else is unrestricted. */
  ghost predicate WithinReach(c: NodeState, op: Op) {
    match op
    case AppendEntries(req) => req.prevLogIndex >= c.base
    case Ship(next) => next > c.base
    case Compact(index, term) =>
      index <= c.lastApplied && index <= c.commitIndex && index <= LastIndex(c)
      && (index > c.base ==> term == TermAt(c, index))
    case _ => true
  }

  // ---- index arithmetic agrees above the base ----

  lemma IndexesAgree(c: NodeState, u: NodeState, index: int)
    requires Related(c, u) && index >= c.base
    ensures TermAt(c, index) == TermAt(u, index)
    ensures index > c.base ==> EntryAt(c, index) == EntryAt(u, index)
  {}

  lemma EndsAgree(c: NodeState, u: NodeState)
    requires Related(c, u)
    ensures LastIndex(c) == LastIndex(u) && LastTerm(c) == LastTerm(u)
  {}

  lemma {:induction false} MergesAgree(log: seq<Entry>, base: nat, prev: int, entries: seq<Entry>, i: nat)
    requires base <= |log| && prev >= base && i <= |entries|
    ensures var r := MergeFrom(log, 0, prev, entries, i);
            && base <= |r| && MergeFrom(log[base..], base, prev, entries, i) == r[base..]
            && MergeChanges(log[base..], base, prev, entries, i) == MergeChanges(log, 0, prev, entries, i)
            && (base > 0 ==> r[base - 1] == log[base - 1])
    decreases |entries| - i
  {
    if i < |entries| {
      var idx := prev + 1 + i;
      if idx <= |log| {
        if log[idx - 1].term == entries[i].term {
          MergesAgree(log, base, prev, entries, i + 1);
        } else {
          assert log[base..][..idx - base - 1] + entries[i..] == (log[..idx - 1] + entries[i..])[base..];
        }
      } else {
        assert log[base..] + entries[i..] == (log + entries[i..])[base..];
      }
    }
  }

  lemma AcceptedMergesAgree(log: seq<Entry>, base: nat, prev: int, entries: seq<Entry>)
    requires base <= |log| && prev >= base
    ensures var r := Merge(log, 0, prev, entries);
            && base <= |r| && Merge(log[base..], base, prev, entries) == r[base..]
            && Merged(log[base..], base, prev, entries) == Merged(log, 0, prev, entries)
            && (base > 0 ==> r[base - 1] == log[base - 1])
  {
    var end := prev + |entries|;
    var cut := CutStale(log, 0, end);
    assert CutStale(log[base..], base, end) == cut[base..];
    MergesAgree(cut, base, prev, entries, 0);
  }

  // ---- operations ----

  lemma VotesAgree(c: NodeState, u: NodeState, req: VoteRequest)
    requires Related(c, u)
    ensures Related(DecideVote(c, req).0, DecideVote(u, req).0) && DecideVote(c, req).1 == DecideVote(u, req).1
  {
    EndsAgree(c, u);
  }

  lemma AcceptancesAgree(c: NodeState, u: NodeState, req: AppendRequest)
    requires Related(c, u) && req.prevLogIndex >= c.base
    ensures var (a, b) := (AcceptAppend(c, req), AcceptAppend(u, req));
            Related(a.state, b.state) && a.resp == b.resp && a.changed == b.changed
  {
    AcceptedMergesAgree(u.log, c.base, req.prevLogIndex, req.entries);
  }

  lemma AppendsAgree(c: NodeState, u: NodeState, req: AppendRequest)
    requires Related(c, u) && req.prevLogIndex >= c.base
    ensures var (a, b) := (DecideAppend(c, req), DecideAppend(u, req));
            Related(a.state, b.state) && a.resp == b.resp && a.changed == b.changed
  {
    hide TermAt, EntryAt, AcceptAppend, MergeFrom;
    if req.term >= c.term {
      var c1, u1 := FollowSender(c, req), FollowSender(u, req);
      assert Related(c1, u1);
      EndsAgree(c1, u1);
      IndexesAgree(c1, u1, req.prevLogIndex);
      AcceptancesAgree(c1, u1, req);
    }
  }

  lemma ShipmentsAgree(c: NodeState, u: NodeState, next: int)
    requires Related(c, u) && next > c.base
    ensures BuildAppend(c, next) == BuildAppend(u, next)
  {
    EndsAgree(c, u);
    IndexesAgree(c, u, next - 1);
    if next <= LastIndex(c) {
      assert c.log[next - c.base - 1..] == u.log[next - 1..];
    }
  }

  lemma AdvancesAgree(c: NodeState, u: NodeState, matches: seq<int>)
    requires Related(c, u) && |matches| > 0
    ensures Related(MaybeCommit(c, matches), MaybeCommit(u, matches))
  {
    if Threshold(matches) > c.commitIndex {
      IndexesAgree(c, u, Threshold(matches));
    }
  }

  lemma CompactKeepsRelated(c: NodeState, u: NodeState, index: int, term: int)
    requires Related(c, u) && WithinReach(c, Compact(index, term))
    ensures Related(CompactLog(c, index, term), u)
  {
    EndsAgree(c, u);
    if index > c.base {
      IndexesAgree(c, u, index);
      assert c.log[index - c.base..] == u.log[index..];
    }
  }

  lemma OpsAgree(c: NodeState, u: NodeState, op: Op)
    requires Related(c, u) && WithinReach(c, op)
    ensures Related(Exec(c, op).0, TwinExec(u, op).0)
    ensures Exec(c, op).1 == TwinExec(u, op).1
  {
    match op {
      case Vote(req) => VotesAgree(c, u, req);
      case AppendEntries(req) => AppendsAgree(c, u, req);
      case Campaign => EndsAgree(c, u);
      case Submit(cmd) => assert c.log + [Entry(c.term, cmd)] == (u.log + [Entry(u.term, cmd)])[c.base..];
      case Ship(next) => ShipmentsAgree(c, u, next);
      case Advance(matches) => if |matches| > 0 { AdvancesAgree(c, u, matches); }
      case Applied => IndexesAgree(c, u, c.lastApplied + 1);
      case Compact(index, term) => CompactKeepsRelated(c, u, index, term);
      case _ =>
    }
  }

  // ---- whole runs ----

  ghost predicate RunWithinReach(c: NodeState, ops: seq<Op>)
    decreases |ops|
  {
    ops == [] || (WithinReach(c, ops[0]) && RunWithinReach(Exec(c, ops[0]).0, ops[1..]))
  }

  function Answers(s: NodeState, ops: seq<Op>): seq<Answer>
    decreases |ops|
  {
    if ops == [] then [] else [Exec(s, ops[0]).1] + Answers(Exec(s, ops[0]).0, ops[1..])
  }

  function TwinAnswers(u: NodeState, ops: seq<Op>): seq<Answer>
    decreases |ops|
  {
    if ops == [] then [] else [TwinExec(u, ops[0]).1] + TwinAnswers(TwinExec(u, ops[0]).0, ops[1..])
  }

  function StateAfter(c: NodeState, ops: seq<Op>): NodeState
    decreases |ops|
  {
    if ops == [] then c else StateAfter(Exec(c, ops[0]).0, ops[1..])
  }

  function TwinAfter(u: NodeState, ops: seq<Op>): NodeState
    decreases |ops|
  {
    if ops == [] then u else TwinAfter(TwinExec(u, ops[0]).0, ops[1..])
  }

  /** Over any run, with compactions interleaved at will, the compacting node
      and its twin give the same answers throughout and end up related. */
  lemma {:induction false} CompactionIsTransparent(c: NodeState, u: NodeState, ops: seq<Op>)
    requires Related(c, u) && RunWithinReach(c, ops)
    ensures Answers(c, ops) == TwinAnswers(u, ops)
    ensures Related(StateAfter(c, ops), TwinAfter(u, ops))
    decreases |ops|
  {
    hide Exec, TwinExec, Related, WithinReach;
    if ops == [] {
    } else {
      OpsAgree(c, u, ops[0]);
      CompactionIsTransparent(Exec(c, ops[0]).0, TwinExec(u, ops[0]).0, ops[1..]);
    }
  }
}
