/** The node as the object the handlers work on: fields updated in place, each
    method proved against the functions of `RaftNode`, `Commit` and
    `LeaderLogic`. */
module NodeObject {
  import opened Basics
  import opened Commands
  import opened RaftNode
  import opened MergeExactness
  import opened Commit
  import opened LeaderLogic

  /** How a peer with a matching log answers a request that carries the
      leader's whole tail from `next` on. */
  lemma MatchingPeerAnswers(leader: NodeState, f: NodeState, next: int)
    requires leader.base == 0 && f.base == 0 && f.term <= leader.term && 1 <= next <= |leader.log| + 1
    requires MatchesAbove(f.log, 0, leader.log)
    requires forall i | 0 <= i < |leader.log| :: leader.log[i].term >= 0
    ensures var req := BuildAppend(leader, next);
            var out := DecideAppend(f, req);
            && req.prevLogIndex + |req.entries| == |leader.log|
            && out.state.base == 0 && out.state.term == leader.term
            && (out.resp.success <==>
                  next == 1 || (next - 1 <= |f.log| && f.log[next - 2].term == leader.log[next - 2].term))
            && out.state.log == (if out.resp.success then leader.log else f.log)
            && MatchesAbove(out.state.log, 0, leader.log)
  {
    var req := BuildAppend(leader, next);
    DecideAppendShape(f, req);
    if CheckPrevLog(f, req.prevLogIndex, req.prevLogTerm) {
      AcceptedMergeIsExact(f, req, leader.log);
      assert Merge(f.log, 0, req.prevLogIndex, req.entries) == leader.log;
    }
  }

  /** How many calls may be needed from next index `next`. */
  function CallBound(next: int): int { (next + MAX_BACKOFF - 2) / MAX_BACKOFF + 1 }

  function Pow2(n: nat): nat { if n == 0 then 1 else 2 * Pow2(n - 1) }

  /** A rejected next index goes back by the step, but not below 1. */
  function Back(next: int, step: int): int { if next > step then next - step else 1 }

  /** The step after `i` rejections. */
  function Doubled(step: int, i: nat): int { if i == 0 then step else 2 * Doubled(step, i - 1) }

  /** The next indexes of one call's requests. */
  ghost predicate GoesBack(nexts: seq<int>, first: int, step: int) {
    && (nexts != [] ==> nexts[0] == first)
    && forall i | 0 <= i < |nexts| - 1 :: nexts[i + 1] == Back(nexts[i], Doubled(step, i))
  }

  lemma {:induction false} DoubledIsLarge(step: int, i: nat)
    requires step >= 1
    ensures Doubled(step, i) >= Pow2(i) && (i >= 6 ==> Doubled(step, i) >= 64)
    ensures Doubled(step, i + 1) == 2 * Doubled(step, i)
  {
    if i > 0 { DoubledIsLarge(step, i - 1); }
  }

  lemma StartsBack(first: int, step: int)
    ensures GoesBack([] + [first], first, step) && Doubled(step, 0) == step
  {}

  lemma OneMoreBack(nexts: seq<int>, first: int, step: int)
    requires nexts != [] && GoesBack(nexts, first, step)
    ensures GoesBack(nexts + [Back(nexts[|nexts| - 1], Doubled(step, |nexts| - 1))], first, step)
  {}

  /** Requests other than the last were above 1, so the next indexes fall. */
  lemma {:induction false} Falls(nexts: seq<int>, first: int, step: int)
    requires nexts != [] && GoesBack(nexts, first, step) && first >= 1 && step >= 1
    requires forall i | 0 <= i < |nexts| - 1 :: nexts[i] > 1
    ensures forall i, j | 0 <= i < j < |nexts| :: nexts[i] > nexts[j]
    ensures forall i | 0 <= i < |nexts| :: 1 <= nexts[i] <= first
  {
    if |nexts| == 1 {
    } else {
      var p := nexts[..|nexts| - 1];
      assert forall i | 0 <= i < |p| :: p[i] == nexts[i];
      Falls(p, first, step);
      DoubledIsLarge(step, |p| - 1);
      assert nexts[|nexts| - 1] == Back(p[|p| - 1], Doubled(step, |p| - 1)) < p[|p| - 1];
    }
  }

  lemma FollowsFirstAbove(term: int, quorum: nat, replies: seq<VoteResponse>)
    ensures var r := Tally(term, quorum, 1, replies);
            r.Outranked? || r.votes < quorum ==>
              && (forall i :: FirstAbove(term, replies, i) ==> r == Outranked(replies[i].term))
              && ((forall i | 0 <= i < |replies| :: replies[i].term <= term) ==> r.Counted?)
              && (r.Counted? ==> forall i :: !FirstAbove(term, replies, i))
  {
    forall i | FirstAbove(term, replies, i)
      ensures var r := Tally(term, quorum, 1, replies);
              r == Outranked(replies[i].term) || (r.Counted? && r.votes >= quorum)
    {
      TallyFindsFirstAbove(term, quorum, 1, replies, i);
    }
    if forall i | 0 <= i < |replies| :: replies[i].term <= term { TallyWithoutOutranking(term, quorum, 1, replies); }
  }

  datatype ProposeResult = Accepted | NotLeader(leader: Option<NodeId>) | NotDurable

  class Node {
    const id: NodeId
    const peers: seq<NodeId>

    var role: Role
    var term: int
    var votedFor: Option<NodeId>
    var leaderId: Option<NodeId>
    var log: seq<Entry>
    var base: nat
    var baseTerm: int
    var commitIndex: int
    var lastApplied: int
    var dirty: bool

    var disk: Durable                 // what the raft store holds

    var replReady: bool               // false while n.repl is nil
    var nextIndex: map<NodeId, int>
    var matchIndex: map<NodeId, int>
    var inFlight: map<NodeId, bool>
    var backoff: map<NodeId, int>

    function State(): NodeState
      reads this
    {
      NodeState(id, peers, role, term, votedFor, leaderId, log, base, baseTerm, commitIndex, lastApplied, dirty)
    }

    /** The replication state as replState would return it now. */
    function ReplState(): Repl
      reads this
    {
      if replReady then Repl(nextIndex, matchIndex, inFlight, backoff) else FreshRepl(State())
    }

    /** A node with at least one peer, restored from its raft store. */
    constructor (id: NodeId, peers: seq<NodeId>, stored: Durable)
      requires |peers| > 0
      ensures State() == Reload(id, peers, stored) && disk == stored && !replReady && !dirty
      ensures this.id == id && this.peers == peers && role == Follower && leaderId == None
      ensures term == stored.term && votedFor == stored.votedFor && log == stored.log
      ensures base == stored.base && baseTerm == stored.baseTerm && commitIndex == lastApplied == stored.base
    {
      this.id, this.peers := id, peers;
      role, leaderId := Follower, None;
      term, votedFor, log := stored.term, stored.votedFor, stored.log;
      base, baseTerm := stored.base, stored.baseTerm;
      commitIndex, lastApplied, dirty := stored.base, stored.base, false;
      disk := stored;
      replReady := false;
      nextIndex, matchIndex, inFlight, backoff := map[], map[], map[], map[];
    }

    method BecomeFollower(newTerm: int, leader: Option<NodeId>)
      modifies this`role, this`term, this`votedFor, this`leaderId, this`dirty
      ensures State() == RaftNode.BecomeFollower(old(State()), newTerm, leader)
    {
      role, term, votedFor, leaderId, dirty := Follower, newTerm, None, leader, true;
    }

    /** persist: the store is written only when something changed. */
    method Persist(out: SaveOutcome) returns (ok: bool)
      modifies this`disk, this`dirty
      ensures ok <==> !old(dirty) || out == Saved
      ensures disk == if !old(dirty) || out == FailedUnwritten then old(disk) else ToDisk(old(State()))
      ensures disk != old(disk) ==> disk == Durable(term, votedFor, log, base, baseTerm)
      ensures State() == old(State()).(dirty := old(dirty) && out != Saved)
    {
      if !dirty { return true; }
      if out != FailedUnwritten {
        disk := Durable(term, votedFor, log, base, baseTerm);
      }
      if out == Saved { dirty := false; }
      return out == Saved;
    }

    /** Nothing unsaved is hidden from the dirty flag. */
    ghost predicate DiskInSync()
      reads this
    {
      !dirty ==> disk == ToDisk(State())
    }

    /** A granted vote is on disk by the time the reply leaves. */
    method HandleRequestVote(req: VoteRequest, out: SaveOutcome) returns (resp: VoteResponse)
      requires DiskInSync()
      modifies this`role, this`term, this`votedFor, this`leaderId, this`dirty, this`disk
      ensures DiskInSync()
      ensures State() == DecideVote(old(State()), req).0.(dirty := dirty)
      ensures resp.granted <==> DecideVote(old(State()), req).1.granted && out == Saved
      ensures resp.granted ==> resp.term == req.term == disk.term && disk.votedFor == Some(req.candidate)
      ensures resp.term == term == Max(old(term), req.term)
    {
      if req.term < term {
        return VoteResponse(term, false);
      }
      if req.term > term {
        BecomeFollower(req.term, None);
      }
      var notVotedYet := votedFor == None || votedFor == Some(req.candidate);
      var logFresh := req.lastLogTerm > LastTerm(State())
        || (req.lastLogTerm == LastTerm(State()) && req.lastLogIndex >= LastIndex(State()));
      if notVotedYet && logFresh {
        votedFor := Some(req.candidate);
        dirty := true;
        var ok := Persist(out);
        return VoteResponse(term, ok);
      }
      return VoteResponse(term, false);
    }

    /** The loop of mergeEntries, cutting and extending the log in place. */
    method MergeEntries(prev: int, entries: seq<Entry>) returns (changed: bool)
      requires prev <= base + |log|
      modifies this`log
      ensures log == Merge(old(log), base, prev, entries)
      ensures changed == Merged(old(log), base, prev, entries)
    {
      var end := prev + |entries|;
      changed := false;
      if end < base + |log| {
        var keep := end - base;
        if keep < 0 { keep := 0; }
        log := log[..keep];
        changed := true;
      }
      ghost var cut, stale := log, changed;
      for i := 0 to |entries|
        invariant log == cut && changed == stale
        invariant Merge(old(log), base, prev, entries) == MergeFrom(cut, base, prev, entries, i)
        invariant stale == (end < base + |old(log)|)
        invariant !stale ==>
                    cut == old(log) && MergeChanges(cut, base, prev, entries, 0) == MergeChanges(cut, base, prev, entries, i)
      {
        var idx := prev + 1 + i;
        if idx <= base {
          continue;
        }
        if idx <= base + |log| {
          if TermAt(State(), idx) == entries[i].term {
            continue;
          }
          log := log[..idx - base - 1];
          changed := true;
        }
        log := log + entries[i..];
        return true;
      }
    }

    /** An accepted change is on disk by the time it is acknowledged. */
    method HandleAppendEntries(req: AppendRequest, out: SaveOutcome) returns (resp: AppendResponse)
      requires DiskInSync()
      modifies this`role, this`term, this`votedFor, this`leaderId, this`log, this`commitIndex, this`dirty, this`disk
      ensures DiskInSync()
      ensures State() == DecideAppend(old(State()), req).state.(dirty := dirty)
      ensures resp.term == term
      ensures resp.success <==>
                DecideAppend(old(State()), req).resp.success && (DecideAppend(old(State()), req).changed ==> out == Saved)
      ensures resp.success && DecideAppend(old(State()), req).changed ==> disk == ToDisk(State())
    {
      if req.term < term {
        return AppendResponse(term, false);
      }
      if req.term > term || role != Follower {
        BecomeFollower(req.term, Some(req.leader));
      } else {
        leaderId := Some(req.leader);
      }
      ghost var s1 := State();
      assert s1 == FollowSender(old(State()), req);
      if !CheckPrevLog(State(), req.prevLogIndex, req.prevLogTerm) {
        return AppendResponse(term, false);
      }
      var changed := AcceptEntries(req);
      if changed {
        var ok := Persist(out);
        if !ok { return AppendResponse(term, false); }
      }
      return AppendResponse(term, true);
    }

    method AcceptEntries(req: AppendRequest) returns (changed: bool)
      requires req.prevLogIndex <= base + |log|
      modifies this`log, this`commitIndex, this`dirty
      ensures State() == AcceptAppend(old(State()), req).state
      ensures changed == AcceptAppend(old(State()), req).changed
      ensures changed ==> dirty
      ensures !changed ==> State() == old(State())
      ensures changed <==> log != old(log) || req.leaderCommit > old(commitIndex)
                           || (old(log) == [] && req.prevLogIndex + |req.entries| < base)
      ensures commitIndex == if req.leaderCommit > old(commitIndex) then Min(req.leaderCommit, base + |log|)
                             else old(commitIndex)
    {
      changed := MergeEntries(req.prevLogIndex, req.entries);
      MergeReportedExactly(old(log), base, req.prevLogIndex, req.entries);
      if changed { dirty := true; }
      if req.leaderCommit > commitIndex {
        var last := LastIndex(State());
        if req.leaderCommit < last { commitIndex := req.leaderCommit; } else { commitIndex := last; }
        changed := true;
        dirty := true;
      }
    }

    /** The loop over the replies, which a later term or a majority ends. */
    method CountVotes(replies: seq<VoteResponse>, quorum: nat) returns (r: TallyResult)
      ensures r == Tally(term, quorum, 1, replies)
    {
      var votes := 1;
      for i := 0 to |replies|
        invariant Tally(term, quorum, 1, replies) == Tally(term, quorum, votes, replies[i..])
      {
        assert replies[i..][1..] == replies[i + 1..];
        if replies[i].term > term { return Outranked(replies[i].term); }
        if replies[i].granted { votes := votes + 1; }
        if votes >= quorum { break; }
      }
      return Counted(votes);
    }

    /** startElection with no RPC handled meanwhile; `replies` are the answers
        in arrival order, `late` is how the save ends that follows being
        outranked. The node leads if and only if its term and self vote were
        saved and some first replies give it more than half of the machines.
        Otherwise it follows nobody in particular, in the term of the first reply
        above its own if there is one. */
    method StartElection(replies: seq<VoteResponse>, out: SaveOutcome, late: SaveOutcome)
      requires DiskInSync()
      modifies this`role, this`term, this`votedFor, this`leaderId, this`dirty, this`disk
      ensures DiskInSync()
      ensures out != Saved ==> State() == RaftNode.BecomeCandidate(old(State()))
      ensures out == Saved ==>
                var cand := RaftNode.BecomeCandidate(old(State()));
                match Tally(cand.term, Majority(|peers|), 1, replies)
                case Outranked(t) => State() == RaftNode.BecomeFollower(cand, t, None).(dirty := dirty)
                case Counted(votes) => State() == ConcludeElection(cand, SolicitRequest(cand), votes).(dirty := dirty)
      ensures role == Leader <==> out == Saved && GrantedByMajority(old(term) + 1, |peers| + 1, replies)
      ensures role == Leader ==> term == old(term) + 1 && votedFor == leaderId == Some(id)
      ensures out != Saved ==> role == Candidate && term == old(term) + 1 && votedFor == Some(id) && leaderId == None
      ensures out == Saved && role != Leader ==> role == Follower && votedFor == None && leaderId == None
      ensures out == Saved && role != Leader ==>
                && (forall i :: FirstAbove(old(term) + 1, replies, i) ==> term == replies[i].term)
                && ((forall i | 0 <= i < |replies| :: replies[i].term <= old(term) + 1) ==> term == old(term) + 1)
      ensures role == Leader ==> disk.term == term && disk.votedFor == Some(id)
    {
      hide LastIndex, LastTerm, Carried, GrantedByMajority, FirstAbove, CarriedBy, Grants;
      role, term, votedFor, leaderId, dirty := Candidate, term + 1, Some(id), None, true;
      var req := VoteRequest(term, id, LastIndex(State()), LastTerm(State()));
      var quorum := Majority(|peers|);
      ghost var cand := State();
      var ok := Persist(out);
      if !ok { return; }
      TallyCountsGrants(term, quorum, 1, replies);
      CarriedByMajority(term, |peers|, replies);
      FollowsFirstAbove(term, quorum, replies);
      var result := CountVotes(replies, quorum);
      if result.Outranked? {
        BecomeFollower(result.term, None);
        var _ := Persist(late);
        return;
      }
      if result.votes >= quorum && role == Candidate && term == req.term {
        role, leaderId := Leader, Some(id);
      } else {
        BecomeFollower(term, None);
      }
    }

    /** propose in a cluster with peers: the client hears success only once the
        entry is on the leader's disk. */
    method Propose(cmd: Command, out: SaveOutcome) returns (r: ProposeResult)
      requires DiskInSync()
      modifies this`log, this`dirty, this`disk
      ensures DiskInSync()
      ensures r.NotLeader? <==> role != Leader
      ensures r.NotLeader? ==> r.leader == leaderId && State() == old(State()) && disk == old(disk)
      ensures !r.NotLeader? ==> State() == AppendOwn(old(State()), cmd).(dirty := dirty)
      ensures r.Accepted? <==> role == Leader && out == Saved
      ensures r.Accepted? ==> disk.log == old(log) + [Entry(term, cmd)]
    {
      if role != Leader {
        return NotLeader(leaderId);
      }
      log := log + [Entry(term, cmd)];
      dirty := true;
      var ok := Persist(out);
      return if ok then Accepted else NotDurable;
    }

    /** Entries up to `index` go; every later entry stays where it was. */
    method CompactLog(index: int, indexTerm: int)
      modifies this`log, this`base, this`baseTerm, this`commitIndex, this`lastApplied, this`dirty
      ensures State() == RaftNode.CompactLog(old(State()), index, indexTerm)
      ensures base == Max(old(base), index)
      ensures index <= old(base) ==> State() == old(State())
      ensures index > old(base) ==>
                && dirty && base + |log| == Max(old(base + |log|), index)
                && commitIndex == Max(old(commitIndex), index) && lastApplied == Max(old(lastApplied), index)
                && (forall i | 0 <= i < |log| :: log[i] == old(log)[i + index - old(base)])
                && baseTerm == (if index < old(base + |log|) then indexTerm
                                else if |old(log)| > 0 then old(log)[|old(log)| - 1].term else old(baseTerm))
    {
      if index <= base { return; }
      if index >= LastIndex(State()) {
        baseTerm := LastTerm(State());
        log := [];
      } else {
        log := log[index - base..];
        baseTerm := indexTerm;
      }
      base := index;
      if commitIndex < index { commitIndex := index; }
      if lastApplied < index { lastApplied := index; }
      dirty := true;
    }

    /** replState: built once, on first use. */
    method EnsureRepl()
      modifies this`replReady, this`nextIndex, this`matchIndex, this`inFlight, this`backoff
      ensures replReady && Repl(nextIndex, matchIndex, inFlight, backoff) == old(ReplState())
      ensures old(replReady) ==>
                && nextIndex == old(nextIndex) && matchIndex == old(matchIndex)
                && inFlight == old(inFlight) && backoff == old(backoff)
      ensures !old(replReady) ==>
                && matchIndex == map[] && inFlight == map[] && backoff == map[]
                && (forall p :: p in nextIndex <==> p in peers) && forall p | p in peers :: nextIndex[p] == base + |log| + 1
    {
      if !replReady {
        nextIndex, matchIndex, inFlight, backoff := map[], map[], map[], map[];
        var next := LastIndex(State()) + 1;
        for i := 0 to |peers|
          invariant nextIndex == map p | p in peers[..i] :: next
          invariant matchIndex == map[] && inFlight == map[] && backoff == map[] && !replReady
        {
          nextIndex := nextIndex[peers[i] := next];
        }
        assert peers[..|peers|] == peers;
        replReady := true;
        assert nextIndex == FreshRepl(old(State())).nextIndex;
      }
    }

    method MatchVector() returns (matches: seq<int>)
      requires replReady
      ensures matches == Matches(State(), ReplState())
      ensures |matches| == |peers| + 1 && matches[0] == base + |log|
      ensures forall i | 0 <= i < |peers| ::
                matches[i + 1] == if peers[i] in matchIndex then matchIndex[peers[i]] else 0
    {
      matches := [LastIndex(State())];
      for i := 0 to |peers|
        invariant matches == [LastIndex(State())] + Marks(peers[..i], matchIndex)
        invariant |matches| == i + 1
        invariant forall j | 0 <= j < i :: matches[j + 1] == if peers[j] in matchIndex then matchIndex[peers[j]] else 0
      {
        MarksAppend(peers[..i], peers[i], matchIndex);
        assert peers[..i] + [peers[i]] == peers[..i + 1];
        matches := matches + [At(matchIndex, peers[i])];
      }
      assert peers[..|peers|] == peers;
    }

    method MaybeCommit()
      modifies this`commitIndex, this`replReady, this`nextIndex, this`matchIndex, this`inFlight, this`backoff
      ensures State() == Commit.MaybeCommit(old(State()), Matches(old(State()), old(ReplState())))
      ensures ReplState() == old(ReplState()) && (old(replReady) ==> replReady)
    {
      hide Marks, SortInts, Ascending, EntryAt;
      if role != Leader { return; }
      EnsureRepl();
      var matches := MatchVector();
      SortIntsSorts(matches);
      var sorted := SortInts(matches);
      var threshold := sorted[|matches| - Majority(|peers|)];
      if threshold <= commitIndex { return; }
      if threshold > 0 {
        var e := EntryAt(State(), threshold);
        if e == None || e.value.term != term { return; }
      }
      commitIndex := threshold;
    }

    /** The leader and a peer that can be caught up by appends alone: neither
        log is compacted, the peer is not ahead in term, the logs obey log
        matching, and the bookkeeping for the peer is in range. */
    ghost predicate CanCatchUp(peer: NodeId, follower: Node)
      reads this, follower
    {
      && follower != this && role == Leader && base == 0
      && follower.base == 0 && follower.term <= term && follower.DiskInSync()
      && MatchesAbove(follower.log, 0, log)
      && (forall i | 0 <= i < |log| :: log[i].term >= 0)
      && !Flying(ReplState(), peer)
      && 1 <= At(ReplState().nextIndex, peer) <= |log| + 1
      && At(ReplState().matchIndex, peer) <= |log|
      && At(ReplState().backoff, peer) >= 0
    }

    /** The two lock regions of replicateToPeer around one delivered request,
        up to the reading of the reply. A peer with a matching log answers
        truthfully: success means its log is now the leader's. */
    method Exchange(peer: NodeId, follower: Node) returns (next: int, matched: int, success: bool)
      requires CanCatchUp(peer, follower)
      modifies this`replReady, this`nextIndex, this`matchIndex, this`inFlight, this`backoff
      modifies follower
      ensures replReady && CanCatchUp(peer, follower) && follower.term == term
      ensures ReplState() == Land(Launch(old(ReplState()), peer), peer)
      ensures next == At(nextIndex, peer) && (next == 1 ==> success)
      ensures success ==> follower.log == log && matched == |log|
      ensures !success ==> follower.log == old(follower.log)
    {
      hide DecideAppend, Merge, TermAt, BuildAppend;
      EnsureRepl();
      next := At(nextIndex, peer);
      if next < 1 { next := 1; }
      var req := BuildAppend(State(), next);
      inFlight := inFlight[peer := true];
      MatchingPeerAnswers(State(), follower.State(), next);
      var resp := follower.HandleAppendEntries(req, Saved);
      inFlight := inFlight[peer := false];
      matched := req.prevLogIndex + |req.entries|;
      success := resp.success;
    }

    method OnReject(peer: NodeId) returns (gaveUp: bool)
      requires replReady
      modifies this`nextIndex, this`backoff
      ensures ReplState() == Rewind(old(ReplState()), peer)
      ensures gaveUp == GivesUp(old(ReplState()), peer)
      ensures var (next, before) := (old(At(nextIndex, peer)), old(At(backoff, peer)));
              var step := if before == 0 then 1 else before;
              && nextIndex == old(nextIndex)[peer := if next > step then next - step else 1]
              && backoff == (if step < 64 then old(backoff)[peer := 2 * step] else old(backoff))
              && (gaveUp <==> step >= 64)
    {
      var step := At(backoff, peer);
      if step == 0 { step := 1; }
      if At(nextIndex, peer) > step {
        nextIndex := nextIndex[peer := At(nextIndex, peer) - step];
      } else {
        nextIndex := nextIndex[peer := 1];
      }
      if step < MAX_BACKOFF { backoff := backoff[peer := step * 2]; }
      gaveUp := step >= MAX_BACKOFF;
    }

    method OnAck(peer: NodeId, matched: int)
      requires replReady
      modifies this`commitIndex, this`replReady, this`nextIndex, this`matchIndex, this`inFlight, this`backoff
      ensures replReady && ReplState() == Acknowledge(old(ReplState()), peer, matched)
      ensures At(matchIndex, peer) == Max(old(At(matchIndex, peer)), matched)
      ensures At(nextIndex, peer) == Max(old(At(nextIndex, peer)), matched + 1) && At(backoff, peer) == 0
      ensures State() == Commit.MaybeCommit(old(State()), Matches(old(State()), ReplState()))
    {
      backoff := backoff[peer := 0];
      if matched > At(matchIndex, peer) { matchIndex := matchIndex[peer := matched]; }
      if matched + 1 > At(nextIndex, peer) { nextIndex := nextIndex[peer := matched + 1]; }
      MaybeCommit();
    }

    /** One turn of the loop of replicateToPeer. */
    method Round(peer: NodeId, follower: Node) returns (next: int, verdict: Verdict)
      requires CanCatchUp(peer, follower)
      modifies this`commitIndex, this`replReady, this`nextIndex, this`matchIndex, this`inFlight, this`backoff
      modifies follower
      ensures replReady && CanCatchUp(peer, follower)
      ensures next == old(At(ReplState().nextIndex, peer)) && (next == 1 ==> verdict == Acked)
      ensures verdict == Acked ==> follower.log == log && follower.term == term
                                   && At(matchIndex, peer) == |log| && At(nextIndex, peer) == |log| + 1
                                   && At(backoff, peer) == 0
      ensures verdict != Acked ==>
                var step := old(if At(ReplState().backoff, peer) == 0 then 1 else At(ReplState().backoff, peer));
                && follower.log == old(follower.log)
                && At(nextIndex, peer) == (if next > step then next - step else 1)
                && (verdict == Stop <==> step >= 64)
                && (verdict == Retry <==> step < 64)
                && (verdict == Retry ==> At(backoff, peer) == 2 * step)
                && (verdict == Stop ==> At(backoff, peer) == old(At(ReplState().backoff, peer)))
    {
      hide Marks, Threshold, EntryAt;
      var matched, success;
      next, matched, success := Exchange(peer, follower);
      if success {
        OnAck(peer, matched);
        verdict := Acked;
      } else {
        var gaveUp := OnReject(peer);
        verdict := if gaveUp then Stop else Retry;
      }
    }

    /** replicateToPeer over a transport that delivers, to a peer whose saves
        succeed. One call sends at most 7 requests. It ends with the peer's log
        equal to the leader's, or it gives up with nextIndex at least 64 lower
        (or at 1) and the peer's log untouched; from nextIndex 1 it never gives
        up. `nexts` lists the next index of each request: it goes back by the peer's
        step, which doubles each time, and never below 1. */
    method ReplicateToPeer(peer: NodeId, follower: Node) returns (acked: bool, nexts: seq<int>)
      requires CanCatchUp(peer, follower)
      modifies this`commitIndex, this`replReady, this`nextIndex, this`matchIndex, this`inFlight, this`backoff
      modifies follower
      ensures 1 <= |nexts| <= 7
      ensures forall i, j | 0 <= i < j < |nexts| :: nexts[i] > nexts[j] >= 1
      ensures GoesBack(nexts, old(At(ReplState().nextIndex, peer)),
                       old(if At(ReplState().backoff, peer) == 0 then 1 else At(ReplState().backoff, peer)))
      ensures replReady && CanCatchUp(peer, follower)
      ensures acked ==> follower.log == log && follower.term == term
                        && At(matchIndex, peer) == |log| && At(nextIndex, peer) == |log| + 1
      ensures !acked ==> follower.log == old(follower.log)
                         && (At(nextIndex, peer) == 1
                             || At(nextIndex, peer) <= old(At(ReplState().nextIndex, peer)) - 64)
      ensures old(At(ReplState().nextIndex, peer)) == 1 ==> acked
    {
      hide Doubled, GoesBack, Flying, FreshRepl;
      nexts := [];
      ghost var first, start := At(ReplState().nextIndex, peer), StepFor(ReplState(), peer);
      StartsBack(first, start);
      while true
        invariant CanCatchUp(peer, follower) && follower.log == old(follower.log)
        invariant |nexts| <= 6 && StepFor(ReplState(), peer) == Doubled(start, |nexts|)
        invariant GoesBack(nexts + [At(ReplState().nextIndex, peer)], first, start)
        invariant forall i | 0 <= i < |nexts| :: nexts[i] > 1
        invariant first == 1 ==> nexts == []
        decreases 7 - |nexts|
      {
        ghost var sofar := nexts + [At(ReplState().nextIndex, peer)];
        Falls(sofar, first, start);
        DoubledIsLarge(start, |nexts|);
        var next, verdict := Round(peer, follower);
        nexts := nexts + [next];
        assert nexts == sofar;
        if verdict == Acked { return true, nexts; }
        if verdict == Stop { return false, nexts; }
        OneMoreBack(nexts, first, start);
      }
    }

    /** Repeated calls, one per heartbeat, end with the peer's log equal to the
        leader's after at most ceil((nextIndex - 1) / 64) + 1 of them. */
    method CatchUp(peer: NodeId, follower: Node) returns (calls: nat)
      requires CanCatchUp(peer, follower)
      modifies this`commitIndex, this`replReady, this`nextIndex, this`matchIndex, this`inFlight, this`backoff
      modifies follower
      ensures follower.log == log && follower.term == term && At(matchIndex, peer) == |log|
      ensures calls <= (old(At(ReplState().nextIndex, peer)) + 62) / 64 + 1
    {
      var acked := false;
      calls := 0;
      ghost var first := At(ReplState().nextIndex, peer);
      while !acked
        invariant CanCatchUp(peer, follower) && calls <= CallBound(first)
        invariant !acked ==> calls + CallBound(At(ReplState().nextIndex, peer)) <= CallBound(first)
        invariant acked ==> follower.log == log && follower.term == term && At(matchIndex, peer) == |log|
        decreases !acked, At(ReplState().nextIndex, peer)
      {
        var nexts;
        acked, nexts := ReplicateToPeer(peer, follower);
        calls := calls + 1;
      }
    }
  }
}
