/** One Raft node as a value: its fields, its index arithmetic, and what each
    lock region of the handlers does to it. `NodeObject` proves the in-place
    methods against these functions; `Cluster` composes them into runs. */
module RaftNode {
  import opened Basics
  import opened Commands

  type NodeId = string

  datatype Role = Follower | Candidate | Leader

  datatype Entry = Entry(term: int, cmd: Command)

  datatype VoteRequest = VoteRequest(term: int, candidate: NodeId, lastLogIndex: int, lastLogTerm: int)
  datatype VoteResponse = VoteResponse(term: int, granted: bool)

  datatype AppendRequest = AppendRequest(
    term: int, leader: NodeId, prevLogIndex: int, prevLogTerm: int, entries: seq<Entry>, leaderCommit: int)
  datatype AppendResponse = AppendResponse(term: int, success: bool)

  /** `base`/`baseTerm` are lastIncludedIndex/lastIncludedTerm: the entry at
      slice offset `o` has log index `base + 1 + o`. */
  datatype NodeState = NodeState(
    id: NodeId, peers: seq<NodeId>,
    role: Role, term: int, votedFor: Option<NodeId>, leaderId: Option<NodeId>,
    log: seq<Entry>, base: nat, baseTerm: int,
    commitIndex: int, lastApplied: int, dirty: bool)

  /** The durable subset of a node (what Save writes and Load returns). */
  datatype Durable = Durable(term: int, votedFor: Option<NodeId>, log: seq<Entry>, base: nat, baseTerm: int)

  /** The three ways Save can end: it succeeds; it fails before the rename; or
      it fails after the rename, when the new state is already in place. */
  datatype SaveOutcome = Saved | FailedUnwritten | FailedWritten

  const BLANK_DISK := Durable(0, None, [], 0, 0)

  // ---- index arithmetic ----

  function LastIndex(s: NodeState): int { s.base + |s.log| }

  function LastTerm(s: NodeState): int {
    if |s.log| > 0 then s.log[|s.log| - 1].term else s.baseTerm
  }

  function EntryAt(s: NodeState, index: int): Option<Entry> {
    var off := index - s.base - 1;
    if off < 0 || off >= |s.log| then None else Some(s.log[off])
  }

  function TermAt(s: NodeState, index: int): int {
    if index == 0 then 0
    else if index == s.base then s.baseTerm
    else match EntryAt(s, index)
      case Some(e) => e.term
      case None => -1
  }

  function Majority(peers: nat): nat { (peers + 1) / 2 + 1 }

  /** The quorum is the least number of machines that is more than half of all. */
  lemma MajorityIsLeast(peers: nat)
    ensures forall n: int :: n >= Majority(peers) <==> 2 * n > peers + 1
  {}

  // ---- role transitions ----

  function BecomeCandidate(s: NodeState): NodeState {
    s.(role := Candidate, term := s.term + 1, votedFor := Some(s.id), leaderId := None, dirty := true)
  }

  function BecomeLeader(s: NodeState): NodeState {
    s.(role := Leader, leaderId := Some(s.id))
  }

  function BecomeFollower(s: NodeState, term: int, leader: Option<NodeId>): NodeState {
    s.(role := Follower, term := term, votedFor := None, leaderId := leader, dirty := true)
  }

  // ---- elections ----

  /** The request a candidate builds under the same lock as its new term. */
  function SolicitRequest(s: NodeState): VoteRequest {
    VoteRequest(s.term, s.id, LastIndex(s), LastTerm(s))
  }

  predicate LogFresh(s: NodeState, req: VoteRequest) {
    req.lastLogTerm > LastTerm(s) || (req.lastLogTerm == LastTerm(s) && req.lastLogIndex >= LastIndex(s))
  }

  predicate NotVotedYet(s: NodeState, candidate: NodeId) {
    s.votedFor == None || s.votedFor == Some(candidate)
  }

  /** The decision half of HandleRequestVote, before anything is persisted. */
  function DecideVote(s: NodeState, req: VoteRequest): (NodeState, VoteResponse) {
    if req.term < s.term then (s, VoteResponse(s.term, false))
    else
      var s1 := if req.term > s.term then BecomeFollower(s, req.term, None) else s;
      if NotVotedYet(s1, req.candidate) && LogFresh(s1, req) then
        (s1.(votedFor := Some(req.candidate), dirty := true), VoteResponse(s1.term, true))
      else
        (s1, VoteResponse(s1.term, false))
  }

  /** The vote in plain terms: granted to a request that is not from an earlier term,
      by a node free to vote in that term, for a log that is at least as fresh. */
  lemma VoteDecision(s: NodeState, req: VoteRequest)
    ensures var (s1, resp) := DecideVote(s, req);
            var lastTerm := if |s.log| > 0 then s.log[|s.log| - 1].term else s.baseTerm;
            && resp.term == s1.term == Max(s.term, req.term)
            && (resp.granted <==>
                  && req.term >= s.term
                  && (req.term > s.term || s.votedFor == None || s.votedFor == Some(req.candidate))
                  && (req.lastLogTerm > lastTerm
                      || (req.lastLogTerm == lastTerm && req.lastLogIndex >= s.base + |s.log|)))
            && s1.votedFor == (if resp.granted then Some(req.candidate) else if req.term > s.term then None else s.votedFor)
            && s1.role == (if req.term > s.term then Follower else s.role)
            && s1.leaderId == (if req.term > s.term then None else s.leaderId)
            && s1.dirty == (s.dirty || resp.granted || req.term > s.term)
            && s1 == s.(term := s1.term, votedFor := s1.votedFor, role := s1.role, leaderId := s1.leaderId, dirty := s1.dirty)
  {}

  /** The last lock region of startElection: `votes` counts the self vote. */
  function ConcludeElection(s: NodeState, req: VoteRequest, votes: nat): NodeState {
    if votes >= Majority(|s.peers|) && s.role == Candidate && s.term == req.term
    then BecomeLeader(s)
    else BecomeFollower(s, s.term, None)
  }

  datatype TallyResult = Outranked(term: int) | Counted(votes: nat)

  /** The tally loop of startElection over the replies in arrival order: a
      higher term ends the campaign, a majority ends the counting. */
  function Tally(term: int, quorum: nat, votes: nat, replies: seq<VoteResponse>): TallyResult
    decreases |replies|
  {
    if replies == [] then Counted(votes)
    else if replies[0].term > term then Outranked(replies[0].term)
    else
      var v := if replies[0].granted then votes + 1 else votes;
      if v >= quorum then Counted(v) else Tally(term, quorum, v, replies[1..])
  }

  function Grants(replies: seq<VoteResponse>): nat {
    if replies == [] then 0 else (if replies[0].granted then 1 else 0) + Grants(replies[1..])
  }

  /** The first `n` replies make up a majority, and none of them outranks the
      candidate. */
  ghost predicate CarriedBy(term: int, quorum: nat, votes: nat, replies: seq<VoteResponse>, n: nat)
    requires n <= |replies|
  {
    (forall j | 0 <= j < n :: replies[j].term <= term) && votes + Grants(replies[..n]) >= quorum
  }

  /** Some first replies carry the election; with none to wait for, the
      candidate's own vote has to. */
  ghost predicate Carried(term: int, quorum: nat, votes: nat, replies: seq<VoteResponse>) {
    exists n | 0 <= n <= |replies| :: (n > 0 || replies == []) && CarriedBy(term, quorum, votes, replies, n)
  }

  lemma GrantsNext(replies: seq<VoteResponse>, n: nat)
    requires n < |replies|
    ensures Grants(replies[..n + 1]) == (if replies[0].granted then 1 else 0) + Grants(replies[1..][..n])
  {
    assert replies[..n + 1][1..] == replies[1..][..n];
  }

  lemma NoGrants()
    ensures Grants([]) == 0
  {}

  lemma CarriedNext(term: int, quorum: nat, votes: nat, replies: seq<VoteResponse>, v: nat)
    requires replies != [] && replies[0].term <= term && v < quorum
    requires v == if replies[0].granted then votes + 1 else votes
    ensures Carried(term, quorum, votes, replies) <==> Carried(term, quorum, v, replies[1..])
  {
    hide Grants;
    var rest := replies[1..];
    forall n | 0 <= n <= |rest|
      ensures CarriedBy(term, quorum, votes, replies, n + 1) <==> CarriedBy(term, quorum, v, rest, n)
    {
      GrantsNext(replies, n);
      assert forall j | 0 < j < n + 1 :: replies[j] == rest[j - 1];
      assert forall j | 0 <= j < n :: rest[j] == replies[j + 1];
    }
    if Carried(term, quorum, votes, replies) {
      var n :| 0 < n <= |replies| && CarriedBy(term, quorum, votes, replies, n);
      assert CarriedBy(term, quorum, v, rest, n - 1) && rest[..0] == [];
      NoGrants();
    }
    if Carried(term, quorum, v, rest) {
      var n :| 0 <= n <= |rest| && CarriedBy(term, quorum, v, rest, n);
      assert CarriedBy(term, quorum, votes, replies, n + 1);
    }
  }

  /** The loop elects if and only if some first replies make up a majority with
      nobody among them outranking the candidate. */
  lemma {:induction false} TallyCountsGrants(term: int, quorum: nat, votes: nat, replies: seq<VoteResponse>)
    ensures var r := Tally(term, quorum, votes, replies);
            && (r.Counted? && r.votes >= quorum <==> Carried(term, quorum, votes, replies))
            && (r.Outranked? ==> r.term > term)
    decreases |replies|
  {
    assert replies[..0] == [];
    if replies == [] {
      assert CarriedBy(term, quorum, votes, replies, 0) <==> votes >= quorum;
    } else if replies[0].term <= term {
      var v := if replies[0].granted then votes + 1 else votes;
      assert replies[..1] == [replies[0]];
      if v >= quorum {
        assert CarriedBy(term, quorum, votes, replies, 1);
      } else {
        CarriedNext(term, quorum, votes, replies, v);
        TallyCountsGrants(term, quorum, v, replies[1..]);
      }
    }
  }

  /** Some first replies give the candidate, with its own vote, more than half of
      `machines`, and none of them is from a later term. */
  ghost predicate GrantedByMajority(term: int, machines: nat, replies: seq<VoteResponse>) {
    exists n | 0 <= n <= |replies| ::
      && (n > 0 || replies == [])
      && (forall j | 0 <= j < n :: replies[j].term <= term)
      && 2 * (1 + Grants(replies[..n])) > machines
  }

  lemma CarriedByMajority(term: int, peers: nat, replies: seq<VoteResponse>)
    ensures Carried(term, Majority(peers), 1, replies) <==> GrantedByMajority(term, peers + 1, replies)
  {
    hide Grants;
    if Carried(term, Majority(peers), 1, replies) {
      var n :| 0 <= n <= |replies| && (n > 0 || replies == []) && CarriedBy(term, Majority(peers), 1, replies, n);
      assert 2 * (1 + Grants(replies[..n])) > peers + 1;
    }
    if GrantedByMajority(term, peers + 1, replies) {
      var n :| 0 <= n <= |replies| && (n > 0 || replies == []) && (forall j | 0 <= j < n :: replies[j].term <= term)
               && 2 * (1 + Grants(replies[..n])) > peers + 1;
      assert CarriedBy(term, Majority(peers), 1, replies, n);
    }
  }

  /** Reply `i` is the first from a term above `term`. */
  ghost predicate FirstAbove(term: int, replies: seq<VoteResponse>, i: int) {
    0 <= i < |replies| && replies[i].term > term && forall j | 0 <= j < i :: replies[j].term <= term
  }

  /** A candidate that is not elected ends in the term of the first reply above its
      own, if there is one. */
  lemma {:induction false} TallyFindsFirstAbove(term: int, quorum: nat, votes: nat, replies: seq<VoteResponse>, i: int)
    requires FirstAbove(term, replies, i)
    ensures var r := Tally(term, quorum, votes, replies);
            r == Outranked(replies[i].term) || (r.Counted? && r.votes >= quorum)
    decreases |replies|
  {
    if i == 0 {
    } else {
      var v := if replies[0].granted then votes + 1 else votes;
      assert forall j | 0 <= j < i - 1 :: replies[1..][j] == replies[j + 1];
      if v < quorum { TallyFindsFirstAbove(term, quorum, v, replies[1..], i - 1); }
    }
  }

  lemma {:induction false} TallyWithoutOutranking(term: int, quorum: nat, votes: nat, replies: seq<VoteResponse>)
    requires forall j | 0 <= j < |replies| :: replies[j].term <= term
    ensures Tally(term, quorum, votes, replies).Counted?
    decreases |replies|
  {
    if replies == [] {
    } else {
      var v := if replies[0].granted then votes + 1 else votes;
      assert forall j | 0 <= j < |replies| - 1 :: replies[1..][j] == replies[j + 1];
      if v < quorum { TallyWithoutOutranking(term, quorum, v, replies[1..]); }
    }
  }

  // ---- log replication, follower side ----

  predicate CheckPrevLog(s: NodeState, prevLogIndex: int, prevLogTerm: int) {
    && prevLogIndex <= LastIndex(s)
    && (prevLogIndex > 0 ==> TermAt(s, prevLogIndex) == prevLogTerm)
  }

  /** What is left of the log once the suffix the leader did not send is cut. */
  function CutStale(log: seq<Entry>, base: nat, end: int): seq<Entry> {
    if end < base + |log| then log[..Max(end - base, 0)] else log
  }

  /** The loop of mergeEntries from entry `i` on. */
  function MergeFrom(log: seq<Entry>, base: nat, prev: int, entries: seq<Entry>, i: nat): seq<Entry>
    requires i <= |entries|
    decreases |entries| - i
  {
    if i == |entries| then log
    else
      var idx := prev + 1 + i;
      if idx <= base then MergeFrom(log, base, prev, entries, i + 1)
      else if idx <= base + |log| then
        if log[idx - base - 1].term == entries[i].term then MergeFrom(log, base, prev, entries, i + 1)
        else log[..idx - base - 1] + entries[i..]
      else log + entries[i..]
  }

  function Merge(log: seq<Entry>, base: nat, prev: int, entries: seq<Entry>): seq<Entry> {
    MergeFrom(CutStale(log, base, prev + |entries|), base, prev, entries, 0)
  }

  /** Whether mergeEntries reports a change: a cut, a conflict or new entries. */
  predicate MergeChanges(log: seq<Entry>, base: nat, prev: int, entries: seq<Entry>, i: nat)
    requires i <= |entries|
    decreases |entries| - i
  {
    if i == |entries| then false
    else
      var idx := prev + 1 + i;
      if idx <= base then MergeChanges(log, base, prev, entries, i + 1)
      else if idx <= base + |log| && log[idx - base - 1].term == entries[i].term then
        MergeChanges(log, base, prev, entries, i + 1)
      else true
  }

  predicate Merged(log: seq<Entry>, base: nat, prev: int, entries: seq<Entry>) {
    prev + |entries| < base + |log| || MergeChanges(log, base, prev, entries, 0)
  }

  datatype AppendOutcome = AppendOutcome(state: NodeState, resp: AppendResponse, changed: bool)

  /** Any request at or above the node's term makes it follow the sender. */
  function FollowSender(s: NodeState, req: AppendRequest): NodeState {
    if req.term > s.term || s.role != Follower
    then BecomeFollower(s, req.term, Some(req.leader))
    else s.(leaderId := Some(req.leader))
  }

  /** Merge the entries and advance commitIndex up to leaderCommit. */
  function AcceptAppend(s: NodeState, req: AppendRequest): AppendOutcome {
    var changed := Merged(s.log, s.base, req.prevLogIndex, req.entries);
    var s1 := s.(log := Merge(s.log, s.base, req.prevLogIndex, req.entries), dirty := s.dirty || changed);
    if req.leaderCommit > s1.commitIndex then
      AppendOutcome(s1.(commitIndex := Min(req.leaderCommit, LastIndex(s1)), dirty := true),
                    AppendResponse(s1.term, true), true)
    else
      AppendOutcome(s1, AppendResponse(s1.term, true), changed)
  }

  /** The decision half of HandleAppendEntries; `changed` asks for a persist
      before the reply goes out. */
  function DecideAppend(s: NodeState, req: AppendRequest): AppendOutcome {
    if req.term < s.term then AppendOutcome(s, AppendResponse(s.term, false), false)
    else
      var s1 := FollowSender(s, req);
      if !CheckPrevLog(s1, req.prevLogIndex, req.prevLogTerm)
      then AppendOutcome(s1, AppendResponse(s1.term, false), false)
      else AcceptAppend(s1, req)
  }

  /** An append in plain terms: accepted unless it is from an earlier term or the
      entry before its first is not there with that term. Whoever is not outdated is
      followed, and a vote survives only in a follower of the same term. */
  lemma AppendDecision(s: NodeState, req: AppendRequest)
    ensures var out := DecideAppend(s, req);
            var (s1, prev) := (out.state, req.prevLogIndex);
            var anew := req.term > s.term || (req.term == s.term && s.role != Follower);
            && s1.term == out.resp.term == Max(s.term, req.term)
            && (out.resp.success <==>
                  && req.term >= s.term && prev <= s.base + |s.log|
                  && (prev <= 0 || req.prevLogTerm == (if prev == s.base then s.baseTerm
                                                       else if prev < s.base then -1 else s.log[prev - s.base - 1].term)))
            && (req.term >= s.term ==> s1.role == Follower && s1.leaderId == Some(req.leader))
            && (req.term < s.term ==> s1 == s && !out.changed)
            && s1.votedFor == (if anew then None else s.votedFor)
            && (s1.dirty <==> s.dirty || anew || out.changed)
            && (!out.resp.success ==> s1.log == s.log && s1.commitIndex == s.commitIndex && !out.changed)
            && s1.base == s.base && s1.baseTerm == s.baseTerm && s1.lastApplied == s.lastApplied
            && s1.id == s.id && s1.peers == s.peers
  {
    hide Merge, Merged;
  }

  // ---- leader side ----

  function AppendOwn(s: NodeState, cmd: Command): NodeState {
    s.(log := s.log + [Entry(s.term, cmd)], dirty := true)
  }

  /** The request replicateToPeer builds for a peer whose next index is `next`. */
  function BuildAppend(s: NodeState, next: int): AppendRequest
    requires next >= s.base + 1
  {
    AppendRequest(s.term, s.id, next - 1, TermAt(s, next - 1),
                  if next <= LastIndex(s) then s.log[next - s.base - 1..] else [],
                  s.commitIndex)
  }

  // ---- durability ----

  function ToDisk(s: NodeState): Durable {
    Durable(s.term, s.votedFor, s.log, s.base, s.baseTerm)
  }

  /** NewNode followed by SetRaftStore, for a node that has peers. */
  function Reload(id: NodeId, peers: seq<NodeId>, d: Durable): NodeState {
    NodeState(id, peers, Follower, d.term, d.votedFor, None, d.log, d.base, d.baseTerm, d.base, d.base, false)
  }

  // ---- compaction ----

  function CompactLog(s: NodeState, index: int, term: int): NodeState {
    if index <= s.base then s
    else
      var s1 := if index >= LastIndex(s)
                then s.(log := [], base := index, baseTerm := LastTerm(s))
                else s.(log := s.log[index - s.base..], base := index, baseTerm := term);
      s1.(commitIndex := Max(s.commitIndex, index), lastApplied := Max(s.lastApplied, index), dirty := true)
  }
}
