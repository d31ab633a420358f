/** Leader-side bookkeeping: the per-peer replication state and what each lock
    region of replicateToPeer does to it. */
module LeaderLogic {
  import opened Basics
  import opened RaftNode
  import opened Commit

  const MAX_BACKOFF := 64

  datatype Repl = Repl(
    nextIndex: map<NodeId, int>, matchIndex: map<NodeId, int>,
    inFlight: map<NodeId, bool>, backoff: map<NodeId, int>)

  /** Reading a Go map: a missing key is the zero value. */
  function At(m: map<NodeId, int>, k: NodeId): int { if k in m then m[k] else 0 }

  function Flying(r: Repl, peer: NodeId): bool { peer in r.inFlight && r.inFlight[peer] }

  /** The replication state replState builds on first use. */
  function FreshRepl(s: NodeState): Repl {
    Repl(map p | p in s.peers :: LastIndex(s) + 1, map[], map[], map[])
  }

  function NextFor(r: Repl, peer: NodeId): int { Max(At(r.nextIndex, peer), 1) }

  function Marks(peers: seq<NodeId>, m: map<NodeId, int>): (r: seq<int>)
    ensures |r| == |peers|
  {
    if peers == [] then [] else [At(m, peers[0])] + Marks(peers[1..], m)
  }

  /** The match vector of maybeCommit: the leader's own last index first. */
  function Matches(s: NodeState, r: Repl): seq<int> {
    [LastIndex(s)] + Marks(s.peers, r.matchIndex)
  }

  lemma {:induction false} MarksAppend(peers: seq<NodeId>, p: NodeId, m: map<NodeId, int>)
    ensures Marks(peers + [p], m) == Marks(peers, m) + [At(m, p)]
  {
    if peers == [] {
    } else {
      MarksAppend(peers[1..], p, m);
      assert (peers + [p])[1..] == peers[1..] + [p];
    }
  }

  lemma {:induction false} MarksMonotone(peers: seq<NodeId>, m: map<NodeId, int>, m1: map<NodeId, int>, k: int)
    requires forall p :: At(m, p) <= At(m1, p)
    ensures Reached(Marks(peers, m), k) <= Reached(Marks(peers, m1), k)
  {
    if peers == [] {
    } else {
      MarksMonotone(peers[1..], m, m1, k);
      assert Marks(peers, m)[1..] == Marks(peers[1..], m) && Marks(peers, m1)[1..] == Marks(peers[1..], m1);
    }
  }

  ghost predicate Distinct(s: seq<NodeId>) { forall i, j | 0 <= i < j < |s| :: s[i] != s[j] }

  /** The peers whose match index has reached `k`. */
  function Reachers(peers: seq<NodeId>, m: map<NodeId, int>, k: int): set<NodeId> {
    if peers == [] then {} else (if At(m, peers[0]) >= k then {peers[0]} else {}) + Reachers(peers[1..], m, k)
  }

  lemma {:induction false} ReachersAre(peers: seq<NodeId>, m: map<NodeId, int>, k: int)
    ensures forall p :: p in Reachers(peers, m, k) <==> p in peers && At(m, p) >= k
  {
    hide At;
    if peers == [] {
    } else {
      ReachersAre(peers[1..], m, k);
      assert peers == [peers[0]] + peers[1..];
    }
  }

  /** Counting match indexes counts peers. */
  lemma {:induction false} ReachersCounted(peers: seq<NodeId>, m: map<NodeId, int>, k: int)
    ensures forall p :: p in Reachers(peers, m, k) <==> p in peers && At(m, p) >= k
    ensures Distinct(peers) ==> |Reachers(peers, m, k)| == Reached(Marks(peers, m), k)
  {
    ReachersAre(peers, m, k);
    if peers == [] {
    } else {
      hide At;
      ReachersCounted(peers[1..], m, k);
      ReachersAre(peers[1..], m, k);
      assert Marks(peers, m)[1..] == Marks(peers[1..], m);
      if Distinct(peers) { assert peers[0] !in peers[1..]; }
    }
  }

  function Launch(r: Repl, peer: NodeId): Repl { r.(inFlight := r.inFlight[peer := true]) }

  function Land(r: Repl, peer: NodeId): Repl { r.(inFlight := r.inFlight[peer := false]) }

  function StepFor(r: Repl, peer: NodeId): int {
    if At(r.backoff, peer) == 0 then 1 else At(r.backoff, peer)
  }

  /** A rejection: move nextIndex back by the step and double the step. */
  function Rewind(r: Repl, peer: NodeId): Repl {
    var step := StepFor(r, peer);
    r.(nextIndex := r.nextIndex[peer := if At(r.nextIndex, peer) > step then At(r.nextIndex, peer) - step else 1],
       backoff := if step < MAX_BACKOFF then r.backoff[peer := step * 2] else r.backoff)
  }

  predicate GivesUp(r: Repl, peer: NodeId) { StepFor(r, peer) >= MAX_BACKOFF }

  /** An acknowledgement up to `matched`. */
  function Acknowledge(r: Repl, peer: NodeId, matched: int): Repl {
    r.(backoff := r.backoff[peer := 0],
       matchIndex := if matched > At(r.matchIndex, peer) then r.matchIndex[peer := matched] else r.matchIndex,
       nextIndex := if matched + 1 > At(r.nextIndex, peer) then r.nextIndex[peer := matched + 1] else r.nextIndex)
  }

  datatype Verdict = Acked | Stop | Retry

  datatype ReplyOutcome = ReplyOutcome(state: NodeState, repl: Repl, verdict: Verdict)

  /** The lock region of replicateToPeer that handles a reply to `req`. */
  function OnAppendReply(s: NodeState, r0: Repl, peer: NodeId, req: AppendRequest, resp: AppendResponse): ReplyOutcome {
    var r := Land(r0, peer);
    if resp.term > s.term then ReplyOutcome(BecomeFollower(s, resp.term, None), r, Stop)
    else if resp.term < s.term then ReplyOutcome(s, r, Stop)
    else if !resp.success then
      ReplyOutcome(s, Rewind(r, peer), if GivesUp(r, peer) then Stop else Retry)
    else
      var r1 := Acknowledge(r, peer, req.prevLogIndex + |req.entries|);
      ReplyOutcome(MaybeCommit(s, Matches(s, r1)), r1, Acked)
  }

  /** What a reply can do to the node: step it down or move its commit index. */
  lemma ReplyTouchesLittle(s: NodeState, r: Repl, peer: NodeId, req: AppendRequest, resp: AppendResponse)
    ensures var s1 := OnAppendReply(s, r, peer, req, resp).state;
            s1 == if resp.term > s.term then BecomeFollower(s, resp.term, None) else s.(commitIndex := s1.commitIndex)
  {}

  /** A reply lands; then it is ignored, rewinds, or acknowledges. It never
      touches the leader's log. */
  lemma ReplyShape(s: NodeState, r: Repl, peer: NodeId, req: AppendRequest, resp: AppendResponse)
    ensures var out := OnAppendReply(s, r, peer, req, resp);
            && out.state.id == s.id && out.state.peers == s.peers && out.state.log == s.log && out.state.base == s.base
            && (out.state.role == Leader ==> out.state.term == s.term && s.role == Leader)
            && out.repl == (if resp.term != s.term then Land(r, peer)
                            else if resp.success then Acknowledge(Land(r, peer), peer, req.prevLogIndex + |req.entries|)
                            else Rewind(Land(r, peer), peer))
            && (out.state.commitIndex == s.commitIndex
                || (out.state.commitIndex <= LastIndex(s)
                    && 2 * Reached(Matches(s, out.repl), out.state.commitIndex) > |s.peers| + 1))
  {
    var r1 := Acknowledge(Land(r, peer), peer, req.prevLogIndex + |req.entries|);
    ThresholdIsMajorityIndex(Matches(s, r1), Threshold(Matches(s, r1)));
  }

  /** A reply in plain terms. A later term makes the leader step down in it; an
      earlier one is ignored. A rejection takes the peer's next index back by its
      step, though not below 1, and doubles the step up to 64. An acknowledgement
      moves match and next index forward only, and the step starts over. The other
      peers' entries stay as they are. */
  lemma ReplyMoves(s: NodeState, r: Repl, peer: NodeId, req: AppendRequest, resp: AppendResponse)
    ensures var out := OnAppendReply(s, r, peer, req, resp);
            var (r1, end) := (out.repl, req.prevLogIndex + |req.entries|);
            var (next, step) := (At(r.nextIndex, peer), if At(r.backoff, peer) == 0 then 1 else At(r.backoff, peer));
            && (resp.term > s.term ==>
                  out.state.role == Follower && out.state.term == resp.term && out.state.votedFor == None)
            && (resp.term < s.term ==> out.state == s)
            && (resp.term != s.term ==>
                  r1.nextIndex == r.nextIndex && r1.matchIndex == r.matchIndex && r1.backoff == r.backoff)
            && (resp.term == s.term && !resp.success ==>
                  && r1.matchIndex == r.matchIndex && out.state == s
                  && At(r1.nextIndex, peer) == (if next > step then next - step else 1)
                  && At(r1.backoff, peer) == (if step < 64 then 2 * step else At(r.backoff, peer))
                  && (out.verdict == Stop <==> step >= 64))
            && (resp.term == s.term && resp.success ==>
                  && At(r1.matchIndex, peer) == Max(At(r.matchIndex, peer), end)
                  && At(r1.nextIndex, peer) == Max(next, end + 1) && At(r1.backoff, peer) == 0)
            && !Flying(r1, peer)
            && forall p | p != peer ::
                 && At(r1.nextIndex, p) == At(r.nextIndex, p) && At(r1.matchIndex, p) == At(r.matchIndex, p)
                 && At(r1.backoff, p) == At(r.backoff, p) && Flying(r1, p) == Flying(r, p)
  {
    hide MaybeCommit, Matches;
  }
}
