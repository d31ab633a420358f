/** One leadership: exactly when the leader's match indexes tell the truth, and
    then whatever maybeCommit accepts a majority really holds. Requests and replies are
    separate steps and the leader may append in between, but a request that
    has been given up on is not delivered later. */
module Replication {
  import opened Basics
  import opened Commands
  import opened RaftNode
  import opened MergeExactness
  import opened Commit
  import opened LeaderLogic

  /** What replicateToPeer has outstanding with one peer. */
  datatype Exchange = Quiet | Sent(req: AppendRequest) | Replied(req: AppendRequest, resp: AppendResponse)

  datatype Peer = Peer(state: NodeState, wire: Exchange)

  /** `term` and `start` are the leader's term and commit index at its election. */
  datatype Leadership = Leadership(
    term: int, start: int, leader: NodeState, repl: Repl, peers: map<NodeId, Peer>)

  datatype Step =
    | Propose(cmd: Command)
    | Send(p: NodeId)
    | Deliver(p: NodeId)
    | Receive(p: NodeId)
    | Fail(p: NodeId)                        // transport error: request or reply lost
    | Elsewhere(p: NodeId, s: NodeState)     // the peer changes for reasons of its own

  /** What cluster-wide log matching gives between a follower and the leader of
      `term`: a shared index and term means a shared prefix, and entries of the
      leader's term come from the leader. */
  ghost predicate Agrees(f: NodeState, leader: NodeState, term: int) {
    && MatchesAbove(f.log, 0, leader.log)
    && (forall i | 0 <= i < |f.log| :: f.log[i].term >= 0)
    && (forall i | |leader.log| <= i < |f.log| :: f.log[i].term != term)
  }

  /** What a peer may do by itself: leave for a later term with any log; in an
      earlier term, anything that respects log matching; in the leader's own
      term, anything that leaves its log alone. */
  ghost predicate MayBecome(c: Leadership, f: NodeState, s: NodeState) {
    && s.base == 0 && s.term >= f.term
    && (s.term <= c.term ==> Agrees(s, c.leader, c.term))
    && (s.term == c.term && f.term == c.term ==> s.log == f.log)
  }

  ghost predicate Enabled(c: Leadership, step: Step) {
    match step
    case Propose(_) => c.leader.role == Leader
    case Send(p) =>
      && p in c.peers && c.peers[p].wire == Quiet
      && c.leader.role == Leader && NextFor(c.repl, p) >= c.leader.base + 1
    case Deliver(p) => p in c.peers && c.peers[p].wire.Sent?
    case Receive(p) => p in c.peers && c.peers[p].wire.Replied? && c.leader.role == Leader
    case Fail(p) => p in c.peers && !c.peers[p].wire.Quiet?
    case Elsewhere(p, s) => p in c.peers && MayBecome(c, c.peers[p].state, s)
  }

  ghost function Next(c: Leadership, step: Step): Leadership
    requires Enabled(c, step)
  {
    match step
    case Propose(cmd) => c.(leader := AppendOwn(c.leader, cmd))
    case Send(p) =>
      c.(repl := Launch(c.repl, p),
         peers := c.peers[p := c.peers[p].(wire := Sent(BuildAppend(c.leader, NextFor(c.repl, p))))])
    case Deliver(p) =>
      var out := DecideAppend(c.peers[p].state, c.peers[p].wire.req);
      c.(peers := c.peers[p := Peer(out.state, Replied(c.peers[p].wire.req, out.resp))])
    case Receive(p) =>
      var out := OnAppendReply(c.leader, c.repl, p, c.peers[p].wire.req, c.peers[p].wire.resp);
      c.(leader := out.state, repl := out.repl, peers := c.peers[p := c.peers[p].(wire := Quiet)])
    case Fail(p) =>
      c.(repl := Land(c.repl, p), peers := c.peers[p := c.peers[p].(wire := Quiet)])
    case Elsewhere(p, s) => c.(peers := c.peers[p := c.peers[p].(state := s)])
  }

  ghost predicate IsRun(c: Leadership, steps: seq<Step>)
    decreases |steps|
  {
    steps == [] || (Enabled(c, steps[0]) && IsRun(Next(c, steps[0]), steps[1..]))
  }

  ghost function After(c: Leadership, steps: seq<Step>): Leadership
    requires IsRun(c, steps)
    decreases |steps|
  {
    if steps == [] then c else After(Next(c, steps[0]), steps[1..])
  }

  /** A newly elected leader over any peers that respect log matching, with
      whatever bookkeeping it comes by: replState builds it once and never again,
      so it may be left over from an earlier leadership. */
  ghost predicate Elected(c: Leadership) {
    && c.leader.role == Leader && c.leader.term == c.term >= 0 && c.leader.base == 0
    && c.leader.commitIndex == c.start >= 0
    && c.leader.id !in c.leader.peers && Distinct(c.leader.peers)
    && (forall p :: p in c.leader.peers <==> p in c.peers)
    && (forall i | 0 <= i < |c.leader.log| :: c.leader.log[i].term >= 0)
    && forall p | p in c.peers ::
         && At(c.repl.matchIndex, p) >= 0
         && c.peers[p].wire == Quiet && c.peers[p].state.base == 0
         && (c.peers[p].state.term <= c.term ==> Agrees(c.peers[p].state, c.leader, c.term))
  }

  /** `f` holds the leader's first `n` entries. */
  ghost predicate Holds(f: NodeState, leader: NodeState, n: int) {
    0 <= n <= |f.log| && n <= |leader.log| && f.log[..n] == leader.log[..n]
  }

  /** What makes a match index safe to start from: it is zero, or the peer has
      left for a later term, or the peer is in the leader's term and holds it. */
  ghost predicate Warranted(c: Leadership, p: NodeId)
    requires p in c.peers
  {
    var f, m := c.peers[p].state, At(c.repl.matchIndex, p);
    m == 0 || f.term > c.term || (f.term == c.term && Holds(f, c.leader, m))
  }

  ghost predicate AllWarranted(c: Leadership) { forall p | p in c.peers :: Warranted(c, p) }

  lemma FreshIsWarranted(c: Leadership)
    requires c.repl == FreshRepl(c.leader)
    ensures AllWarranted(c)
  {}

  // ---- the invariant ----

  ghost function EndOf(req: AppendRequest): int { req.prevLogIndex + |req.entries| }

  /** The request carries a stretch of the leader's log. */
  ghost predicate CarriesTail(c: Leadership, req: AppendRequest) {
    var prev := req.prevLogIndex;
    && 0 <= prev && EndOf(req) <= |c.leader.log| && req.entries == c.leader.log[prev..EndOf(req)]
    && (prev > 0 ==> req.prevLogTerm == c.leader.log[prev - 1].term)
  }

  /** Built from a next index beyond the log: no peer accepts it. */
  ghost predicate GoesAstray(req: AppendRequest) {
    req.entries == [] && req.prevLogIndex > 0 && req.prevLogTerm == -1
  }

  ghost predicate WireOk(c: Leadership, m: int, f: NodeState, req: AppendRequest) {
    && req.term == c.term
    && (GoesAstray(req) || (CarriesTail(c, req) && (f.term <= c.term ==> m <= EndOf(req))))
  }

  ghost predicate PeerOk(c: Leadership, p: NodeId, x: Peer) {
    var f, m := x.state, At(c.repl.matchIndex, p);
    && f.base == 0 && 0 <= m
    && (f.term <= c.term ==> Agrees(f, c.leader, c.term))
    && (f.term == c.term ==> Holds(f, c.leader, m))
    && (m > 0 ==> f.term >= c.term)
    && (!x.wire.Quiet? ==> WireOk(c, m, f, x.wire.req))
    && (x.wire.Replied? && x.wire.resp == AppendResponse(c.term, true) ==>
          && CarriesTail(c, x.wire.req) && f.term >= c.term
          && (f.term == c.term ==> Holds(f, c.leader, EndOf(x.wire.req))))
  }

  ghost predicate LeaderOk(c: Leadership) {
    && c.leader.base == 0 && c.term >= 0
    && (c.leader.role == Leader ==> c.leader.term == c.term)
    && (forall i | 0 <= i < |c.leader.log| :: c.leader.log[i].term >= 0)
    && c.leader.id !in c.leader.peers && Distinct(c.leader.peers)
    && (forall p :: p in c.leader.peers <==> p in c.peers)
  }

  ghost predicate CommitOk(c: Leadership) {
    c.leader.commitIndex <= c.start
    || (c.leader.commitIndex <= LastIndex(c.leader)
        && 2 * Reached(Matches(c.leader, c.repl), c.leader.commitIndex) > |c.leader.peers| + 1)
  }

  ghost predicate Inv(c: Leadership) {
    LeaderOk(c) && CommitOk(c) && forall p | p in c.peers :: PeerOk(c, p, c.peers[p])
  }

  // ---- steps ----

  lemma CommitStays(s: NodeState, r: Repl, s1: NodeState, r1: Repl, k: int)
    requires LastIndex(s) <= LastIndex(s1) && s.peers == s1.peers
    requires forall p :: At(r.matchIndex, p) <= At(r1.matchIndex, p)
    ensures Reached(Matches(s, r), k) <= Reached(Matches(s1, r1), k)
  {
    MarksMonotone(s.peers, r.matchIndex, r1.matchIndex, k);
    assert Matches(s, r)[1..] == Marks(s.peers, r.matchIndex);
    assert Matches(s1, r1)[1..] == Marks(s.peers, r1.matchIndex);
  }

  lemma ProposeKeepsPeer(c: Leadership, p: NodeId, x: Peer, cmd: Command)
    requires LeaderOk(c) && c.leader.role == Leader && PeerOk(c, p, x)
    ensures PeerOk(c.(leader := AppendOwn(c.leader, cmd)), p, x)
  {
    var f, longer := x.state, AppendOwn(c.leader, cmd).log;
    if f.term <= c.term {
      forall k | 0 <= k < |f.log| && k < |longer| && f.log[k].term == longer[k].term
        ensures AgreesAbove(f.log, 0, longer, k + 1)
      {
        assert AgreesAbove(f.log, 0, c.leader.log, k + 1);
      }
    }
    forall n | 0 <= n <= |c.leader.log| ensures longer[..n] == c.leader.log[..n] {}
  }

  lemma DeliveredPrefix(c: Leadership, f: NodeState, end: nat)
    requires LeaderOk(c) && end <= |c.leader.log| && f.log == c.leader.log[..end]
    ensures Agrees(f, c.leader, c.term) && forall n | 0 <= n <= end :: Holds(f, c.leader, n)
  {}

  lemma DeliverKeepsPeer(c: Leadership, p: NodeId, x: Peer)
    requires LeaderOk(c) && PeerOk(c, p, x) && x.wire.Sent?
    ensures var out := DecideAppend(x.state, x.wire.req);
            PeerOk(c, p, Peer(out.state, Replied(x.wire.req, out.resp)))
  {
    var f, req, full := x.state, x.wire.req, c.leader.log;
    var out := DecideAppend(f, req);
    var end := EndOf(req);
    DecideAppendShape(f, req);
    if out.resp.success {
      assert !GoesAstray(req);
      AcceptedMergeIsExact(f, req, full);
      assert out.state.log == full[..end];
      DeliveredPrefix(c, out.state, end);
    } else {
      assert out.state.log == f.log;
    }
  }

  lemma BuiltCarriesTail(s: NodeState, next: int)
    requires s.base == 0 && next >= 1
    ensures var req := BuildAppend(s, next);
            && req.term == s.term && req.prevLogIndex == next - 1
            && (next <= |s.log| + 1 ==>
                  req.entries == s.log[next - 1..] && (next > 1 ==> req.prevLogTerm == s.log[next - 2].term))
            && (next > |s.log| + 1 ==> GoesAstray(req))
  {}

  lemma SendKeepsPeer(c: Leadership, p: NodeId, x: Peer)
    requires LeaderOk(c) && PeerOk(c, p, x) && c.leader.role == Leader
    ensures PeerOk(c.(repl := Launch(c.repl, p)), p, x.(wire := Sent(BuildAppend(c.leader, NextFor(c.repl, p)))))
  {
    BuiltCarriesTail(c.leader, NextFor(c.repl, p));
  }

  lemma AckKeepsPeer(c: Leadership, p: NodeId, x: Peer, q: NodeId, matched: int)
    requires PeerOk(c, p, x)
    requires 0 <= matched <= |c.leader.log|
    requires p == q ==>
               x.wire.Quiet? && x.state.term >= c.term && (x.state.term == c.term ==> Holds(x.state, c.leader, matched))
    ensures PeerOk(c.(repl := Acknowledge(Land(c.repl, q), q, matched)), p, x)
  {}

  lemma RewindKeepsPeer(c: Leadership, p: NodeId, x: Peer, q: NodeId)
    requires LeaderOk(c) && PeerOk(c, p, x)
    ensures PeerOk(c.(repl := Rewind(Land(c.repl, q), q)), p, x)
  {}

  // ---- whole leaderships ----

  lemma RepliedKeepsPeer(c: Leadership, p: NodeId, x: Peer, q: NodeId, y: Peer, repl: Repl)
    requires LeaderOk(c) && PeerOk(c, p, x) && PeerOk(c, q, y) && y.wire.Replied? && (p == q ==> x == y.(wire := Quiet))
    requires var matched := EndOf(y.wire.req);
             repl == Land(c.repl, q) || repl == Rewind(Land(c.repl, q), q)
             || (y.wire.resp == AppendResponse(c.term, true) && repl == Acknowledge(Land(c.repl, q), q, matched))
    ensures PeerOk(c.(repl := repl), p, x)
  {
    if repl == Rewind(Land(c.repl, q), q) {
      RewindKeepsPeer(c, p, x, q);
    } else if repl != Land(c.repl, q) {
      AckKeepsPeer(c, p, x, q, EndOf(y.wire.req));
    }
  }

  /** PeerOk reads nothing of the leader's node but its log. */
  lemma OnlyTheLogMatters(c: Leadership, leader: NodeState, p: NodeId, x: Peer)
    requires PeerOk(c, p, x) && leader.log == c.leader.log
    ensures PeerOk(c.(leader := leader), p, x)
  {}

  lemma OnlyPeersDiffer(c: Leadership, c1: Leadership, p: NodeId, x: Peer)
    requires PeerOk(c, p, x) && c1 == c.(peers := c1.peers)
    ensures PeerOk(c1, p, x)
  {}

  lemma ReceiveKeepsPeer(c: Leadership, p: NodeId, q: NodeId)
    requires Inv(c) && Enabled(c, Receive(q)) && p in c.peers
    ensures PeerOk(Next(c, Receive(q)), p, Next(c, Receive(q)).peers[p])
  {
    hide OnAppendReply, Agrees, Matches, Acknowledge, Rewind, CommitOk;
    var y, c1 := c.peers[q], Next(c, Receive(q));
    var x := if p == q then y.(wire := Quiet) else c.peers[p];
    assert PeerOk(c, q, y) && PeerOk(c, p, c.peers[p]);
    assert PeerOk(c, p, x);
    ReplyShape(c.leader, c.repl, q, y.wire.req, y.wire.resp);
    RepliedKeepsPeer(c, p, x, q, y, c1.repl);
    OnlyTheLogMatters(c.(repl := c1.repl), c1.leader, p, x);
    OnlyPeersDiffer(c.(repl := c1.repl, leader := c1.leader), c1, p, x);
  }

  lemma ReplyMovesMatchesForward(s: NodeState, r: Repl, q: NodeId, req: AppendRequest, resp: AppendResponse)
    ensures var out := OnAppendReply(s, r, q, req, resp);
            forall p :: At(r.matchIndex, p) <= At(out.repl.matchIndex, p)
  {
    ReplyShape(s, r, q, req, resp);
  }

  lemma ReceiveKeepsCommit(c: Leadership, q: NodeId)
    requires Inv(c) && Enabled(c, Receive(q))
    ensures LeaderOk(Next(c, Receive(q))) && CommitOk(Next(c, Receive(q)))
  {
    hide OnAppendReply, Reached, Marks, PeerOk;
    var c1 := Next(c, Receive(q));
    var req, resp := c.peers[q].wire.req, c.peers[q].wire.resp;
    ReplyMovesMatchesForward(c.leader, c.repl, q, req, resp);
    ReplyShape(c.leader, c.repl, q, req, resp);
    CommitStays(c.leader, c.repl, c1.leader, c1.repl, c.leader.commitIndex);
  }

  /** Steps that leave the leader's node and match indexes alone need checking
      only at the peer concerned. */
  lemma PeerStepKeepsInv(c: Leadership, c1: Leadership, q: NodeId)
    requires Inv(c) && q in c.peers
    requires c1.leader == c.leader && c1.term == c.term && c1.start == c.start
    requires c1.repl == c.repl.(inFlight := c1.repl.inFlight)
    requires q in c1.peers && c1.peers == c.peers[q := c1.peers[q]] && PeerOk(c1, q, c1.peers[q])
    ensures Inv(c1)
  {
    assert Matches(c1.leader, c1.repl) == Matches(c.leader, c.repl);
    forall p | p in c1.peers ensures PeerOk(c1, p, c1.peers[p]) {
      assert PeerOk(c, p, c.peers[p]);
    }
  }

  lemma ProposeKeepsInv(c: Leadership, cmd: Command)
    requires Inv(c) && Enabled(c, Propose(cmd))
    ensures Inv(Next(c, Propose(cmd)))
  {
    var c1 := Next(c, Propose(cmd));
    CommitStays(c.leader, c.repl, c1.leader, c1.repl, c.leader.commitIndex);
    forall p | p in c1.peers ensures PeerOk(c1, p, c1.peers[p]) { ProposeKeepsPeer(c, p, c.peers[p], cmd); }
  }

  lemma ReceiveKeepsInv(c: Leadership, q: NodeId)
    requires Inv(c) && Enabled(c, Receive(q))
    ensures Inv(Next(c, Receive(q)))
  {
    var c1 := Next(c, Receive(q));
    ReceiveKeepsCommit(c, q);
    forall p | p in c1.peers ensures PeerOk(c1, p, c1.peers[p]) { ReceiveKeepsPeer(c, p, q); }
  }

  lemma WireStepKeepsInv(c: Leadership, step: Step)
    requires Inv(c) && Enabled(c, step) && (step.Send? || step.Deliver?)
    ensures Inv(Next(c, step))
  {
    if step.Send? {
      SendKeepsPeer(c, step.p, c.peers[step.p]);
    } else {
      DeliverKeepsPeer(c, step.p, c.peers[step.p]);
    }
    hide PeerOk;
    PeerStepKeepsInv(c, Next(c, step), step.p);
  }

  lemma OutsideStepKeepsInv(c: Leadership, step: Step)
    requires Inv(c) && Enabled(c, step) && (step.Fail? || step.Elsewhere?)
    ensures Inv(Next(c, step))
  {
    PeerStepKeepsInv(c, Next(c, step), step.p);
  }

  lemma StepKeepsInv(c: Leadership, step: Step)
    requires Inv(c) && Enabled(c, step)
    ensures Inv(Next(c, step))
  {
    hide Inv, Enabled, Next;
    match step {
      case Propose(cmd) => ProposeKeepsInv(c, cmd);
      case Receive(q) => ReceiveKeepsInv(c, q);
      case Send(_) => WireStepKeepsInv(c, step);
      case Deliver(_) => WireStepKeepsInv(c, step);
      case Fail(_) => OutsideStepKeepsInv(c, step);
      case Elsewhere(_, _) => OutsideStepKeepsInv(c, step);
    }
  }

  lemma ElectedInv(c: Leadership)
    requires Elected(c) && AllWarranted(c)
    ensures Inv(c)
  {
    forall p | p in c.peers ensures PeerOk(c, p, c.peers[p]) {
      assert p in c.leader.peers && Warranted(c, p);
    }
  }

  lemma {:induction false} RunKeepsInv(c: Leadership, steps: seq<Step>)
    requires Inv(c) && IsRun(c, steps)
    ensures Inv(After(c, steps))
    decreases |steps|
  {
    if steps == [] {
    } else {
      StepKeepsInv(c, steps[0]);
      RunKeepsInv(Next(c, steps[0]), steps[1..]);
    }
  }

  /** A peer still in the leader's term holds the leader's log up to its match index. */
  ghost predicate Truthful(c: Leadership) {
    forall p | p in c.peers && c.peers[p].state.term == c.term ::
      Holds(c.peers[p].state, c.leader, At(c.repl.matchIndex, p))
  }

  lemma OkIsTruthful(c: Leadership, p: NodeId)
    requires p in c.peers && PeerOk(c, p, c.peers[p]) && c.peers[p].state.term == c.term
    ensures Holds(c.peers[p].state, c.leader, At(c.repl.matchIndex, p))
  {}

  lemma WarrantedStaysTruthful(c: Leadership, steps: seq<Step>)
    requires Elected(c) && AllWarranted(c) && IsRun(c, steps)
    ensures Truthful(After(c, steps))
  {
    hide PeerOk;
    ElectedInv(c);
    RunKeepsInv(c, steps);
    var r := After(c, steps);
    forall p | p in r.peers && r.peers[p].state.term == r.term
      ensures Holds(r.peers[p].state, r.leader, At(r.repl.matchIndex, p))
    {
      OkIsTruthful(r, p);
    }
  }

  /** An unwarranted match index is exposed at once, or as soon as the peer, its
      log cut in an earlier term, enters the leader's. */
  lemma UnwarrantedIsExposed(c: Leadership, p: NodeId) returns (steps: seq<Step>)
    requires Elected(c) && p in c.peers && !Warranted(c, p)
    ensures IsRun(c, steps) && !Truthful(After(c, steps))
  {
    var f := c.peers[p].state;
    if f.term == c.term {
      steps := [];
    } else {
      var cut := f.(term := c.term, log := []);
      steps := [Elsewhere(p, cut)];
      assert MayBecome(c, f, cut);
      var c1 := Next(c, steps[0]);
      assert steps[1..] == [] && After(c, steps) == c1;
      assert c1.peers[p].state == cut && !Holds(cut, c1.leader, At(c1.repl.matchIndex, p));
    }
  }

  /** Truthful match indexes, exactly: they stay truthful on every run of a
      leadership if and only if every one of them is warranted when it begins,
      as it is when the bookkeeping is fresh. */
  lemma MatchIndexIsTruthful(c: Leadership)
    requires Elected(c)
    ensures (forall steps | IsRun(c, steps) :: Truthful(After(c, steps))) <==> AllWarranted(c)
    ensures c.repl == FreshRepl(c.leader) ==> AllWarranted(c)
  {
    hide Truthful, Warranted, Elected;
    if AllWarranted(c) {
      forall steps | IsRun(c, steps) ensures Truthful(After(c, steps)) { WarrantedStaysTruthful(c, steps); }
    } else {
      var p :| p in c.peers && !Warranted(c, p);
      var steps := UnwarrantedIsExposed(c, p);
    }
    if c.repl == FreshRepl(c.leader) { FreshIsWarranted(c); }
  }

  lemma AckedHolds(c: Leadership, p: NodeId, k: int)
    requires Inv(c) && p in c.leader.peers && 0 < k <= At(c.repl.matchIndex, p)
    ensures p in c.peers && c.peers[p].state.term >= c.term
    ensures c.peers[p].state.term == c.term ==> Holds(c.peers[p].state, c.leader, k)
  {
    assert PeerOk(c, p, c.peers[p]);
    var f, top := c.peers[p].state, At(c.repl.matchIndex, p);
    if f.term == c.term {
      assert f.log[..top][..k] == f.log[..k] && c.leader.log[..top][..k] == c.leader.log[..k];
    }
  }

  lemma QuorumCount(c: Leadership, k: int)
    requires Inv(c) && 2 * Reached(Matches(c.leader, c.repl), k) > |c.leader.peers| + 1
    ensures 2 * (|Reachers(c.leader.peers, c.repl.matchIndex, k)| + 1) > |c.leader.peers| + 1
  {
    ReachersCounted(c.leader.peers, c.repl.matchIndex, k);
    assert Matches(c.leader, c.repl)[1..] == Marks(c.leader.peers, c.repl.matchIndex);
  }

  lemma {:induction false} StartIsFixed(c: Leadership, steps: seq<Step>)
    requires IsRun(c, steps)
    ensures After(c, steps).start == c.start && After(c, steps).term == c.term
    decreases |steps|
  {
    if steps == [] {
    } else {
      StartIsFixed(Next(c, steps[0]), steps[1..]);
    }
  }

  /** The leader and a majority's worth of peers hold what it has committed. */
  ghost predicate HeldByMajority(c: Leadership, quorum: set<NodeId>) {
    && 2 * |quorum| > |c.leader.peers| + 1 && c.leader.id in quorum && quorum <= c.peers.Keys + {c.leader.id}
    && 0 <= c.leader.commitIndex <= LastIndex(c.leader)
    && forall p | p in quorum && p != c.leader.id ::
         && c.peers[p].state.term >= c.term
         && (c.peers[p].state.term == c.term ==> Holds(c.peers[p].state, c.leader, c.leader.commitIndex))
  }

  lemma Holders(c: Leadership) returns (quorum: set<NodeId>)
    requires Inv(c) && c.start >= 0
    ensures c.leader.commitIndex > c.start ==> HeldByMajority(c, quorum)
  {
    hide PeerOk, Matches, Marks, Reached, Reachers, Holds, LastIndex, Majority, Distinct, At;
    var k, peers, m := c.leader.commitIndex, c.leader.peers, c.repl.matchIndex;
    var acked := Reachers(peers, m, k);
    ReachersCounted(peers, m, k);
    quorum := acked + {c.leader.id};
    if k > c.start {
      QuorumCount(c, k);
      assert c.leader.id !in acked;
      forall p | p in acked
        ensures p in c.peers && c.peers[p].state.term >= c.term
        ensures c.peers[p].state.term == c.term ==> Holds(c.peers[p].state, c.leader, k)
      {
        AckedHolds(c, p, k);
      }
    }
  }

  /** Commitment: if every match index was warranted at the start, whatever index
      the leader has committed beyond its starting point is held, with the same
      prefix, by a majority, counting the leader and every acknowledging peer that
      has not moved on to a later term. */
  lemma CommittedIsHeldByMajority(c: Leadership, steps: seq<Step>) returns (quorum: set<NodeId>)
    requires Elected(c) && AllWarranted(c) && IsRun(c, steps)
    ensures var r := After(c, steps); r.leader.commitIndex > c.start ==> HeldByMajority(r, quorum)
  {
    hide Inv, AllWarranted;
    ElectedInv(c);
    RunKeepsInv(c, steps);
    StartIsFixed(c, steps);
    quorum := Holders(After(c, steps));
  }
}
